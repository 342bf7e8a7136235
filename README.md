# Masked-particle engine of the Hallway Monitor sketch, in Dafny

The sketch (`sketch.js`, a p5 program) animates two pools of soft particles whose
visibility follows raster masks: a text mask ("OPEN CALL") and one mask per drifting
ambient cloud. Every frame each particle moves right by its speed, samples the red
channel of its mask at its truncated position, fades in (up to 255) while inside and
fades out (down to 0) while outside, and a fully transparent particle that has left
the canvas on the right is moved back to the left edge at a fresh random row. The
text offset drifts and resets past an estimated width; each ambient cloud drifts
right and, once past the right edge, wraps to the left and rebuilds its shape of 100
discs.

This project models that engine without any drawing:

- `raster.dfy` (module `Raster`): a mask is a buffer's width, height and RGBA pixel
  array of exactly `4 * width * height` bytes. `Trunc` is p5's `int()` (truncation
  toward zero), `InMask` the bounds check followed by the strict `> 128` test of the
  red channel at index `4 * (py * width + px)`, and `Sample` the test at a real
  position.
- `particles.dfy` (module `Particles`): the particle record, both factories, the
  hysteresis rule `NextAlpha`, one particle's update `StepParticle`, a pool's update
  `StepPool` and successive updates `StepPoolOverMasks`, and
  `DrawMaskedParticles`, the in-place loop over an array of particles proved equal
  to `StepPool`.
- `clouds.dfy` (module `Clouds`): the disc shape (`MakeCloudShape`, a push loop
  proved equal to `CloudShape`), the cloud record and its factory, one frame of a
  cloud (`StepCloud`) and the in-place loop over all clouds (`MoveClouds`).
- `sketch.dfy` (module `Sketch`): the text drift (`StepText`), setup's pool and
  cloud loops, and the class `Scene` holding the sketch's globals. Its constructor
  is setup without asset loading, and `Draw` is one frame. The scene invariant
  `Valid` fixes the pool and cloud counts and holds every alpha in [0, 255], every
  particle row on the canvas and every mask at the canvas size. It also keeps the
  text offset at or below its reset point, every cloud at or left of its wrap point
  and in the top 0.3 of the canvas, and every disc diameter in [0.2w, 0.5w].

Every random draw is an input, as the value p5 returned; a `randomGaussian(m, sd)`
call is given as its standard normal deviate `z`, with value `m + sd * z`. Masks are
opaque inputs, because their pixels come from p5's rasteriser. The horizontal text
increment `0.75 + sin(frameCount * 0.01)` is an input too.

Behaviour of the code that the model makes explicit:

- `draw` calls `drawMaskedParticles` on the same ambient pool once per ambient
  cloud. With two clouds, an ambient particle advances by twice its speed per frame
  and its alpha is faded against the first cloud's mask and then the second's
  (`Scene.Draw`, `TwoCallsPerFrame`). Hence a transparent particle inside only the
  first cloud, whose fade-out speed is at least its fade-in speed, stays transparent
  (`InsideOneCloudOnlyStaysHidden`).
- A cloud's mask is redrawn only when the cloud wraps, and the new shape is built
  around `x = -w`, left of the canvas. Every disc whose horizontal deviate is below
  3.75 then lies wholly left of the canvas (`WrappedShapeLeftOfCanvas`). The text
  mask is likewise redrawn only when the text resets.
- Truncation toward zero makes positions in `-1 < x < 0` sample column 0
  (`SampleLeftStrip`).
- The wrap guard compares with the canvas width, not the buffer width, and is read
  after the alpha update of the same call.

`sketch.js` has no velocity-sign flips, population resets or lifespans. It wraps a
particle to `x = -r` at a random row and changes no other field. Its text mask is
not redrawn every frame.

## Model

| member | source | states |
|---|---|---|
| `Raster.Trunc` | sketch.js:127-128 | `int()` truncates toward zero: a non-negative coordinate lands in the cell `[n, n+1)` below it, a negative one in `(n-1, n]`. |
| `Raster.PixelIndexInRange` | sketch.js:131-132 | For an in-bounds pixel, the index `4*(py*width+px)` and the three channels after it lie inside an array of `4*width*height`, so the read is always in range. |
| `Raster.PixelIndexInjective` | sketch.js:132 | Distinct in-bounds pixels have distinct red-channel indices: the flat index addresses the buffer row-major without collisions. |
| `Raster.InMask` | sketch.js:129-134 | Inside implies in bounds and a red value strictly above 128: out-of-bounds coordinates are never inside, and a red value of exactly 128 is outside. |
| `Raster.SampleIsCoveringPixel` | sketch.js:127-134 | For a position with non-negative coordinates, the particle is inside exactly when the pixel whose unit square contains it is in the buffer and its red value exceeds 128. |
| `Raster.Sample` | sketch.js:127-134 | A particle is inside only when its real position is less than a pixel left of or above the buffer and strictly left of its width and above its height: a position a full pixel outside is never inside, whatever the pixels. |
| `Raster.SampleLeftStrip` | sketch.js:127 | A position with `-1 < x < 0` samples the same pixel as `x = 0`. |
| `Particles.MakeParticle` | sketch.js:97-108 | A text particle starts with alpha 0, on the canvas, with fade speeds in [0.02, 1] and [1, 4], satisfying the particle invariant. |
| `Particles.MakeCloudParticle` | sketch.js:110-121 | An ambient particle starts with alpha 0, in the upper half of the canvas, with fade speeds in [0.2, 0.9] and [0.05, 1], satisfying the particle invariant. |
| `Particles.NextAlpha` | sketch.js:136-140 | Inside, alpha never exceeds 255 and never decreases; outside, it never drops below 0 and never increases; from [0, 255] with non-negative speeds it stays in [0, 255]. |
| `Particles.FadeInClosedForm` | sketch.js:136-137 | After n consecutive updates inside the mask, alpha is exactly `min(255, alpha + n*fadeSpeed)`. |
| `Particles.FadeOutClosedForm` | sketch.js:138-140 | After n consecutive updates outside the mask, alpha is exactly `max(0, alpha - n*fadeOutSpeed)`. |
| `Particles.StepParticle` | sketch.js:125-156 | One update: r, speed, offset and both fade speeds unchanged; alpha follows the hysteresis rule at the advanced column and the old row; x advances by exactly speed and y stays, unless the guard `x - r > width && alpha == 0` holds, and then exactly x becomes `-r` and y the drawn row; a valid particle stays valid and is never left meeting the guard. |
| `Particles.StepPool` | sketch.js:124-157 | One call keeps the pool's length and keeps every particle valid, so every alpha stays in [0, 255]; each particle's row is either kept or is the row drawn for it. |
| `Particles.StepPoolOverMasks` | sketch.js:89-91 | Successive calls on one pool, one per mask in order, keep the pool's length. |
| `Particles.StepPoolOverMasksValid` | sketch.js:124-157 | Any number of calls, against any masks, keep every alpha in [0, 255] and the pool's length. |
| `Particles.StepPoolOverMasksRows` | sketch.js:152-155 | Any number of calls keep every particle's row on the canvas, in [0, height], when every row drawn by `random(height)` is. |
| `Particles.StepPoolOverTwoMasks` | sketch.js:89-91 | Two calls in a row on one pool amount to each particle being updated against the first mask and then the second. |
| `Particles.TwoCallsPerFrame` | sketch.js:89-91 | With two ambient clouds and no wrap, an ambient particle's x advances by exactly twice its speed per frame, its y stays, and its alpha is faded against both masks in order. |
| `Particles.InsideOneCloudOnlyStaysHidden` | sketch.js:89-91 | A transparent ambient particle inside the first cloud's mask only, with fadeOutSpeed at least fadeSpeed, is still transparent after the frame. |
| `Particles.DrawMaskedParticles` | sketch.js:124-157 | The in-place loop leaves the pool equal to one `StepPool` of the old pool; the pool's length never changes. |
| `Clouds.CloudShape` | sketch.js:182-191 | A shape has exactly 100 discs, and when every radius draw lies in `random(w * 0.2, w * 0.5)`'s range, every disc's diameter lies in [0.2w, 0.5w]. |
| `Clouds.MakeCloudShape` | sketch.js:182-191 | The push loop yields exactly 100 discs; disc i is offset from the centre by 0.2 of the width and height times its deviates and has the drawn radius, which lies in [0.2w, 0.5w]. |
| `Clouds.MakeCloud` | sketch.js:30-41 | A new cloud starts between half a canvas left of the left edge and the left edge, at or left of its wrap point, in the top 0.3 of the canvas, with 100 discs of diameter in [0.2w, 0.5w] and a canvas-sized mask. |
| `Clouds.StepCloud` | sketch.js:74-85 | A cloud moves right by exactly its speed; only when `x - w > width` afterwards does it wrap to `x = -w` with the drawn row, a shape rebuilt there and a new mask; w, h, speed and swayOffset never change; afterwards it is at or left of its wrap point. |
| `Clouds.StepClouds` | sketch.js:74-85 | The cloud loop keeps the number of clouds and every cloud's width and speed, and leaves every cloud of non-negative width at or left of its wrap point. |
| `Clouds.StepCloudValid` | sketch.js:74-85 | A cloud frame keeps a valid cloud valid, wrapped or not: its row stays in the top 0.3 of the canvas and its disc diameters in [0.2w, 0.5w]. |
| `Clouds.WrappedShapeLeftOfCanvas` | sketch.js:76-81 | After a wrap, each rebuilt disc whose horizontal deviate is below 3.75 ends left of x = 0. |
| `Clouds.MoveClouds` | sketch.js:73-85 | The in-place cloud loop leaves every cloud equal to one `StepCloud` of its old value. |
| `Sketch.TextWidthEstimate` | sketch.js:63 | The reset point lies right of the canvas's right edge, and the offset the text resets to lies left of 0. |
| `Sketch.StepText` | sketch.js:58-71 | The text offset resets to `-0.7 * (width + 4.4)` with a new row and mask exactly when it exceeds `width + 4.4`; otherwise it moves by the increment and jitter and the mask is kept; it never ends above `width + 4.4`. |
| `Sketch.NewPool` | sketch.js:19-23 | setup's push loop yields a fresh pool of one particle per draw, each as its factory makes it. |
| `Sketch.NewClouds` | sketch.js:25-46 | setup's cloud loop yields a fresh array of clouds, each with its shape built around its starting position. |
| `Sketch.DrawAmbient` | sketch.js:89-91 | The ambient loop leaves the pool equal to successive updates against each cloud's mask in order. |
| `Sketch.Scene.constructor` | sketch.js:19-52 | setup creates 15000 text particles, 2 clouds and 3000 ambient particles, all transparent and on the canvas, with offsets 0, and establishes the scene invariant. |
| `Sketch.Scene.DriftText` | sketch.js:58-71 | The text offsets and mask are updated in place exactly as `StepText` says. |
| `Sketch.Scene.Draw` | sketch.js:55-94 | One frame: text drift, then clouds, then the text pool against the (possibly redrawn) text mask, then the ambient pool once per cloud mask; with two clouds each ambient particle is stepped twice; the scene invariant, with every alpha in [0, 255] and every particle row on the canvas, is preserved. |

## Left out

- Rendering is not modelled: `background`, `fill`, `noStroke` and `ellipse` in `drawMaskedParticles` and `draw`, the text glyphs of `drawTextBuffer`, the discs of `drawCloudBuffer`, and `drawCornerText`. The masks they produce are inputs. The `maxAlpha` argument only scales the drawn colour, so it does not appear.
- Asset loading and surface creation are not modelled: `loadImage`, `createCanvas`, `createGraphics`, `pixelDensity`, `textFont` and `loadPixels`, and the awaiting in `setup`. These are library I/O.
- The jitter of the drawn position (`sin`/`cos` of `frameCount`) is not modelled; it affects only drawing. The text's horizontal increment is an input.
- The random generator is not modelled. Draws are inputs constrained to the ranges p5 guarantees: every factory draw, the cloud and shape draws (radii included), the rows drawn on a wrap or a text reset, and the text's vertical jitter. A wrap's row draw is indexed by particle position rather than taken from one stream; any stream order corresponds to some such indexing.
- The phase draws `offset` and `swayOffset` are stored but not range-checked, because `random(TWO_PI)` has an irrational bound and neither value reaches the modelled logic.
- Raster.Trunc: models `int()` as exact truncation toward zero for every real; p5's conversion of magnitudes at or beyond 2^31 is not modelled.
- Positions, speeds and alpha are exact reals, not IEEE doubles. Rounding of repeated additions is not modelled.
- Particles are immutable records in an array, each update replacing one slot, where the source mutates objects in place. The source never shares a particle object between pools or slots, so no aliasing is lost.
