/** Ambient clouds: the precomputed disc shape of a cloud, and the per-frame
    drift that wraps a cloud back to the left edge and rebuilds its shape. */
module Clouds {
  import opened Raster
  import Particles

  /** Number of discs in a cloud shape. */
  const ShapeSize: nat := 100

  /** One disc of a cloud shape: centre and horizontal diameter (drawn
      flattened to 0.7 of it vertically). */
  datatype Disc = Disc(x: real, y: real, r: real)

  /** The draws behind one disc: two standard normal deviates (randomGaussian(m, sd)
      is m + sd * z) and the value random(w * 0.2, w * 0.5) returned. */
  datatype DiscDraw = DiscDraw(zx: real, zy: real, er: real)

  /** Disc centres scatter around (cx, cy) with standard deviation 0.2 of the
      cloud's width and height. */
  function ShapeDisc(cx: real, cy: real, w: real, h: real, d: DiscDraw): Disc
  {
    Disc(cx + d.zx * (w * 0.2), cy + d.zy * (h * 0.2), d.er)
  }

  /** The shape makeCloudShape builds from its draws. */
  function CloudShape(cx: real, cy: real, w: real, h: real, draws: seq<DiscDraw>): (shape: seq<Disc>)
    requires |draws| == ShapeSize
    ensures |shape| == ShapeSize
    ensures w >= 0.0 && RadiiInRange(w, draws) ==> RadiiWithin(shape, w)
  {
    seq(ShapeSize, i requires 0 <= i < ShapeSize => ShapeDisc(cx, cy, w, h, draws[i]))
  }

  /** The radii draws lie in random(w * 0.2, w * 0.5)'s range. */
  predicate RadiiInRange(w: real, draws: seq<DiscDraw>)
  {
    forall i :: 0 <= i < |draws| ==> Particles.Between(draws[i].er, w * 0.2, w * 0.5)
  }

  /** Every disc's diameter lies within [0.2, 0.5] of the cloud's width. */
  predicate RadiiWithin(shape: seq<Disc>, w: real)
  {
    forall i :: 0 <= i < |shape| ==> w * 0.2 <= shape[i].r <= w * 0.5
  }

  /** makeCloudShape: one hundred discs pushed in order, disc i from draw i. */
  method MakeCloudShape(cx: real, cy: real, w: real, h: real, draws: seq<DiscDraw>) returns (points: seq<Disc>)
    requires |draws| == ShapeSize
    ensures |points| == ShapeSize
    ensures forall i :: 0 <= i < ShapeSize ==>
      points[i].r == draws[i].er
      && points[i].x - cx == draws[i].zx * (w * 0.2)
      && points[i].y - cy == draws[i].zy * (h * 0.2)
    ensures w >= 0.0 && RadiiInRange(w, draws) ==> RadiiWithin(points, w)
    ensures points == CloudShape(cx, cy, w, h, draws)
  {
    points := [];
    for i := 0 to ShapeSize
      invariant |points| == i
      invariant forall k :: 0 <= k < i ==> points[k] == ShapeDisc(cx, cy, w, h, draws[k])
    {
      var ex := cx + draws[i].zx * (w * 0.2);
      var ey := cy + draws[i].zy * (h * 0.2);
      var er := draws[i].er;
      points := points + [Disc(ex, ey, er)];
    }
  }

  /** An ambient cloud; its buffer is the mask its shape was last drawn into. */
  datatype Cloud = Cloud(
    x: real, y: real, speed: real, w: real, h: real, swayOffset: real,
    shape: seq<Disc>, mask: Mask)

  /** What every cloud satisfies after setup and after every frame. */
  predicate CloudValid(c: Cloud, width: nat, height: nat)
  {
    c.w >= 0.0 && c.speed > 0.0 && |c.shape| == ShapeSize
    && RadiiWithin(c.shape, c.w)
    && 0.0 <= c.y <= height as real * 0.3
    && c.x - c.w <= width as real
    && c.mask.width == width && c.mask.height == height
  }

  /** The draws for a cloud's setup: random(0.5), random(height * 0.15),
      random(0.1, 1.2), random(width / 7, width / 5), random(height / 10,
      height / 4), random(TWO_PI), the shape's draws, and the mask the shape
      was drawn into. */
  datatype CloudDraw = CloudDraw(
    xFraction: real, y: real, speed: real, w: real, h: real, swayOffset: real,
    shapeDraws: seq<DiscDraw>, mask: Mask)

  predicate CloudDrawInRange(d: CloudDraw, width: nat, height: nat)
  {
    Particles.Between(d.xFraction, 0.0, 0.5) && Particles.Between(d.y, 0.0, height as real * 0.15)
    && Particles.Between(d.speed, 0.1, 1.2)
    && Particles.Between(d.w, width as real / 7.0, width as real / 5.0)
    && Particles.Between(d.h, height as real / 10.0, height as real / 4.0)
    && |d.shapeDraws| == ShapeSize && RadiiInRange(d.w, d.shapeDraws)
    && d.mask.width == width && d.mask.height == height
  }

  /** A cloud as setup creates it: starting up to half a canvas left of the
      left edge, with its shape built around its starting position. */
  function MakeCloud(d: CloudDraw, width: nat, height: nat): (c: Cloud)
    requires CloudDrawInRange(d, width, height)
    ensures CloudValid(c, width, height)
    ensures -(width as real) / 2.0 <= c.x <= 0.0
    ensures 0.1 <= c.speed <= 1.2
  {
    var x := -(width as real) * d.xFraction;
    StartWithinHalfCanvas(width, d.xFraction);
    assert 0.0 <= d.w;
    Cloud(x, d.y, d.speed, d.w, d.h, d.swayOffset, CloudShape(x, d.y, d.w, d.h, d.shapeDraws), d.mask)
  }

  /** random(0.5) of the canvas width left of the edge is within half a canvas of it. */
  lemma StartWithinHalfCanvas(width: nat, xFraction: real)
    requires Particles.Between(xFraction, 0.0, 0.5)
    ensures -(width as real) / 2.0 <= -(width as real) * xFraction <= 0.0
  {
    assert (width as real) * 0.5 - (width as real) * xFraction == (width as real) * (0.5 - xFraction);
  }

  /** The draws a cloud uses if it wraps this frame: random(height * 0.3), the
      new shape's draws, and the mask the new shape is drawn into. */
  datatype CloudRedraw = CloudRedraw(y: real, shapeDraws: seq<DiscDraw>, mask: Mask)

  /** One frame of a cloud: move right by its speed; once fully past the right
      edge, wrap to -w with a new row and a shape rebuilt there. */
  function StepCloud(c: Cloud, width: nat, rd: CloudRedraw): (q: Cloud)
    requires |rd.shapeDraws| == ShapeSize
    ensures q.w == c.w && q.h == c.h && q.speed == c.speed && q.swayOffset == c.swayOffset
    ensures c.x + c.speed - c.w > width as real ==>
      q.x == -c.w && q.y == rd.y && q.mask == rd.mask
      && q.shape == CloudShape(-c.w, rd.y, c.w, c.h, rd.shapeDraws)
    ensures c.x + c.speed - c.w <= width as real ==>
      q.x == c.x + c.speed && q.y == c.y && q.shape == c.shape && q.mask == c.mask
    ensures c.w >= 0.0 ==> q.x - q.w <= width as real
  {
    var x := c.x + c.speed;
    if x - c.w > width as real then
      c.(x := -c.w, y := rd.y, shape := CloudShape(-c.w, rd.y, c.w, c.h, rd.shapeDraws), mask := rd.mask)
    else
      c.(x := x)
  }

  /** One frame of every cloud, in order. */
  function StepClouds(cs: seq<Cloud>, width: nat, redraws: seq<CloudRedraw>): (r: seq<Cloud>)
    requires |redraws| == |cs|
    requires forall i :: 0 <= i < |redraws| ==> |redraws[i].shapeDraws| == ShapeSize
    ensures |r| == |cs|
    ensures forall i :: 0 <= i < |cs| ==>
      r[i].w == cs[i].w && r[i].speed == cs[i].speed
      && (cs[i].w >= 0.0 ==> r[i].x - r[i].w <= width as real)
  {
    seq(|cs|, i requires 0 <= i < |cs| => StepCloud(cs[i], width, redraws[i]))
  }

  /** The wrap draws for a cloud of width w: the row within random(height *
      0.3)'s range and each radius within random(w * 0.2, w * 0.5)'s. */
  predicate RedrawInRange(rd: CloudRedraw, w: real, width: nat, height: nat)
  {
    |rd.shapeDraws| == ShapeSize && RadiiInRange(w, rd.shapeDraws)
    && Particles.Between(rd.y, 0.0, height as real * 0.3)
    && rd.mask.width == width && rd.mask.height == height
  }

  /** A cloud frame keeps a valid cloud valid, whether or not it wraps. */
  lemma StepCloudValid(c: Cloud, width: nat, height: nat, rd: CloudRedraw)
    requires CloudValid(c, width, height) && RedrawInRange(rd, c.w, width, height)
    ensures CloudValid(StepCloud(c, width, rd), width, height)
  {
  }

  /** Right edge of a disc drawn with diameter r. */
  function RightEdge(d: Disc): real
  {
    d.x + d.r / 2.0
  }

  /** After a wrap the shape is rebuilt around x = -w and the mask is not
      redrawn while the cloud drifts: every disc whose horizontal deviate is
      below 3.75 lies wholly left of the canvas. */
  lemma {:induction false} WrappedShapeLeftOfCanvas(c: Cloud, width: nat, rd: CloudRedraw, i: nat)
    requires |rd.shapeDraws| == ShapeSize && i < ShapeSize
    requires c.w > 0.0 && c.x + c.speed - c.w > width as real
    requires RadiiInRange(c.w, rd.shapeDraws)
    requires rd.shapeDraws[i].zx < 3.75
    ensures RightEdge(StepCloud(c, width, rd).shape[i]) < 0.0
  {
    var d := rd.shapeDraws[i];
    var disc := ShapeDisc(-c.w, rd.y, c.w, c.h, d);
    assert StepCloud(c, width, rd).shape[i] == disc;
    assert Particles.Between(d.er, c.w * 0.2, c.w * 0.5);
    DiscLeftOfOrigin(c.w, d.zx, d.er);
  }

  /** A disc centred within 3.75 deviations right of -w, of diameter at most
      w / 2, ends left of 0. */
  lemma DiscLeftOfOrigin(w: real, zx: real, er: real)
    requires w > 0.0 && zx < 3.75 && er <= w * 0.5
    ensures -w + zx * (w * 0.2) + er / 2.0 < 0.0
  {
    var t := w * 0.2;
    assert 3.75 * t - zx * t == (3.75 - zx) * t;
    assert (3.75 - zx) * t > 0.0;
    assert zx * t < 0.75 * w;
  }

  /** The cloud loop of draw: every cloud moves, and wraps, in place. */
  method MoveClouds(cs: array<Cloud>, width: nat, redraws: seq<CloudRedraw>)
    requires |redraws| == cs.Length
    requires forall i :: 0 <= i < |redraws| ==> |redraws[i].shapeDraws| == ShapeSize
    modifies cs
    ensures cs[..] == StepClouds(old(cs[..]), width, redraws)
  {
    for i := 0 to cs.Length
      invariant forall k :: 0 <= k < i ==> cs[k] == StepCloud(old(cs[k]), width, redraws[k])
      invariant forall k :: i <= k < cs.Length ==> cs[k] == old(cs[k])
    {
      var c := cs[i];
      c := c.(x := c.x + c.speed);
      if c.x - c.w > width as real {
        c := c.(x := -c.w, y := redraws[i].y);
        var shape := MakeCloudShape(c.x, c.y, c.w, c.h, redraws[i].shapeDraws);
        c := c.(shape := shape, mask := redraws[i].mask);
      }
      cs[i] := c;
    }
  }
}
