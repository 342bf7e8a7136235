/** Mask buffers as the sketch reads them back from an off-screen p5 graphics
    buffer (pixelDensity 1), and the membership test that samples them at a
    particle's position. */
module Raster {

  /** One channel value of a p5 pixel array (a clamped byte array). */
  type Byte = x: int | 0 <= x < 256

  /** A pixel is inside the mask when its red value is strictly above this. */
  const Threshold: int := 128

  /** A graphics buffer's size and its RGBA pixel array, row-major. */
  datatype Buffer = Buffer(width: nat, height: nat, pixels: seq<Byte>)

  /** A buffer whose pixel array holds exactly four channels per pixel. */
  type Mask = b: Buffer | |b.pixels| == 4 * b.width * b.height witness Buffer(0, 0, [])

  /** p5's int() on a coordinate: truncation toward zero. */
  function Trunc(v: real): (n: int)
    ensures 0.0 <= v ==> 0 <= n && n as real <= v < n as real + 1.0
    ensures v < 0.0 ==> n <= 0 && n as real - 1.0 < v <= n as real
  {
    if v >= 0.0 then v.Floor else -((-v).Floor)
  }

  /** Flat index of the red channel of pixel (px, py) in a buffer of the given width. */
  function PixelIndex(width: nat, px: int, py: int): int
  {
    4 * (py * width + px)
  }

  /** Every in-bounds pixel's four channels lie inside the pixel array. */
  lemma {:induction false} PixelIndexInRange(width: nat, height: nat, px: int, py: int)
    requires 0 <= px < width && 0 <= py < height
    ensures 0 <= PixelIndex(width, px, py)
    ensures PixelIndex(width, px, py) + 3 < 4 * width * height
  {
    assert py * width <= (height - 1) * width by {
      assert (height - 1) * width - py * width == (height - 1 - py) * width;
    }
    assert (height - 1) * width + width == height * width;
  }

  /** Distinct in-bounds pixels have distinct red-channel indices. */
  lemma {:induction false} PixelIndexInjective(width: nat, height: nat, px: int, py: int, qx: int, qy: int)
    requires 0 <= px < width && 0 <= py < height
    requires 0 <= qx < width && 0 <= qy < height
    requires PixelIndex(width, px, py) == PixelIndex(width, qx, qy)
    ensures px == qx && py == qy
  {
    var a, b := py * width + px, qy * width + qx;
    assert a == b;
    if py < qy {
      RowsApart(width, py, qy);
    } else if qy < py {
      RowsApart(width, qy, py);
    }
  }

  /** A whole row of pixels separates the starts of two different rows. */
  lemma {:induction false} RowsApart(width: nat, lo: int, hi: int)
    requires 0 <= lo < hi
    ensures (lo + 1) * width <= hi * width
  {
    var d := hi - lo - 1;
    assert hi * width == (lo + 1) * width + d * width;
  }

  /** The red value of an in-bounds pixel. */
  function Red(m: Mask, px: int, py: int): Byte
    requires 0 <= px < m.width && 0 <= py < m.height
  {
    PixelIndexInRange(m.width, m.height, px, py);
    m.pixels[PixelIndex(m.width, px, py)]
  }

  /** The membership test on truncated coordinates: bounds first, then the red channel. */
  function InMask(m: Mask, px: int, py: int): (inside: bool)
    ensures inside ==> 0 <= px < m.width && 0 <= py < m.height && Red(m, px, py) > Threshold
  {
    if 0 <= px < m.width && 0 <= py < m.height then
      PixelIndexInRange(m.width, m.height, px, py);
      var idx := 4 * (py * m.width + px);
      m.pixels[idx] > Threshold
    else
      false
  }

  /** The test applied to a particle's real position, as the sketch does it.
      A position left of or above the buffer by a full pixel, or right of or
      below it, is never inside, whatever the pixels hold. */
  function Sample(m: Mask, x: real, y: real): (inside: bool)
    ensures inside ==> -1.0 < x < m.width as real && -1.0 < y < m.height as real
  {
    InMask(m, Trunc(x), Trunc(y))
  }

  /** For a position in the canvas quadrant, the sample is the test of the
      pixel whose unit square contains the position. */
  lemma SampleIsCoveringPixel(m: Mask, x: real, y: real, col: nat, row: nat)
    requires col as real <= x < col as real + 1.0
    requires row as real <= y < row as real + 1.0
    ensures Sample(m, x, y) <==> col < m.width && row < m.height && Red(m, col, row) > Threshold
  {
    TruncOfCell(x, col);
    TruncOfCell(y, row);
  }

  /** Truncation of a non-negative coordinate names the cell it lies in. */
  lemma TruncOfCell(v: real, k: nat)
    requires k as real <= v < k as real + 1.0
    ensures Trunc(v) == k
  {
  }

  /** Truncation toward zero makes the strip -1 < x < 0 left of the buffer
      sample column 0, the same pixel as x = 0. */
  lemma SampleLeftStrip(m: Mask, x: real, y: real)
    requires -1.0 < x < 0.0
    ensures Sample(m, x, y) == Sample(m, 0.0, y)
  {
    assert Trunc(x) == 0;
  }
}
