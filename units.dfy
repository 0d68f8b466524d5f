/**
 * Unit conversion between the pixel grid of the renderer and the metres of the
 * physics world (ModulePhysics.h). Floats are modelled as exact reals.
 */
module Units {

  /** Box2D's b2Vec2. */
  datatype Vec2 = Vec2(x: real, y: real)

  const GravityX: real := 0.0
  const GravityY: real := -0.6

  const PixelsPerMeter: real := 50.0
  const MeterPerPixel: real := 0.02

  /** The largest integer not above `x` (C's floor). */
  function Floor(x: real): (n: int)
    ensures n as real <= x < n as real + 1.0
  {
    x.Floor
  }

  /** PIXEL_TO_METERS: a linear scale, undone exactly by multiplying by PixelsPerMeter. */
  function PixelToMeters(p: real): (m: real)
    ensures m * PixelsPerMeter == p
  {
    MeterPerPixel * p
  }

  /** METERS_TO_PIXELS: the pixel whose cell holds `m`, rounding toward negative infinity. */
  function MetersToPixels(m: real): (p: int)
    ensures p as real <= PixelsPerMeter * m < p as real + 1.0
  {
    Floor(PixelsPerMeter * m)
  }

  /** A pixel-space point converted coordinate by coordinate. */
  function PixelPoint(x: int, y: int): (v: Vec2)
    ensures v.x * PixelsPerMeter == x as real && v.y * PixelsPerMeter == y as real
  {
    Vec2(PixelToMeters(x as real), PixelToMeters(y as real))
  }

  /** The gravity vector the world is created with: the configured Y component negated. */
  function WorldGravity(): (g: Vec2)
    ensures g == Vec2(0.0, 0.6)
  {
    Vec2(GravityX, -GravityY)
  }

  lemma MeterPerPixelIsInverse()
    ensures MeterPerPixel * PixelsPerMeter == 1.0
  {
  }

  /** Every integer pixel survives a trip into metres and back. */
  lemma PixelRoundTrip(p: int)
    ensures MetersToPixels(PixelToMeters(p as real)) == p
  {
    var q := MetersToPixels(PixelToMeters(p as real));
    assert PixelsPerMeter * PixelToMeters(p as real) == p as real;
    assert q as real <= p as real < q as real + 1.0;
  }

  /** Going the other way loses less than one pixel, always downward. */
  lemma MetersRoundTrip(m: real)
    ensures PixelToMeters(MetersToPixels(m) as real) <= m
    ensures m < PixelToMeters(MetersToPixels(m) as real) + MeterPerPixel
  {
    var p := MetersToPixels(m);
    assert p as real <= PixelsPerMeter * m < p as real + 1.0;
  }

  lemma MetersToPixelsMonotone(a: real, b: real)
    requires a <= b
    ensures MetersToPixels(a) <= MetersToPixels(b)
  {
    var pa, pb := MetersToPixels(a), MetersToPixels(b);
    assert pa as real <= PixelsPerMeter * a <= PixelsPerMeter * b < pb as real + 1.0;
  }
}
