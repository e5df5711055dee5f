/** The fixed affine maps from Collection 2 Level 2 digital numbers to
    surface reflectance (`SR_B*`) and surface temperature in kelvin (`ST_B10`). */
module Radiometry {
  import opened Raster

  const REFLECTANCE_GAIN: real := 0.0000275
  const REFLECTANCE_OFFSET: real := -0.2
  const THERMAL_GAIN: real := 0.00341802
  const THERMAL_OFFSET: real := 149.0

  /** `multiply(0.0000275).add(-0.2)` on one reflective band. */
  function ScaleReflective(v: Pixel): (r: Pixel)
    ensures r.Some? <==> v.Some?
  {
    AddConst(Mul(v, REFLECTANCE_GAIN), REFLECTANCE_OFFSET)
  }

  /** `multiply(0.00341802).add(149.0)` on the thermal band. */
  function ScaleThermal(v: Pixel): (r: Pixel)
    ensures r.Some? <==> v.Some?
  {
    AddConst(Mul(v, THERMAL_GAIN), THERMAL_OFFSET)
  }

  /** The digital number a reflectance came from. */
  function UnscaleReflective(v: Pixel): Pixel {
    if v.Some? then Some((v.value - REFLECTANCE_OFFSET) / REFLECTANCE_GAIN) else None
  }

  /** The digital number a surface temperature came from. */
  function UnscaleThermal(v: Pixel): Pixel {
    if v.Some? then Some((v.value - THERMAL_OFFSET) / THERMAL_GAIN) else None
  }

  /** The digital numbers the scaled bands came from, band by band. */
  function UnscaleBands(b: Bands): Bands {
    Bands(UnscaleReflective(b.b1), UnscaleReflective(b.b2), UnscaleReflective(b.b3),
          UnscaleReflective(b.b4), UnscaleReflective(b.b5), UnscaleReflective(b.b6),
          UnscaleReflective(b.b7), UnscaleThermal(b.st10))
  }

  /** Two band sets are valid and masked in the same bands. */
  predicate SameMask(a: Bands, b: Bands) {
    && (a.b1.Some? <==> b.b1.Some?) && (a.b2.Some? <==> b.b2.Some?)
    && (a.b3.Some? <==> b.b3.Some?) && (a.b4.Some? <==> b.b4.Some?)
    && (a.b5.Some? <==> b.b5.Some?) && (a.b6.Some? <==> b.b6.Some?)
    && (a.b7.Some? <==> b.b7.Some?) && (a.st10.Some? <==> b.st10.Some?)
  }

  /** The scaled image: every `SR_B*` band reflective-scaled, `ST_B10`
      thermal-scaled. Each band keeps its mask, and unscaling recovers every
      digital number. */
  function ScaleBands(b: Bands): (r: Bands)
    ensures SameMask(r, b)
    ensures UnscaleBands(r) == b
  {
    ReflectiveRoundTrip(b.b1); ReflectiveRoundTrip(b.b2); ReflectiveRoundTrip(b.b3);
    ReflectiveRoundTrip(b.b4); ReflectiveRoundTrip(b.b5); ReflectiveRoundTrip(b.b6);
    ReflectiveRoundTrip(b.b7); ThermalRoundTrip(b.st10);
    Bands(ScaleReflective(b.b1), ScaleReflective(b.b2), ScaleReflective(b.b3),
          ScaleReflective(b.b4), ScaleReflective(b.b5), ScaleReflective(b.b6),
          ScaleReflective(b.b7), ScaleThermal(b.st10))
  }

  /** Reflective scaling loses nothing: unscaling gives the digital number back,
      and scaling an unscaled reflectance gives the reflectance back. */
  lemma ReflectiveRoundTrip(v: Pixel)
    ensures UnscaleReflective(ScaleReflective(v)) == v
    ensures ScaleReflective(UnscaleReflective(v)) == v
  {
  }

  /** Thermal scaling loses nothing, in both directions. */
  lemma ThermalRoundTrip(v: Pixel)
    ensures UnscaleThermal(ScaleThermal(v)) == v
    ensures ScaleThermal(UnscaleThermal(v)) == v
  {
  }

  /** Both maps are strictly increasing: order of digital numbers is kept. */
  lemma ScalingStrictlyIncreasing(x: real, y: real)
    requires x < y
    ensures ScaleReflective(Some(x)).value < ScaleReflective(Some(y)).value
    ensures ScaleThermal(Some(x)).value < ScaleThermal(Some(y)).value
  {
  }

  /** Both maps are affine: a combination of two digital numbers whose weights sum to 1 is carried to the same combination. */
  lemma ScalingAffine(x: real, y: real, t: real)
    ensures ScaleReflective(Some(t * x + (1.0 - t) * y)).value
      == t * ScaleReflective(Some(x)).value + (1.0 - t) * ScaleReflective(Some(y)).value
    ensures ScaleThermal(Some(t * x + (1.0 - t) * y)).value
      == t * ScaleThermal(Some(x)).value + (1.0 - t) * ScaleThermal(Some(y)).value
  {
  }

  /** Scaling a fully masked pixel leaves every band masked. */
  lemma ScaleKeepsMask()
    ensures ScaleBands(MASKED_BANDS) == MASKED_BANDS
  {
  }
}
