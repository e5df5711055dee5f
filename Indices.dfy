/** The per-pixel indicator formulas of the script: NDVI, NDBSI, the
    tasselled-cap Wetness, and the vegetation fraction / emissivity chain
    that guards the land-surface-temperature formula. */
module Indices {
  import opened Raster
  import opened Region

  /** `normalizedDifference([a, b])`: `(a - b) / (a + b)`. A masked operand or
      a zero sum gives a masked pixel. */
  function NormalizedDifference(a: Pixel, b: Pixel): (r: Pixel)
    ensures r.Some? <==> a.Some? && b.Some? && a.value + b.value != 0.0
  {
    Div(Sub(a, b), Add(a, b))
  }

  /** NDVI from the near-infrared `SR_B5` and the red `SR_B4`. */
  function Ndvi(b: Bands): (r: Pixel)
    ensures r.Some? <==> b.b5.Some? && b.b4.Some? && b.b5.value + b.b4.value != 0.0
  {
    NormalizedDifference(b.b5, b.b4)
  }

  /** NDBSI: the normalised difference of red plus short-wave infrared 1
      (`SR_B4`, `SR_B6`) against near-infrared plus blue (`SR_B5`, `SR_B2`). */
  function Ndbsi(b: Bands): (r: Pixel)
    ensures r.Some? <==> b.b4.Some? && b.b6.Some? && b.b5.Some? && b.b2.Some?
                         && (b.b4.value + b.b6.value) + (b.b5.value + b.b2.value) != 0.0
  {
    NormalizedDifference(Add(b.b4, b.b6), Add(b.b5, b.b2))
  }

  /** A normalised difference of two values lies in [-1, 1] exactly when the
      two values do not have strictly opposite signs. */
  lemma NormalizedDifferenceRangeIff(x: real, y: real)
    requires x + y != 0.0
    ensures var r := NormalizedDifference(Some(x), Some(y)).value;
      -1.0 <= r <= 1.0 <==> (x >= 0.0 && y >= 0.0) || (x <= 0.0 && y <= 0.0)
  {
    var s := x + y;
    var r := (x - y) / s;
    DivTimes(x - y, s);
    if s > 0.0 {
      ScaledBound(r, s, x, y);
    } else {
      assert r * (-s) == (-x) - (-y);
      ScaledBound(r, -s, -x, -y);
    }
  }

  /** With `r * s == x - y` and `s == x + y > 0`: `r` is within [-1, 1] iff both
      `x` and `y` are non-negative. */
  lemma ScaledBound(r: real, s: real, x: real, y: real)
    requires s > 0.0 && s == x + y && r * s == x - y
    ensures (-1.0 <= r <= 1.0) <==> x >= 0.0 && y >= 0.0
  {
    if -1.0 <= r <= 1.0 {
      ProductWithin(r, s);
    }
    if x >= 0.0 && y >= 0.0 {
      FactorWithin(r, s);
    }
  }

  lemma ProductWithin(r: real, s: real)
    requires s > 0.0 && -1.0 <= r <= 1.0
    ensures -s <= r * s <= s
  {
    assert r * s <= 1.0 * s;
    assert (-1.0) * s <= r * s;
  }

  lemma FactorWithin(r: real, s: real)
    requires s > 0.0 && -s <= r * s <= s
    ensures -1.0 <= r <= 1.0
  {
  }

  /** Non-negative reflectances with a positive sum give an index in [-1, 1]. */
  lemma NormalizedDifferenceBounded(x: real, y: real)
    requires x >= 0.0 && y >= 0.0 && x + y > 0.0
    ensures NormalizedDifference(Some(x), Some(y)).Some?
    ensures -1.0 <= NormalizedDifference(Some(x), Some(y)).value <= 1.0
  {
    NormalizedDifferenceRangeIff(x, y);
  }

  /** Swapping the operands negates the index and keeps the mask. */
  lemma NormalizedDifferenceAntisymmetric(a: Pixel, b: Pixel)
    ensures NormalizedDifference(b, a).Some? <==> NormalizedDifference(a, b).Some?
    ensures NormalizedDifference(a, b).Some? ==>
      NormalizedDifference(b, a).value == -NormalizedDifference(a, b).value
  {
    if a.Some? && b.Some? && a.value + b.value != 0.0 {
      NegatedQuotient(a.value - b.value, a.value + b.value);
    }
  }

  lemma NegatedQuotient(n: real, d: real)
    requires d != 0.0
    ensures (-n) / d == -(n / d)
  {
    DivTimes(n, d);
    DivTimes(-n, d);
    Cancel((-n) / d, -(n / d), d);
  }

  /** The index and the sum of the two bands determine both bands:
      `x == s * (1 + r) / 2` and `y == s * (1 - r) / 2`. */
  lemma NormalizedDifferenceRecovers(x: real, y: real)
    requires x + y != 0.0
    ensures var s := x + y;
      var r := NormalizedDifference(Some(x), Some(y)).value;
      x == (s + r * s) / 2.0 && y == (s - r * s) / 2.0
  {
    DivTimes(x - y, x + y);
  }

  /** The `SR_B2`..`SR_B7` weights of the Wetness expression, in band order. */
  const WETNESS_COEFFICIENTS: seq<real> := [0.1511, 0.1973, 0.3283, 0.3407, -0.7117, -0.4559]

  /** The Wetness expression, term by term as the script writes it:
      `0.1511*B2 + 0.1973*B3 + 0.3283*B4 + 0.3407*B5 - 0.7117*B6 - 0.4559*B7`. */
  function Wetness(b: Bands): (r: Pixel)
    ensures r.Some? <==> b.b2.Some? && b.b3.Some? && b.b4.Some? && b.b5.Some? && b.b6.Some? && b.b7.Some?
  {
    Sub(Sub(Add(Add(Add(Mul(b.b2, 0.1511), Mul(b.b3, 0.1973)), Mul(b.b4, 0.3283)), Mul(b.b5, 0.3407)),
            Mul(b.b6, 0.7117)),
        Mul(b.b7, 0.4559))
  }

  /** The weighted sum `w[0]*v[0] + w[1]*v[1] + ...`. */
  function WeightedSum(w: seq<real>, v: seq<real>): real
    requires |w| == |v|
  {
    if |w| == 0 then 0.0 else w[0] * v[0] + WeightedSum(w[1..], v[1..])
  }

  /** Wetness is the dot product of the coefficient vector with the six
      reflective bands `SR_B2`..`SR_B7`. */
  lemma WetnessIsWeightedSum(b: Bands)
    requires b.b2.Some? && b.b3.Some? && b.b4.Some? && b.b5.Some? && b.b6.Some? && b.b7.Some?
    ensures Wetness(b) == Some(WeightedSum(WETNESS_COEFFICIENTS,
      [b.b2.value, b.b3.value, b.b4.value, b.b5.value, b.b6.value, b.b7.value]))
  {
    var v := [b.b2.value, b.b3.value, b.b4.value, b.b5.value, b.b6.value, b.b7.value];
    var w := WETNESS_COEFFICIENTS;
    assert WeightedSum(w[5..], v[5..]) == w[5] * v[5];
    assert WeightedSum(w[4..], v[4..]) == w[4] * v[4] + WeightedSum(w[5..], v[5..]);
    assert WeightedSum(w[3..], v[3..]) == w[3] * v[3] + WeightedSum(w[4..], v[4..]);
    assert WeightedSum(w[2..], v[2..]) == w[2] * v[2] + WeightedSum(w[3..], v[3..]);
    assert WeightedSum(w[1..], v[1..]) == w[1] * v[1] + WeightedSum(w[2..], v[2..]);
  }

  /** The sum of the Wetness weights. */
  const WETNESS_WEIGHT_SUM: real := -0.1502

  /** Wetness is affine in the bands: shifting every band by `c` shifts the
      index by `c` times the sum of the weights. */
  lemma WetnessShift(b: Bands, c: real)
    requires b.b2.Some? && b.b3.Some? && b.b4.Some? && b.b5.Some? && b.b6.Some? && b.b7.Some?
    ensures var shifted := Bands(b.b1, AddConst(b.b2, c), AddConst(b.b3, c), AddConst(b.b4, c),
                                 AddConst(b.b5, c), AddConst(b.b6, c), AddConst(b.b7, c), b.st10);
      Wetness(shifted).value == Wetness(b).value + c * WETNESS_WEIGHT_SUM
  {
  }

  // The vegetation fraction and emissivity chain.

  const EMISSIVITY_SLOPE: real := 0.004
  const EMISSIVITY_BASE: real := 0.986
  /** `em.max(0.001)`: the floor that keeps the logarithm of the LST formula finite. */
  const EMISSIVITY_FLOOR: real := 0.001

  /** The vegetation fraction at one pixel: the NDVI min-max rescaled over the
      region's range [lo, hi], then squared. */
  function Fv(p: Pixel, lo: real, hi: real): (r: Pixel)
    ensures r.Some? <==> p.Some? && hi != lo
    ensures r.Some? ==> r.value >= 0.0
  {
    SquareNonNegative(RescaleValue(p, lo, hi - lo));
    Square(RescaleValue(p, lo, hi - lo))
  }

  lemma SquareNonNegative(p: Pixel)
    ensures Square(p).Some? ==> Square(p).value >= 0.0
  {
    if p.Some? && p.value < 0.0 {
      assert p.value * p.value == (-p.value) * (-p.value);
    }
  }

  /** Emissivity at one pixel: affine in the vegetation fraction. */
  function Emissivity(fv: Pixel): (r: Pixel)
    ensures r.Some? <==> fv.Some?
  {
    AddConst(Mul(fv, EMISSIVITY_SLOPE), EMISSIVITY_BASE)
  }

  /** `em.max(0.001)` at one pixel. */
  function FlooredEmissivity(em: Pixel): (r: Pixel)
    ensures r.Some? <==> em.Some?
    ensures r.Some? ==> r.value >= EMISSIVITY_FLOOR && r.value >= em.value
    ensures r.Some? && em.value >= EMISSIVITY_FLOOR ==> r == em
  {
    MaxConst(em, EMISSIVITY_FLOOR)
  }

  /** An NDVI value inside its region range gives a vegetation fraction in
      [0, 1]: 0 at the minimum and 1 at the maximum. */
  lemma FvInUnitInterval(v: real, lo: real, hi: real)
    requires lo <= v <= hi && lo < hi
    ensures Fv(Some(v), lo, hi).Some?
    ensures 0.0 <= Fv(Some(v), lo, hi).value <= 1.0
    ensures v == lo ==> Fv(Some(v), lo, hi) == Some(0.0)
    ensures v == hi ==> Fv(Some(v), lo, hi) == Some(1.0)
  {
    RescaleIntoUnit(v, lo, hi);
    SquareAtMostOne(RescaleValue(Some(v), lo, hi - lo).value);
  }

  lemma SquareAtMostOne(x: real)
    requires 0.0 <= x <= 1.0
    ensures x * x <= 1.0
  {
    assert x * x <= x * 1.0;
  }

  /** Inside the region range, a larger NDVI never gives a smaller vegetation fraction. */
  lemma FvMonotone(v: real, w: real, lo: real, hi: real)
    requires lo <= v <= w <= hi && lo < hi
    ensures Fv(Some(v), lo, hi).value <= Fv(Some(w), lo, hi).value
  {
    DivMonotone(v - lo, w - lo, hi - lo);
    RescaleIntoUnit(v, lo, hi);
    SquareMonotone((v - lo) / (hi - lo), (w - lo) / (hi - lo));
  }

  lemma SquareMonotone(x: real, y: real)
    requires 0.0 <= x <= y
    ensures x * x <= y * y
  {
    assert x * x <= x * y;
    assert x * y <= y * y;
  }

  /** A vegetation fraction in [0, 1] gives an emissivity in [0.986, 0.990],
      on which the 0.001 floor has no effect. */
  lemma EmissivityRange(fv: real)
    requires 0.0 <= fv <= 1.0
    ensures 0.986 <= Emissivity(Some(fv)).value <= 0.990
    ensures FlooredEmissivity(Emissivity(Some(fv))) == Emissivity(Some(fv))
  {
  }

  /** The floor is reached only by emissivities below it, i.e. only by a
      vegetation fraction below -246.25, which `Fv` never yields. */
  lemma FloorOnlyBelowVegetationFraction(fv: real)
    ensures FlooredEmissivity(Emissivity(Some(fv))) != Emissivity(Some(fv)) <==> fv < -246.25
  {
  }

  /** The floor is never active on a vegetation fraction computed by `Fv`. */
  lemma FloorNeverActive(p: Pixel, lo: real, hi: real)
    ensures FlooredEmissivity(Emissivity(Fv(p, lo, hi))) == Emissivity(Fv(p, lo, hi))
  {
  }

  /** The band-level vegetation fraction: the NDVI band rescaled by its region
      minimum and maximum (read under `NDVI_min` and `NDVI_max`) and squared. */
  function VegetationFraction(ndvi: Band): (r: Result<seq<Pixel>>)
    ensures r.Success? <==> ndvi.name == "NDVI" && !AllMasked(ndvi.pixels)
    ensures r.Failure? ==> r.error == MissingStatistic("NDVI_min")
    ensures r.Success? ==> |r.value| == |ndvi.pixels|
  {
    if ndvi.name != "NDVI" then Failure(MissingStatistic("NDVI_min"))
    else
      match MinMax(ndvi.pixels)
      case None => Failure(MissingStatistic("NDVI_min"))
      case Some(range) => Success(FvPixels(ndvi.pixels, range.lo, range.hi))
  }

  function FvPixels(s: seq<Pixel>, lo: real, hi: real): (r: seq<Pixel>)
    ensures |r| == |s| && forall i :: 0 <= i < |s| ==> r[i] == Fv(s[i], lo, hi)
  {
    seq(|s|, i requires 0 <= i < |s| => Fv(s[i], lo, hi))
  }

  function EmissivityPixels(fv: seq<Pixel>): (r: seq<Pixel>)
    ensures |r| == |fv| && forall i :: 0 <= i < |fv| ==> r[i] == FlooredEmissivity(Emissivity(fv[i]))
  {
    seq(|fv|, i requires 0 <= i < |fv| => FlooredEmissivity(Emissivity(fv[i])))
  }

  /** The emissivity band handed to the LST expression, floor included. */
  function LstEmissivity(ndvi: Band): (r: Result<seq<Pixel>>)
    ensures r.Success? <==> ndvi.name == "NDVI" && !AllMasked(ndvi.pixels)
    ensures r.Success? ==> |r.value| == |ndvi.pixels|
  {
    var fv :- VegetationFraction(ndvi);
    Success(EmissivityPixels(fv))
  }

  /** Over a region with a spread of NDVI values, every valid pixel gets an
      emissivity in [0.986, 0.990] and every masked pixel stays masked. */
  lemma LstEmissivityRange(ndvi: Band)
    requires ndvi.name == "NDVI"
    requires MinMax(ndvi.pixels).Some? && MinMax(ndvi.pixels).value.lo < MinMax(ndvi.pixels).value.hi
    ensures var em := LstEmissivity(ndvi).value;
      forall i :: 0 <= i < |ndvi.pixels| ==>
        (em[i].Some? <==> ndvi.pixels[i].Some?)
        && (em[i].Some? ==> 0.986 <= em[i].value <= 0.990)
  {
    var range := MinMax(ndvi.pixels).value;
    var em := EmissivityPixels(FvPixels(ndvi.pixels, range.lo, range.hi));
    assert LstEmissivity(ndvi).value == em;
    BoundedEmissivityRange(ndvi.pixels, range.lo, range.hi, em);
  }

  lemma BoundedEmissivityRange(s: seq<Pixel>, lo: real, hi: real, em: seq<Pixel>)
    requires lo < hi
    requires forall i :: 0 <= i < |s| && s[i].Some? ==> lo <= s[i].value <= hi
    requires em == EmissivityPixels(FvPixels(s, lo, hi))
    ensures forall i :: 0 <= i < |s| ==>
      (em[i].Some? <==> s[i].Some?) && (em[i].Some? ==> 0.986 <= em[i].value <= 0.990)
  {
    forall i | 0 <= i < |s|
      ensures (em[i].Some? <==> s[i].Some?) && (em[i].Some? ==> 0.986 <= em[i].value <= 0.990)
    {
      if s[i].Some? {
        FvInUnitInterval(s[i].value, lo, hi);
        EmissivityRange(Fv(s[i], lo, hi).value);
      }
    }
  }

  /** A masked band pixel gives a masked index in every formula. */
  lemma MaskedPixelMasksIndices(lo: real, hi: real)
    ensures Ndvi(MASKED_BANDS).None? && Ndbsi(MASKED_BANDS).None? && Wetness(MASKED_BANDS).None?
    ensures FlooredEmissivity(Emissivity(Fv(Ndvi(MASKED_BANDS), lo, hi))).None?
  {
  }
}
