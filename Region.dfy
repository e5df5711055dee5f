/** Region reductions over one band (`reduceRegion` with the `minMax` and
    `mean` reducers, and the population variance whose square root the
    `stdDev` reducer reports; that square root is an input) and the
    subtract-then-divide rescaling that the script applies with their results. Masked pixels are left out of every
    reduction: they are never counted as zero. */
module Region {
  import opened Raster

  /** The number of valid pixels, as the real the reducers divide by. */
  function Count(s: seq<Pixel>): (n: real)
    ensures n >= 0.0
    ensures n == 0.0 <==> AllMasked(s)
  {
    if |s| == 0 then 0.0 else (if s[0].Some? then 1.0 else 0.0) + Count(s[1..])
  }

  /** The sum of the valid pixels. */
  function Sum(s: seq<Pixel>): real {
    if |s| == 0 then 0.0 else (if s[0].Some? then s[0].value else 0.0) + Sum(s[1..])
  }

  /** The sum of squared deviations of the valid pixels from `c`. */
  function SumSqDev(s: seq<Pixel>, c: real): real {
    if |s| == 0 then 0.0
    else (if s[0].Some? then (s[0].value - c) * (s[0].value - c) else 0.0) + SumSqDev(s[1..], c)
  }

  /** The `mean` reducer: absent when no pixel is valid. */
  function Mean(s: seq<Pixel>): (m: Option<real>)
    ensures m.None? <==> AllMasked(s)
    ensures m.Some? ==> m.value * Count(s) == Sum(s)
  {
    if Count(s) == 0.0 then None else Some(Sum(s) / Count(s))
  }

  /** The population variance, the square of what the `stdDev` reducer returns. */
  function Variance(s: seq<Pixel>): (v: Option<real>)
    ensures v.None? <==> AllMasked(s)
    ensures v.Some? ==> v.value >= 0.0 && v.value * Count(s) == SumSqDev(s, Mean(s).value)
  {
    SumSqDevNonNegative(s, if Mean(s).Some? then Mean(s).value else 0.0);
    match Mean(s)
    case None => None
    case Some(m) => Some(SumSqDev(s, m) / Count(s))
  }

  lemma SumSqDevNonNegative(s: seq<Pixel>, c: real)
    ensures SumSqDev(s, c) >= 0.0
  {
    if |s| > 0 && s[0].Some? {
      var d := s[0].value - c;
      assert d * d >= 0.0 by {
        if d < 0.0 { assert d * d == (-d) * (-d); }
      }
    }
  }

  /** The `min` and `max` a `minMax` reducer reports. */
  datatype Range = Range(lo: real, hi: real)

  /** The `minMax` reducer: the least and greatest valid pixel, absent when
      no pixel is valid. */
  function MinMax(s: seq<Pixel>): (r: Option<Range>)
    ensures r.None? <==> AllMasked(s)
    ensures r.Some? ==> forall i :: 0 <= i < |s| && s[i].Some? ==> r.value.lo <= s[i].value <= r.value.hi
  {
    if |s| == 0 then None
    else
      var rest := MinMax(s[1..]);
      if s[0].None? then rest
      else if rest.None? then Some(Range(s[0].value, s[0].value))
      else
        var v := s[0].value;
        Some(Range(if v < rest.value.lo then v else rest.value.lo,
                   if v > rest.value.hi then v else rest.value.hi))
  }

  /** Both bounds `MinMax` reports are values some pixel actually holds. */
  lemma {:induction false} MinMaxAttained(s: seq<Pixel>)
    requires MinMax(s).Some?
    ensures Some(MinMax(s).value.lo) in s && Some(MinMax(s).value.hi) in s
  {
    assert |s| > 0;
    var rest := MinMax(s[1..]);
    if rest.Some? {
      MinMaxAttained(s[1..]);
      assert forall x :: x in s[1..] ==> x in s;
    }
  }

  /** The minimum and maximum are determined by the band: any pair of attained
      values that bound every valid pixel is the one `MinMax` reports. */
  lemma MinMaxUnique(s: seq<Pixel>, lo: real, hi: real)
    requires Some(lo) in s && Some(hi) in s
    requires forall i :: 0 <= i < |s| && s[i].Some? ==> lo <= s[i].value <= hi
    ensures MinMax(s) == Some(Range(lo, hi))
  {
    var c :| 0 <= c < |s| && s[c] == Some(lo);
    var d :| 0 <= d < |s| && s[d] == Some(hi);
    assert !AllMasked(s);
    MinMaxAttained(s);
    var r := MinMax(s).value;
    var a :| 0 <= a < |s| && s[a] == Some(r.lo);
    var b :| 0 <= b < |s| && s[b] == Some(r.hi);
  }

  /** `subtract(offset).divide(divisor)` on one pixel. */
  function RescaleValue(p: Pixel, offset: real, divisor: real): Pixel {
    Div(Sub(p, Some(offset)), Some(divisor))
  }

  /** `subtract(offset).divide(divisor)` on every pixel of a band. */
  function Rescale(s: seq<Pixel>, offset: real, divisor: real): (r: seq<Pixel>)
    ensures |r| == |s|
    ensures forall i :: 0 <= i < |s| ==> r[i] == RescaleValue(s[i], offset, divisor)
    ensures divisor != 0.0 ==> forall i :: 0 <= i < |s| ==> (r[i].Some? <==> s[i].Some?)
    ensures divisor == 0.0 ==> AllMasked(r)
    ensures forall i :: 0 <= i < |s| && r[i].Some? ==> r[i].value * divisor == s[i].value - offset
  {
    seq(|s|, i requires 0 <= i < |s| => RescaleValue(s[i], offset, divisor))
  }

  /** With a non-zero divisor, rescaling masks exactly the pixels that were masked. */
  lemma RescaleKeepsMask(s: seq<Pixel>, offset: real, divisor: real)
    requires divisor != 0.0
    ensures forall i :: 0 <= i < |s| ==> (Rescale(s, offset, divisor)[i].Some? <==> s[i].Some?)
    ensures Count(Rescale(s, offset, divisor)) == Count(s)
  {
    CountPointwise(s, Rescale(s, offset, divisor));
  }

  /** A zero divisor masks every pixel. */
  lemma RescaleByZeroMasksAll(s: seq<Pixel>, offset: real)
    ensures AllMasked(Rescale(s, offset, 0.0))
  {
  }

  /** Two bands with the same mask have the same number of valid pixels. */
  lemma {:induction false} CountPointwise(s: seq<Pixel>, t: seq<Pixel>)
    requires |s| == |t|
    requires forall i :: 0 <= i < |s| ==> (s[i].Some? <==> t[i].Some?)
    ensures Count(s) == Count(t)
  {
    if |s| > 0 {
      CountPointwise(s[1..], t[1..]);
    }
  }

  /** Rescaling is linear on sums: the valid rescaled pixels add up to
      the valid pixels' sum, less `offset` once per valid pixel, divided by `divisor`. */
  lemma RescaleSum(s: seq<Pixel>, offset: real, divisor: real)
    requires divisor != 0.0
    ensures SumRelation(Sum(Rescale(s, offset, divisor)), divisor, Sum(s), Count(s), offset)
  {
    SumOfRescaled(s, Rescale(s, offset, divisor), offset, divisor);
  }

  lemma {:induction false} SumOfRescaled(s: seq<Pixel>, r: seq<Pixel>, offset: real, divisor: real)
    requires divisor != 0.0 && |r| == |s|
    requires forall i :: 0 <= i < |s| ==> r[i] == RescaleValue(s[i], offset, divisor)
    ensures SumRelation(Sum(r), divisor, Sum(s), Count(s), offset)
  {
    if |s| > 0 {
      SumOfRescaled(s[1..], r[1..], offset, divisor);
      if s[0].Some? {
        var x := s[0].value;
        var y := (x - offset) / divisor;
        DivTimes(x - offset, divisor);
        assert r[0] == Some(y);
        assert Sum(r) == y + Sum(r[1..]);
        assert Sum(s) == x + Sum(s[1..]);
        assert Count(s) == Count(s[1..]) + 1.0;
        assert y * divisor == x - offset;
        SumStep(Sum(r), y, Sum(r[1..]), divisor, Sum(s), x, Sum(s[1..]), Count(s), Count(s[1..]), offset);
      } else {
        assert Sum(r) == Sum(r[1..]);
        assert Sum(s) == Sum(s[1..]);
        assert Count(s) == Count(s[1..]);
        SumSkip(Sum(r), Sum(r[1..]), divisor, Sum(s), Sum(s[1..]), Count(s), Count(s[1..]), offset);
      }
    } else {
      assert Sum(r) == 0.0 && Sum(s) == 0.0 && Count(s) == 0.0;
      ZeroProducts(Sum(r), divisor, Sum(s), Count(s), offset);
    }
  }

  lemma ZeroProducts(total: real, d: real, sTotal: real, cnt: real, offset: real)
    requires total == 0.0 && sTotal == 0.0 && cnt == 0.0
    ensures SumRelation(total, d, sTotal, cnt, offset)
  {
  }

  /** `total` times `d` is `sTotal` less `cnt` copies of `offset`. */
  predicate SumRelation(total: real, d: real, sTotal: real, cnt: real, offset: real) {
    total * d == sTotal - cnt * offset
  }

  /** Cancelling a non-zero factor. */
  lemma Cancel(a: real, b: real, k: real)
    requires k != 0.0
    requires a * k == b * k
    ensures a == b
  {
    assert (a - b) * k == 0.0;
  }

  lemma DivTimes(a: real, d: real)
    requires d != 0.0
    ensures (a / d) * d == a
  {
  }

  lemma SumSkip(total: real, rest: real, d: real,
                sTotal: real, restSum: real, cnt: real, n: real, offset: real)
    requires total == rest && sTotal == restSum && cnt == n
    requires SumRelation(rest, d, restSum, n, offset)
    ensures SumRelation(total, d, sTotal, cnt, offset)
  {
  }

  lemma SumStep(total: real, y: real, rest: real, d: real,
                sTotal: real, x: real, restSum: real, cnt: real, n: real, offset: real)
    requires total == y + rest && sTotal == x + restSum && cnt == n + 1.0
    requires y * d == x - offset
    requires SumRelation(rest, d, restSum, n, offset)
    ensures SumRelation(total, d, sTotal, cnt, offset)
  {
    assert (y + rest) * d == y * d + rest * d;
  }

  /** Rescaling divides squared deviations: the valid rescaled pixels' sum of
      squares, times `divisor` squared, is the valid pixels' sum of squared
      deviations from `offset`. */
  lemma RescaleSumSq(s: seq<Pixel>, offset: real, divisor: real)
    requires divisor != 0.0
    ensures SquareRelation(SumSqDev(Rescale(s, offset, divisor), 0.0), divisor, SumSqDev(s, offset))
  {
    SumSqOfRescaled(s, Rescale(s, offset, divisor), offset, divisor);
  }

  lemma {:induction false} SumSqOfRescaled(s: seq<Pixel>, r: seq<Pixel>, offset: real, divisor: real)
    requires divisor != 0.0 && |r| == |s|
    requires forall i :: 0 <= i < |s| ==> r[i] == RescaleValue(s[i], offset, divisor)
    ensures SquareRelation(SumSqDev(r, 0.0), divisor, SumSqDev(s, offset))
  {
    if |s| > 0 {
      SumSqOfRescaled(s[1..], r[1..], offset, divisor);
      if s[0].Some? {
        var x := s[0].value;
        var y := (x - offset) / divisor;
        DivTimes(x - offset, divisor);
        SquareStep(SumSqDev(r, 0.0), y, SumSqDev(r[1..], 0.0), divisor, SumSqDev(s, offset), x - offset, SumSqDev(s[1..], offset));
      } else {
        SquareSkip(SumSqDev(r, 0.0), SumSqDev(r[1..], 0.0), divisor, SumSqDev(s, offset), SumSqDev(s[1..], offset));
      }
    }
  }

  /** `total` times `d` squared is `sTotal`. */
  predicate SquareRelation(total: real, d: real, sTotal: real) {
    total * (d * d) == sTotal
  }

  lemma SquareSkip(total: real, rest: real, d: real, sTotal: real, restSq: real)
    requires total == rest && sTotal == restSq
    requires SquareRelation(rest, d, restSq)
    ensures SquareRelation(total, d, sTotal)
  {
  }

  lemma SquareStep(total: real, y: real, rest: real, d: real, sTotal: real, dev: real, restSq: real)
    requires total == (y - 0.0) * (y - 0.0) + rest && sTotal == dev * dev + restSq
    requires y * d == dev
    requires SquareRelation(rest, d, restSq)
    ensures SquareRelation(total, d, sTotal)
  {
    assert (y - 0.0) * (y - 0.0) * (d * d) == (y * d) * (y * d);
    assert total * (d * d) == (y - 0.0) * (y - 0.0) * (d * d) + rest * (d * d);
  }

  /** A positive divisor keeps the order of the valid pixels, strictly. */
  lemma RescaleMonotone(s: seq<Pixel>, offset: real, divisor: real, i: nat, j: nat)
    requires divisor > 0.0
    requires i < |s| && j < |s| && s[i].Some? && s[j].Some?
    ensures s[i].value <= s[j].value ==> Rescale(s, offset, divisor)[i].value <= Rescale(s, offset, divisor)[j].value
    ensures s[i].value < s[j].value ==> Rescale(s, offset, divisor)[i].value < Rescale(s, offset, divisor)[j].value
  {
    var x, y := s[i].value - offset, s[j].value - offset;
    if x <= y {
      DivMonotone(x, y, divisor);
    }
    if x < y {
      DivMonotone(x, y, divisor);
    }
  }

  lemma DivMonotone(x: real, y: real, d: real)
    requires d > 0.0 && x <= y
    ensures x / d <= y / d
    ensures x < y ==> x / d < y / d
  {
    assert y / d - x / d == (y - x) / d;
  }

  /** Min-max rescaling of one value lying between the bounds (the upper
      above the lower) gives a value in [0, 1]; the lower bound goes to 0,
      the upper to 1. */
  lemma RescaleIntoUnit(v: real, lo: real, hi: real)
    requires lo <= v <= hi && lo < hi
    ensures RescaleValue(Some(v), lo, hi - lo).Some?
    ensures 0.0 <= RescaleValue(Some(v), lo, hi - lo).value <= 1.0
    ensures v == lo ==> RescaleValue(Some(v), lo, hi - lo) == Some(0.0)
    ensures v == hi ==> RescaleValue(Some(v), lo, hi - lo) == Some(1.0)
  {
    UnitInterval(v - lo, hi - lo);
    if v == hi {
      DivSelf(hi - lo);
    }
  }

  lemma DivSelf(d: real)
    requires d != 0.0
    ensures d / d == 1.0
  {
  }

  /** Min-max rescaling with the band's own minimum and maximum (and
      maximum above minimum) puts every valid pixel in [0, 1], sends the
      minimum to 0 and the maximum to 1. */
  lemma MinMaxRescaleRange(s: seq<Pixel>, lo: real, hi: real)
    requires MinMax(s) == Some(Range(lo, hi)) && hi > lo
    ensures forall i :: 0 <= i < |s| && s[i].Some? ==>
      Rescale(s, lo, hi - lo)[i].Some? && 0.0 <= Rescale(s, lo, hi - lo)[i].value <= 1.0
    ensures forall i :: 0 <= i < |s| && s[i] == Some(lo) ==> Rescale(s, lo, hi - lo)[i] == Some(0.0)
    ensures forall i :: 0 <= i < |s| && s[i] == Some(hi) ==> Rescale(s, lo, hi - lo)[i] == Some(1.0)
  {
    BoundedRescaleRange(s, lo, hi);
  }

  lemma BoundedRescaleRange(s: seq<Pixel>, lo: real, hi: real)
    requires hi > lo
    requires forall i :: 0 <= i < |s| && s[i].Some? ==> lo <= s[i].value <= hi
    ensures forall i :: 0 <= i < |s| && s[i].Some? ==>
      Rescale(s, lo, hi - lo)[i].Some? && 0.0 <= Rescale(s, lo, hi - lo)[i].value <= 1.0
    ensures forall i :: 0 <= i < |s| && s[i] == Some(lo) ==> Rescale(s, lo, hi - lo)[i] == Some(0.0)
    ensures forall i :: 0 <= i < |s| && s[i] == Some(hi) ==> Rescale(s, lo, hi - lo)[i] == Some(1.0)
  {
    var r := Rescale(s, lo, hi - lo);
    forall i | 0 <= i < |s| && s[i].Some?
      ensures r[i].Some? && 0.0 <= r[i].value <= 1.0
      ensures s[i] == Some(lo) ==> r[i] == Some(0.0)
      ensures s[i] == Some(hi) ==> r[i] == Some(1.0)
    {
      RescaleIntoUnit(s[i].value, lo, hi);
    }
  }

  lemma UnitInterval(x: real, d: real)
    requires d > 0.0 && 0.0 <= x <= d
    ensures 0.0 <= x / d <= 1.0
  {
    DivMonotone(x, d, d);
    DivMonotone(0.0, x, d);
  }
}
