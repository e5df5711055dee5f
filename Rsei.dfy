/** The final min-max normalisation of the clamped first principal component
    into the Remote Sensing Ecological Index. Despite the heading comment
    announcing [-1, +1], the script divides each value's distance from the minimum by the
    width of the range, so the result lies in [0, 1]; this module follows the computation. */
module Rsei {
  import opened Raster
  import opened Region

  /** Min-max normalisation of the first component, with the region
      statistics read under `pc1_min` and `pc1_max`: they exist only when the
      band is named `pc1` and has a valid pixel. A region whose valid pixels
      all hold one value has `max - min == 0`, and every pixel is masked. */
  function Normalize(pc1: Band): (r: Result<seq<Pixel>>)
    ensures r.Success? <==> pc1.name == "pc1" && !AllMasked(pc1.pixels)
    ensures r.Failure? ==> r.error == MissingStatistic("pc1_min")
    ensures r.Success? ==> |r.value| == |pc1.pixels|
  {
    if pc1.name != "pc1" then Failure(MissingStatistic("pc1_min"))
    else
      match MinMax(pc1.pixels)
      case None => Failure(MissingStatistic("pc1_min"))
      case Some(range) => Success(Rescale(pc1.pixels, range.lo, range.hi - range.lo))
  }

  /** Where the first component varies over the region (its minimum `lo`
      is below its maximum `hi`), every valid pixel gets an index in [0, 1],
      masked pixels stay masked, and the pixels holding the minimum and the
      maximum get exactly 0 and 1. */
  lemma NormalizeRange(pc1: Band, lo: real, hi: real)
    requires pc1.name == "pc1" && MinMax(pc1.pixels) == Some(Range(lo, hi)) && lo < hi
    ensures var r := Normalize(pc1).value;
      && (forall i :: 0 <= i < |r| ==> (r[i].Some? <==> pc1.pixels[i].Some?))
      && (forall i :: 0 <= i < |r| && r[i].Some? ==> 0.0 <= r[i].value <= 1.0)
      && (forall i :: 0 <= i < |r| && pc1.pixels[i] == Some(lo) ==> r[i] == Some(0.0))
      && (forall i :: 0 <= i < |r| && pc1.pixels[i] == Some(hi) ==> r[i] == Some(1.0))
  {
    var r := Rescale(pc1.pixels, lo, hi - lo);
    assert Normalize(pc1).value == r;
    RescaledBandRange(pc1.pixels, lo, hi, r);
  }

  lemma RescaledBandRange(s: seq<Pixel>, lo: real, hi: real, r: seq<Pixel>)
    requires lo < hi
    requires forall i :: 0 <= i < |s| && s[i].Some? ==> lo <= s[i].value <= hi
    requires r == Rescale(s, lo, hi - lo)
    ensures && (forall i :: 0 <= i < |r| ==> (r[i].Some? <==> s[i].Some?))
            && (forall i :: 0 <= i < |r| && r[i].Some? ==> 0.0 <= r[i].value <= 1.0)
            && (forall i :: 0 <= i < |r| && s[i] == Some(lo) ==> r[i] == Some(0.0))
            && (forall i :: 0 <= i < |r| && s[i] == Some(hi) ==> r[i] == Some(1.0))
  {
    RescaleKeepsMask(s, lo, hi - lo);
    BoundedRescaleRange(s, lo, hi);
  }

  /** Both ends of [0, 1] are reached: some pixel gets 0 and some pixel gets 1. */
  lemma NormalizeAttainsEnds(pc1: Band, lo: real, hi: real)
    requires pc1.name == "pc1" && MinMax(pc1.pixels) == Some(Range(lo, hi)) && lo < hi
    ensures Some(0.0) in Normalize(pc1).value && Some(1.0) in Normalize(pc1).value
  {
    var r := Normalize(pc1).value;
    MinMaxAttained(pc1.pixels);
    NormalizeRange(pc1, lo, hi);
    var a :| 0 <= a < |pc1.pixels| && pc1.pixels[a] == Some(lo);
    var b :| 0 <= b < |pc1.pixels| && pc1.pixels[b] == Some(hi);
    assert r[a] == Some(0.0) && r[b] == Some(1.0);
  }

  /** Normalisation keeps the order of pixels, strictly and weakly. */
  lemma NormalizeMonotone(pc1: Band, lo: real, hi: real, i: nat, j: nat)
    requires pc1.name == "pc1" && MinMax(pc1.pixels) == Some(Range(lo, hi)) && lo < hi
    requires i < |pc1.pixels| && j < |pc1.pixels| && pc1.pixels[i].Some? && pc1.pixels[j].Some?
    ensures pc1.pixels[i].value <= pc1.pixels[j].value ==>
      Normalize(pc1).value[i].value <= Normalize(pc1).value[j].value
    ensures pc1.pixels[i].value < pc1.pixels[j].value ==>
      Normalize(pc1).value[i].value < Normalize(pc1).value[j].value
  {
    var r := Rescale(pc1.pixels, lo, hi - lo);
    assert Normalize(pc1).value == r;
    RescaleMonotone(pc1.pixels, lo, hi - lo, i, j);
  }

  /** A first component that is constant over the region masks the whole index. */
  lemma NormalizeConstant(pc1: Band, v: real)
    requires pc1.name == "pc1" && MinMax(pc1.pixels) == Some(Range(v, v))
    ensures Normalize(pc1).Success? && AllMasked(Normalize(pc1).value)
  {
    RescaleByZeroMasksAll(pc1.pixels, v);
  }

  /** Normalising an index that is already normalised changes nothing. */
  lemma NormalizeIdempotent(pc1: Band, lo: real, hi: real)
    requires pc1.name == "pc1" && MinMax(pc1.pixels) == Some(Range(lo, hi)) && lo < hi
    ensures Normalize(Band("pc1", Normalize(pc1).value)) == Normalize(pc1)
  {
    var r := Normalize(pc1).value;
    NormalizeAttainsEnds(pc1, lo, hi);
    NormalizeRange(pc1, lo, hi);
    MinMaxUnique(r, 0.0, 1.0);
    RescaleByOneFromZero(r);
  }

  /** Rescaling by offset 0 and divisor 1 is the identity. */
  lemma RescaleByOneFromZero(s: seq<Pixel>)
    ensures Rescale(s, 0.0, 1.0) == s
  {
    var r := Rescale(s, 0.0, 1.0);
    assert forall i :: 0 <= i < |s| ==> r[i] == s[i];
  }
}
