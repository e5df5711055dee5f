/** `standardize` and the stacking of the four indicator bands that feed the
    principal component analysis. */
module Standardization {
  import opened Raster
  import opened Region

  /** `standardize(band, bandName)`: subtract the region mean and divide by the
      region standard deviation `stdDev` (what the `stdDev` reducer reports for
      the band). The statistics are read under the keys `bandName + '_mean'` and
      `bandName + '_stdDev'`, so they exist only when the band carries that
      name and has a valid pixel in the region; the result is named
      `bandName + '_std'`. */
  function Standardize(band: Band, bandName: string, stdDev: real): (r: Result<Band>)
    ensures r.Success? <==> band.name == bandName && !AllMasked(band.pixels)
    ensures r.Failure? ==> r.error == MissingStatistic(bandName + "_mean")
    ensures r.Success? ==> r.value.name == bandName + "_std" && |r.value.pixels| == |band.pixels|
  {
    if band.name != bandName then Failure(MissingStatistic(bandName + "_mean"))
    else
      match Mean(band.pixels)
      case None => Failure(MissingStatistic(bandName + "_mean"))
      case Some(mean) => Success(Band(bandName + "_std", Rescale(band.pixels, mean, stdDev)))
  }

  /** With a non-zero standard deviation, exactly the masked pixels stay masked. */
  lemma StandardizeKeepsMask(band: Band, bandName: string, stdDev: real)
    requires stdDev != 0.0 && Standardize(band, bandName, stdDev).Success?
    ensures var r := Standardize(band, bandName, stdDev).value.pixels;
      forall i :: 0 <= i < |r| ==> (r[i].Some? <==> band.pixels[i].Some?)
  {
    RescaleKeepsMask(band.pixels, Mean(band.pixels).value, stdDev);
  }

  /** A zero standard deviation masks the whole standardised band. */
  lemma StandardizeDegenerate(band: Band, bandName: string)
    requires Standardize(band, bandName, 0.0).Success?
    ensures AllMasked(Standardize(band, bandName, 0.0).value.pixels)
  {
    RescaleByZeroMasksAll(band.pixels, Mean(band.pixels).value);
  }

  /** The standardised values of the region sum to zero: their mean is 0. */
  lemma StandardizedSumIsZero(band: Band, bandName: string, stdDev: real)
    requires stdDev != 0.0 && Standardize(band, bandName, stdDev).Success?
    ensures Sum(Standardize(band, bandName, stdDev).value.pixels) == 0.0
    ensures Mean(Standardize(band, bandName, stdDev).value.pixels) == Some(0.0)
  {
    var s := band.pixels;
    var m := Mean(s).value;
    var r := Rescale(s, m, stdDev);
    RescaleSum(s, m, stdDev);
    CentredSumIsZero(Sum(r), stdDev, Sum(s), Count(s), m);
    RescaleKeepsMask(s, m, stdDev);
  }

  lemma CentredSumIsZero(total: real, d: real, sTotal: real, cnt: real, mean: real)
    requires d != 0.0
    requires SumRelation(total, d, sTotal, cnt, mean)
    requires mean * cnt == sTotal
    ensures total == 0.0
  {
  }

  /** When `stdDev` is a square root of the band's (positive) population
      variance, the standardised band has variance 1. */
  lemma StandardizedVarianceIsOne(band: Band, bandName: string, stdDev: real, variance: real)
    requires Standardize(band, bandName, stdDev).Success?
    requires Variance(band.pixels) == Some(variance) && variance > 0.0
    requires stdDev * stdDev == variance
    ensures Variance(Standardize(band, bandName, stdDev).value.pixels) == Some(1.0)
  {
    var s := band.pixels;
    var m := Mean(s).value;
    var r := Rescale(s, m, stdDev);
    RootNonZero(stdDev, variance);
    StandardizedSumIsZero(band, bandName, stdDev);
    RescaleKeepsMask(s, m, stdDev);
    RescaleSumSq(s, m, stdDev);
    UnitVariance(SumSqDev(r, 0.0), stdDev, variance, SumSqDev(s, m), Count(s));
  }

  lemma RootNonZero(d: real, v: real)
    requires d * d == v && v > 0.0
    ensures d != 0.0
  {
  }

  lemma UnitVariance(total: real, d: real, k: real, sTotal: real, cnt: real)
    requires k != 0.0 && cnt != 0.0 && d * d == k
    requires SquareRelation(total, d, sTotal)
    requires sTotal / cnt == k
    ensures total / cnt == 1.0
  {
    assert total * k == sTotal;
    DivCancel(sTotal, cnt, k);
    Cancel(total, cnt, k);
  }

  lemma DivCancel(a: real, c: real, k: real)
    requires c != 0.0 && a / c == k
    ensures a == k * c
  {
  }

  /** A positive standard deviation keeps the order of the valid pixels. */
  lemma StandardizeMonotone(band: Band, bandName: string, stdDev: real, i: nat, j: nat)
    requires stdDev > 0.0 && Standardize(band, bandName, stdDev).Success?
    requires i < |band.pixels| && j < |band.pixels|
    requires band.pixels[i].Some? && band.pixels[j].Some?
    requires band.pixels[i].value <= band.pixels[j].value
    ensures Standardize(band, bandName, stdDev).value.pixels[i].value
         <= Standardize(band, bandName, stdDev).value.pixels[j].value
  {
    RescaleMonotone(band.pixels, Mean(band.pixels).value, stdDev, i, j);
  }

  /** The stack the script hands to the principal component analysis: raw
      NDVI first, then standardised Wetness, LST and NDBSI, in that order. */
  function StackComponents(ndvi: Band, wetness: Band, lst: Band, ndbsi: Band,
                           wetnessSd: real, lstSd: real, ndbsiSd: real): (r: Result<seq<Band>>)
    ensures r.Success? ==> |r.value| == 4 && r.value[0] == ndvi
  {
    var w :- Standardize(wetness, "Wetness", wetnessSd);
    var l :- Standardize(lst, "LST", lstSd);
    var n :- Standardize(ndbsi, "NDBSI", ndbsiSd);
    Success([ndvi, w, l, n])
  }

  /** Properly named bands with valid pixels always stack, under the names
      `NDVI`, `Wetness_std`, `LST_std`, `NDBSI_std`; NDVI is passed through
      as it is while the other three come out centred. */
  lemma StackOrder(ndvi: Band, wetness: Band, lst: Band, ndbsi: Band,
                   wetnessSd: real, lstSd: real, ndbsiSd: real)
    requires ndvi.name == "NDVI" && wetness.name == "Wetness" && lst.name == "LST" && ndbsi.name == "NDBSI"
    requires !AllMasked(wetness.pixels) && !AllMasked(lst.pixels) && !AllMasked(ndbsi.pixels)
    requires wetnessSd != 0.0 && lstSd != 0.0 && ndbsiSd != 0.0
    ensures var r := StackComponents(ndvi, wetness, lst, ndbsi, wetnessSd, lstSd, ndbsiSd);
      && r.Success?
      && |r.value| == 4
      && r.value[0] == ndvi
      && r.value[1].name == "Wetness_std" && r.value[2].name == "LST_std" && r.value[3].name == "NDBSI_std"
      && Sum(r.value[1].pixels) == 0.0 && Sum(r.value[2].pixels) == 0.0 && Sum(r.value[3].pixels) == 0.0
  {
    StandardizedNames();
    var w := CentredLayer(wetness, "Wetness", wetnessSd);
    var l := CentredLayer(lst, "LST", lstSd);
    var n := CentredLayer(ndbsi, "NDBSI", ndbsiSd);
    assert StackComponents(ndvi, wetness, lst, ndbsi, wetnessSd, lstSd, ndbsiSd) == Success([ndvi, w, l, n]);
  }

  lemma StandardizedNames()
    ensures "NDVI" + "_std" == "NDVI_std" && "Wetness" + "_std" == "Wetness_std"
    ensures "LST" + "_std" == "LST_std" && "NDBSI" + "_std" == "NDBSI_std"
  {
  }

  /** A properly named band with a valid pixel standardises to a centred layer. */
  lemma CentredLayer(band: Band, bandName: string, stdDev: real) returns (r: Band)
    requires band.name == bandName && !AllMasked(band.pixels) && stdDev != 0.0
    ensures Standardize(band, bandName, stdDev) == Success(r)
    ensures r.name == bandName + "_std" && Sum(r.pixels) == 0.0
  {
    StandardizedSumIsZero(band, bandName, stdDev);
    r := Standardize(band, bandName, stdDev).value;
  }

  /** As written, the NDVI layer reaches the analysis raw: an NDVI band with
      valid pixels 0.1 and 0.3 enters the stack with mean 0.2 and variance
      0.01, where every standardised layer has mean 0 and variance 1. */
  lemma StackLeavesNdviRaw()
    ensures var ndvi := Band("NDVI", [Some(0.1), Some(0.3)]);
      var r := StackComponents(ndvi, Band("Wetness", [Some(1.0)]), Band("LST", [Some(1.0)]),
                               Band("NDBSI", [Some(1.0)]), 1.0, 1.0, 1.0);
      && r.Success?
      && Mean(r.value[0].pixels) == Some(0.2)
      && Variance(r.value[0].pixels) == Some(0.01)
  {
    var ndvi := Band("NDVI", [Some(0.1), Some(0.3)]);
    var one: seq<Pixel> := [Some(1.0)];
    assert one[0].Some?;
    StackOrder(ndvi, Band("Wetness", one), Band("LST", one), Band("NDBSI", one), 1.0, 1.0, 1.0);
    TwoPixelMoments(ndvi.pixels);
  }

  lemma TwoPixelMoments(s: seq<Pixel>)
    requires s == [Some(0.1), Some(0.3)]
    ensures Mean(s) == Some(0.2) && Variance(s) == Some(0.01)
  {
    assert s[1..][1..] == [];
    assert Count(s[1..]) == 1.0 && Sum(s[1..]) == 0.3;
    assert Count(s) == 2.0 && Sum(s) == 0.4;
    assert SumSqDev(s[1..], 0.2) == 0.01;
    assert SumSqDev(s, 0.2) == 0.02;
  }

  /** The stack with all four indicators standardised, NDVI included. */
  function StackStandardized(ndvi: Band, wetness: Band, lst: Band, ndbsi: Band,
                             ndviSd: real, wetnessSd: real, lstSd: real, ndbsiSd: real): (r: Result<seq<Band>>)
    ensures r.Success? <==>
      && ndvi.name == "NDVI" && wetness.name == "Wetness" && lst.name == "LST" && ndbsi.name == "NDBSI"
      && !AllMasked(ndvi.pixels) && !AllMasked(wetness.pixels) && !AllMasked(lst.pixels) && !AllMasked(ndbsi.pixels)
    ensures r.Success? ==>
      && |r.value| == 4
      && r.value[0].name == "NDVI" + "_std" && r.value[1].name == "Wetness" + "_std"
      && r.value[2].name == "LST" + "_std" && r.value[3].name == "NDBSI" + "_std"
      && |r.value[0].pixels| == |ndvi.pixels| && |r.value[1].pixels| == |wetness.pixels|
      && |r.value[2].pixels| == |lst.pixels| && |r.value[3].pixels| == |ndbsi.pixels|
  {
    var v :- Standardize(ndvi, "NDVI", ndviSd);
    var w :- Standardize(wetness, "Wetness", wetnessSd);
    var l :- Standardize(lst, "LST", lstSd);
    var n :- Standardize(ndbsi, "NDBSI", ndbsiSd);
    Success([v, w, l, n])
  }

  /** In the corrected stack every layer is centred. */
  lemma StackStandardizedCentred(ndvi: Band, wetness: Band, lst: Band, ndbsi: Band,
                                 ndviSd: real, wetnessSd: real, lstSd: real, ndbsiSd: real)
    requires ndvi.name == "NDVI" && wetness.name == "Wetness" && lst.name == "LST" && ndbsi.name == "NDBSI"
    requires !AllMasked(ndvi.pixels) && !AllMasked(wetness.pixels) && !AllMasked(lst.pixels) && !AllMasked(ndbsi.pixels)
    requires ndviSd != 0.0 && wetnessSd != 0.0 && lstSd != 0.0 && ndbsiSd != 0.0
    ensures var r := StackStandardized(ndvi, wetness, lst, ndbsi, ndviSd, wetnessSd, lstSd, ndbsiSd);
      && r.Success?
      && r.value[0].name == "NDVI_std" && r.value[1].name == "Wetness_std"
      && r.value[2].name == "LST_std" && r.value[3].name == "NDBSI_std"
      && forall k :: 0 <= k < 4 ==> Sum(r.value[k].pixels) == 0.0
  {
    StandardizedNames();
    var v := CentredLayer(ndvi, "NDVI", ndviSd);
    var w := CentredLayer(wetness, "Wetness", wetnessSd);
    var l := CentredLayer(lst, "LST", lstSd);
    var n := CentredLayer(ndbsi, "NDBSI", ndbsiSd);
    var r := [v, w, l, n];
    assert StackStandardized(ndvi, wetness, lst, ndbsi, ndviSd, wetnessSd, lstSd, ndbsiSd) == Success(r);
    assert forall k :: 0 <= k < 4 ==> Sum(r[k].pixels) == 0.0;
  }

  /** In the corrected stack the NDVI layer also has variance 1, given the
      square root of its variance as its standard deviation. */
  lemma StackStandardizedNdviUnitVariance(ndvi: Band, wetness: Band, lst: Band, ndbsi: Band,
                                          ndviSd: real, wetnessSd: real, lstSd: real, ndbsiSd: real,
                                          ndviVariance: real)
    requires ndvi.name == "NDVI" && wetness.name == "Wetness" && lst.name == "LST" && ndbsi.name == "NDBSI"
    requires !AllMasked(wetness.pixels) && !AllMasked(lst.pixels) && !AllMasked(ndbsi.pixels)
    requires wetnessSd != 0.0 && lstSd != 0.0 && ndbsiSd != 0.0
    requires Variance(ndvi.pixels) == Some(ndviVariance) && ndviVariance > 0.0
    requires ndviSd * ndviSd == ndviVariance
    ensures var r := StackStandardized(ndvi, wetness, lst, ndbsi, ndviSd, wetnessSd, lstSd, ndbsiSd);
      r.Success? && Variance(r.value[0].pixels) == Some(1.0)
  {
    RootNonZero(ndviSd, ndviVariance);
    StackStandardizedCentred(ndvi, wetness, lst, ndbsi, ndviSd, wetnessSd, lstSd, ndbsiSd);
    StandardizedVarianceIsOne(ndvi, "NDVI", ndviSd, ndviVariance);
    var v := Standardize(ndvi, "NDVI", ndviSd).value;
    var w := Standardize(wetness, "Wetness", wetnessSd).value;
    var l := Standardize(lst, "LST", lstSd).value;
    var n := Standardize(ndbsi, "NDBSI", ndbsiSd).value;
    assert StackStandardized(ndvi, wetness, lst, ndbsi, ndviSd, wetnessSd, lstSd, ndbsiSd) == Success([v, w, l, n]);
  }
}
