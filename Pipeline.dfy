/** The stages chained in the script's order. Per pixel of one scene: mask,
    scale and derive the indicators, both under the script's mask as written
    and under the corrected cloud and shadow mask. Over the region: clamp,
    normalise and classify the first principal component. */
module Pipeline {
  import opened Raster
  import opened Region
  import opened CloudMask
  import opened Radiometry
  import opened Indices
  import opened Pca
  import opened Rsei
  import opened Classification

  /** NDVI, Wetness and NDBSI, in that order, of the scaled bands. */
  function ScaledIndicators(b: Bands): (r: seq<Pixel>)
    ensures |r| == 3
    ensures b == MASKED_BANDS ==> forall i :: 0 <= i < 3 ==> r[i].None?
  {
    ScaleKeepsMask();
    MaskedPixelMasksIndices(0.0, 1.0);
    var s := ScaleBands(b);
    [Ndvi(s), Wetness(s), Ndbsi(s)]
  }

  /** The indicators of a scene pixel under the script's mask as written
      (bits 3 and 5), then scaling. An indicator is valid only where that
      mask keeps the pixel. */
  function PixelIndicatorsAsWritten(p: ScenePixel): (r: seq<Pixel>)
    ensures |r| == 3
    ensures forall i :: 0 <= i < 3 && r[i].Some? ==> p.qa.Some? && IsClear(p.qa.value)
  {
    ScaledIndicators(MaskL8sr(p).bands)
  }

  /** As written, a pixel whose word has bit 3 or 5 set (or no word) is masked
      in every indicator and in the emissivity chain. */
  lemma FlaggedPixelMasksIndicatorsAsWritten(p: ScenePixel, lo: real, hi: real)
    requires !(p.qa.Some? && IsClear(p.qa.value))
    ensures forall i :: 0 <= i < 3 ==> PixelIndicatorsAsWritten(p)[i].None?
    ensures FlooredEmissivity(Emissivity(Fv(PixelIndicatorsAsWritten(p)[0], lo, hi))).None?
  {
    ScaleKeepsMask();
    MaskedPixelMasksIndices(lo, hi);
  }

  /** As written, a pixel flagged only as cloud shadow keeps the indicators
      of its own scaled bands. */
  lemma ShadowPixelKeepsIndicatorsAsWritten(b: Bands)
    ensures PixelIndicatorsAsWritten(ScenePixel(b, Some(CLOUD_SHADOW_BIT)))
      == [Ndvi(ScaleBands(b)), Wetness(ScaleBands(b)), Ndbsi(ScaleBands(b))]
  {
    ShadowKeptSnowMasked(b);
  }

  /** The indicators of a scene pixel after cloud and shadow masking (the
      corrected rule) and scaling. An indicator is valid only where the
      quality word is clear of both flags. */
  function PixelIndicators(p: ScenePixel): (r: seq<Pixel>)
    ensures |r| == 3
    ensures forall i :: 0 <= i < 3 && r[i].Some? ==> p.qa.Some? && IsClearCorrected(p.qa.value)
  {
    ScaledIndicators(MaskL8srCorrected(p).bands)
  }

  /** A pixel flagged as cloud or cloud shadow (or without a quality word) is
      masked in every derived indicator and in the emissivity chain. */
  lemma FlaggedPixelMasksIndicators(p: ScenePixel, lo: real, hi: real)
    requires !(p.qa.Some? && IsClearCorrected(p.qa.value))
    ensures forall i :: 0 <= i < 3 ==> PixelIndicators(p)[i].None?
    ensures FlooredEmissivity(Emissivity(Fv(PixelIndicators(p)[0], lo, hi))).None?
  {
    ScaleKeepsMask();
    MaskedPixelMasksIndices(lo, hi);
  }

  /** A clear pixel's indicators are those of its own scaled bands. */
  lemma ClearPixelKeepsIndicators(p: ScenePixel)
    requires p.qa.Some? && IsClearCorrected(p.qa.value)
    ensures PixelIndicators(p) == [Ndvi(ScaleBands(p.bands)), Wetness(ScaleBands(p.bands)), Ndbsi(ScaleBands(p.bands))]
  {
  }

  /** Wetness of the scaled bands is an affine function of the Wetness of the
      digital numbers: gain times it, plus the offset times the sum of weights. */
  lemma WetnessOfScaledBands(b: Bands)
    requires b.b2.Some? && b.b3.Some? && b.b4.Some? && b.b5.Some? && b.b6.Some? && b.b7.Some?
    ensures Wetness(ScaleBands(b)).Some?
    ensures Wetness(ScaleBands(b)).value
      == REFLECTANCE_GAIN * Wetness(b).value + REFLECTANCE_OFFSET * WETNESS_WEIGHT_SUM
  {
  }

  /** RSEI: the first component clamped to [-4, 4], then min-max normalised. */
  function RseiOf(pc1: Band): (r: Result<seq<Pixel>>)
    ensures r.Success? <==> pc1.name == "pc1" && !AllMasked(pc1.pixels)
    ensures r.Success? ==> |r.value| == |pc1.pixels|
  {
    assert AllMasked(ClampBand(pc1).pixels) <==> AllMasked(pc1.pixels);
    Normalize(ClampBand(pc1))
  }

  /** The LSES class band of the first component. */
  function Lses(pc1: Band): (r: Result<seq<Option<int>>>)
    ensures r.Success? <==> pc1.name == "pc1" && !AllMasked(pc1.pixels)
    ensures r.Success? ==> |r.value| == |pc1.pixels|
    ensures r.Success? ==> forall i :: 0 <= i < |r.value| ==>
      (r.value[i].Some? <==> RseiOf(pc1).value[i].Some?)
      && (r.value[i].Some? ==> 1 <= r.value[i].value <= 5)
  {
    var rsei :- RseiOf(pc1);
    Success(ClassifyBand(rsei))
  }

  /** Two pixels at -1 and two at 1 normalise to 0, 0, 1, 1 and fall in
      classes 1, 1, 5, 5. */
  lemma TwoLevelScenario()
    ensures var pc1 := Band("pc1", [Some(-1.0), Some(-1.0), Some(1.0), Some(1.0)]);
      && RseiOf(pc1) == Success([Some(0.0), Some(0.0), Some(1.0), Some(1.0)])
      && Lses(pc1) == Success([Some(1), Some(1), Some(5), Some(5)])
  {
    var pc1 := Band("pc1", [Some(-1.0), Some(-1.0), Some(1.0), Some(1.0)]);
    var rsei := [Some(0.0), Some(0.0), Some(1.0), Some(1.0)];
    TwoLevelRsei(pc1);
    TwoLevelClasses(rsei);
    assert Lses(pc1) == Success(ClassifyBand(rsei));
  }

  lemma TwoLevelClasses(rsei: seq<Pixel>)
    requires rsei == [Some(0.0), Some(0.0), Some(1.0), Some(1.0)]
    ensures ClassifyBand(rsei) == [Some(1), Some(1), Some(5), Some(5)]
  {
    var c := ClassifyBand(rsei);
    assert c[0] == Some(1) && c[1] == Some(1) && c[2] == Some(5) && c[3] == Some(5);
  }

  lemma TwoLevelRsei(pc1: Band)
    requires pc1 == Band("pc1", [Some(-1.0), Some(-1.0), Some(1.0), Some(1.0)])
    ensures RseiOf(pc1) == Success([Some(0.0), Some(0.0), Some(1.0), Some(1.0)])
  {
    var s := pc1.pixels;
    assert ClampBand(pc1).pixels == s;
    assert ClampBand(pc1) == pc1;
    assert s[0] == Some(-1.0) && s[3] == Some(1.0);
    MinMaxUnique(s, -1.0, 1.0);
    TwoLevelRescale(s);
  }

  lemma TwoLevelRescale(s: seq<Pixel>)
    requires s == [Some(-1.0), Some(-1.0), Some(1.0), Some(1.0)]
    ensures Rescale(s, -1.0, 1.0 - -1.0) == [Some(0.0), Some(0.0), Some(1.0), Some(1.0)]
  {
    var r := Rescale(s, -1.0, 1.0 - -1.0);
    assert r[0] == Some(0.0) && r[1] == Some(0.0) && r[2] == Some(1.0) && r[3] == Some(1.0);
  }
}
