/** Scene selection and the per-pixel cloud mask applied to each Landsat 8
    Collection 2 Level 2 scene before compositing. */
module CloudMask {
  import opened Raster

  /** `1 << 3`, named `cloudShadowBitMask` in the script. In the Collection 2
      `QA_PIXEL` word bit 3 is the cloud flag. */
  const CLOUD_BIT: bv16 := 1 << 3
  /** `1 << 5`, named `cloudsBitMask` in the script. In the Collection 2
      `QA_PIXEL` word bit 5 is the snow flag. */
  const SNOW_BIT: bv16 := 1 << 5
  /** Bit 4 of the Collection 2 `QA_PIXEL` word: the cloud-shadow flag, which
      the script does not test. */
  const CLOUD_SHADOW_BIT: bv16 := 1 << 4

  /** Scenes are kept only when their `CLOUD_COVER` is below this (exclusive). */
  const MAX_CLOUD_COVER: real := 1.0

  /** One scene as seen at one pixel: its bands and its 16-bit quality word. */
  datatype ScenePixel = ScenePixel(bands: Bands, qa: Option<bv16>)

  /** A scene of the collection: its `CLOUD_COVER` metadata and its pixel. */
  datatype Scene = Scene(cloudCover: real, pixel: ScenePixel)

  /** The mask rule of `maskL8sr` as written: bits 3 (cloud) and 5 (snow) clear. */
  predicate IsClear(qa: bv16) {
    qa & CLOUD_BIT == 0 && qa & SNOW_BIT == 0
  }

  /** The rule the script's mask names announce: neither cloud (bit 3) nor
      cloud shadow (bit 4) flagged. */
  predicate IsClearCorrected(qa: bv16) {
    qa & CLOUD_BIT == 0 && qa & CLOUD_SHADOW_BIT == 0
  }

  /** Bit `k` of the quality word is set. */
  predicate BitSet(qa: bv16, k: nat)
    requires k < 16
  {
    (qa >> k) & 1 == 1
  }

  function FlipBit(qa: bv16, k: nat): bv16
    requires k < 16
  {
    qa ^ (1 << k)
  }

  /** The masks select exactly bits 3 and 5 (cloud and snow): a pixel is
      clear iff neither is set. */
  lemma IsClearIffFlagsUnset(qa: bv16)
    ensures IsClear(qa) <==> !BitSet(qa, 3) && !BitSet(qa, 5)
  {
  }

  /** Flipping any bit other than 3 and 5 never changes the verdict. */
  lemma OtherBitsIrrelevant(qa: bv16, k: nat)
    requires k < 16 && k != 3 && k != 5
    ensures IsClear(FlipBit(qa, k)) == IsClear(qa)
  {
  }

  /** Setting either flag on a clear pixel masks it. */
  lemma FlagBitsDecide(qa: bv16)
    requires IsClear(qa)
    ensures !IsClear(FlipBit(qa, 3)) && !IsClear(FlipBit(qa, 5))
  {
  }

  /** `maskL8sr`: a pixel whose quality word is clear keeps all its bands;
      any other pixel (including one whose quality word is itself masked)
      becomes masked in every band. */
  function MaskL8sr(p: ScenePixel): (r: ScenePixel)
    ensures p.qa.Some? && IsClear(p.qa.value) ==> r == p
    ensures !(p.qa.Some? && IsClear(p.qa.value)) ==> r.bands == MASKED_BANDS && r.qa.None?
  {
    if p.qa.Some? && IsClear(p.qa.value) then p else ScenePixel(MASKED_BANDS, None)
  }

  /** Masking twice is masking once. */
  lemma MaskL8srIdempotent(p: ScenePixel)
    ensures MaskL8sr(MaskL8sr(p)) == MaskL8sr(p)
  {
  }

  /** As written, a pixel flagged only as cloud shadow is kept with all its
      bands, and a pixel flagged only as snow is masked; the corrected rule
      does the opposite on both. */
  lemma ShadowKeptSnowMasked(b: Bands)
    ensures IsClear(CLOUD_SHADOW_BIT) && !IsClearCorrected(CLOUD_SHADOW_BIT)
    ensures !IsClear(SNOW_BIT) && IsClearCorrected(SNOW_BIT)
    ensures MaskL8sr(ScenePixel(b, Some(CLOUD_SHADOW_BIT))) == ScenePixel(b, Some(CLOUD_SHADOW_BIT))
    ensures MaskL8srCorrected(ScenePixel(b, Some(CLOUD_SHADOW_BIT))).bands == MASKED_BANDS
  {
  }

  /** The corrected rule tests exactly bits 3 and 4: a pixel is clear iff
      neither cloud nor cloud shadow is flagged. */
  lemma IsClearCorrectedIffFlagsUnset(qa: bv16)
    ensures IsClearCorrected(qa) <==> !BitSet(qa, 3) && !BitSet(qa, 4)
  {
  }

  /** Under the corrected rule, flipping any bit other than 3 and 4 never
      changes the verdict. */
  lemma CorrectedOtherBitsIrrelevant(qa: bv16, k: nat)
    requires k < 16 && k != 3 && k != 4
    ensures IsClearCorrected(FlipBit(qa, k)) == IsClearCorrected(qa)
  {
  }

  /** The cloud and shadow masking the script's mask names announce: a pixel
      whose quality word has bits 3 and 4 clear keeps all its bands; any other
      pixel becomes masked in every band. */
  function MaskL8srCorrected(p: ScenePixel): (r: ScenePixel)
    ensures p.qa.Some? && IsClearCorrected(p.qa.value) ==> r == p
    ensures !(p.qa.Some? && IsClearCorrected(p.qa.value)) ==> r.bands == MASKED_BANDS && r.qa.None?
  {
    if p.qa.Some? && IsClearCorrected(p.qa.value) then p else ScenePixel(MASKED_BANDS, None)
  }

  /** The scene-level filter `ee.Filter.lt('CLOUD_COVER', 1)`. */
  predicate KeepScene(s: Scene) {
    s.cloudCover < MAX_CLOUD_COVER
  }

  /** The filtered collection, in collection order. */
  function FilterCloudCover(scenes: seq<Scene>): (r: seq<Scene>)
    ensures forall s :: multiset(r)[s] == if KeepScene(s) then multiset(scenes)[s] else 0
    // Corollaries of the multiset clause, stated for callers:
    ensures |r| <= |scenes|
    ensures forall s :: s in r <==> s in scenes && KeepScene(s)
    ensures forall i :: 0 <= i < |r| ==> r[i].cloudCover < MAX_CLOUD_COVER
  {
    if |scenes| == 0 then []
    else
      assert scenes == [scenes[0]] + scenes[1..];
      if KeepScene(scenes[0]) then [scenes[0]] + FilterCloudCover(scenes[1..])
      else FilterCloudCover(scenes[1..])
  }

  /** A scene reporting exactly the ceiling is dropped. */
  lemma CeilingSceneDropped(scenes: seq<Scene>, s: Scene)
    requires s.cloudCover == MAX_CLOUD_COVER
    ensures s !in FilterCloudCover(scenes)
  {
  }

  /** `.map(maskL8sr)` over the filtered collection, at one pixel: each kept
      scene's pixel, masked by the rule as written. */
  function MaskCollection(scenes: seq<Scene>): (r: seq<ScenePixel>)
    ensures |r| == |FilterCloudCover(scenes)|
    ensures forall i :: 0 <= i < |r| ==> r[i] == MaskL8sr(FilterCloudCover(scenes)[i].pixel)
    // A corollary of the clause above and the contract of MaskL8sr:
    ensures forall i :: 0 <= i < |r| ==>
      (r[i].qa.Some? <==> FilterCloudCover(scenes)[i].pixel.qa.Some? && IsClear(FilterCloudCover(scenes)[i].pixel.qa.value))
  {
    MapPixels(FilterCloudCover(scenes), (s: Scene) => MaskL8sr(s.pixel))
  }
}
