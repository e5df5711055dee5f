# RSEI pipeline model

A Dafny model of the numerical core of `GEE_code.js`, a Google Earth Engine
script that computes the Remote Sensing Ecological Index (RSEI) of a region
from Landsat 8 Collection 2 Level 2 imagery and sorts the region into five
ecological quality classes (LSES).

The script is a chain of expressions on immutable images, so the model is
pure functions and lemmas. A pixel is an `Option<real>`: `None` is a masked
(no-data) pixel, and exact reals stand in for floating point. A band over the
region is the sequence of its pixels. A region statistic that the script reads
with `stats.get(key)` is absent when the band has no valid pixel or carries
another name; the model reports this as `Failure(MissingStatistic(key))`.

The modules follow the script's steps:

- `Raster`: the pixel type, bands, results and per-pixel image arithmetic.
  A masked operand masks the result, and, as a modelling choice, division by
  zero masks the pixel.
- `CloudMask`: `maskL8sr` on the 16-bit `QA_PIXEL` word (bits 3 and 5), the
  corrected cloud and cloud-shadow mask (bits 3 and 4, see Findings), and the
  `CLOUD_COVER < 1` scene filter.
- `Radiometry`: the reflective and thermal scale factors.
- `Region`: the `minMax` and `mean` reductions and the population variance,
  all of which ignore masked pixels, and the subtract-then-divide rescaling.
  The `stdDev` reduction itself, a square root of that variance, is an input. The script uses that
  rescaling three times: for the vegetation fraction, in `standardize`, and
  for the RSEI normalisation.
- `Indices`: NDVI, NDBSI, Wetness, and the vegetation fraction / emissivity
  chain with its 0.001 floor.
- `Standardization`: `standardize` and the four-band stack fed to the
  principal component analysis.
- `Pca`: `getNewBandNames`, `select('pc1')` and `clamp(-4, 4)`.
- `Rsei`: the min-max normalisation of the clamped first component.
- `Classification`: the LSES threshold ladder.
- `Pipeline`: the stages chained per pixel of one scene, under the script's
  mask as written and under the corrected cloud and shadow mask, and per
  region, plus a two-level worked scenario.

The heading comment at `GEE_code.js:154` announces a normalisation to
[-1, +1]. The code at lines 168-171 computes `(pc1 - min) / (max - min)`, so
the model follows the code and proves the range [0, 1].

The code has no explicit error for an empty collection, a zero standard
deviation, or `max == min`. In those cases:
- A band without valid pixels has no statistic for `stats.get` to return, so
  the model's result is a `Failure`.
- What the library's `divide` yields for a zero divisor is not part of this
  model. As a modelling choice, a zero divisor masks the pixel (see Left out).

## Model

| member | source | states |
|---|---|---|
| CloudMask.MaskL8sr | GEE_code.js:23-29 | a pixel whose QA word has bits 3 and 5 clear keeps all its bands; any other pixel is masked in every band |
| CloudMask.IsClearIffFlagsUnset | GEE_code.js:24-28 | the two masks test exactly bit 3 (cloud in Collection 2 `QA_PIXEL`) and bit 5 (snow): a pixel is clear iff both are 0 |
| CloudMask.OtherBitsIrrelevant | GEE_code.js:24-28 | flipping any QA bit other than 3 and 5 never changes whether a pixel is kept |
| CloudMask.FlagBitsDecide | GEE_code.js:24-28 | setting either flag on a clear pixel masks it |
| CloudMask.MaskL8srIdempotent | GEE_code.js:23-29 | masking twice is masking once |
| CloudMask.ShadowKeptSnowMasked | GEE_code.js:23-29 | as written, a word with only the cloud-shadow bit 4 set keeps the pixel and all its bands, and a word with only the snow bit 5 set masks it; the corrected rule does the opposite on both |
| CloudMask.MaskL8srCorrected | GEE_code.js:23-29 | the corrected mask keeps a pixel with bits 3 and 4 clear unchanged and masks every other pixel in every band |
| CloudMask.IsClearCorrectedIffFlagsUnset | GEE_code.js:24-28 | the corrected rule keeps a pixel iff neither bit 3 (cloud) nor bit 4 (cloud shadow) is set |
| CloudMask.CorrectedOtherBitsIrrelevant | GEE_code.js:24-28 | under the corrected rule, flipping any bit other than 3 and 4 never changes whether a pixel is kept |
| CloudMask.FilterCloudCover | GEE_code.js:36 | the filtered collection holds every scene with cloud cover strictly below 1 as often as the input does, and no other scene |
| CloudMask.CeilingSceneDropped | GEE_code.js:36 | a scene whose cloud cover is exactly 1 is dropped |
| CloudMask.MaskCollection | GEE_code.js:36-37 | the i-th result is the i-th kept scene's pixel under `maskL8sr`: unchanged when its QA word is clear, masked in every band otherwise |
| Radiometry.ScaleReflective | GEE_code.js:41-44 | `SR_B*` scaling keeps the mask: valid iff the input is valid |
| Radiometry.ScaleThermal | GEE_code.js:46 | `ST_B10` scaling keeps the mask: valid iff the input is valid |
| Radiometry.ReflectiveRoundTrip | GEE_code.js:43-44 | reflective scaling by 0.0000275 and -0.2 is invertible, in both directions |
| Radiometry.ThermalRoundTrip | GEE_code.js:46 | thermal scaling by 0.00341802 and 149.0 is invertible, in both directions |
| Radiometry.ScalingStrictlyIncreasing | GEE_code.js:41-47 | both scalings strictly preserve the order of digital numbers |
| Radiometry.ScalingAffine | GEE_code.js:41-47 | both scalings carry weighted averages of digital numbers to the same weighted averages of scaled values |
| Radiometry.ScaleBands | GEE_code.js:41-47 | the scaled image keeps every band's mask, and unscaling it band by band gives back every digital number |
| Radiometry.ScaleKeepsMask | GEE_code.js:41-47 | a fully masked pixel stays masked in every scaled band |
| Region.MinMax | GEE_code.js:54-61 | the `minMax` reduction is absent iff no pixel is valid, and bounds every valid pixel |
| Region.MinMaxAttained | GEE_code.js:54-61 | the reported minimum and maximum are values that valid pixels hold |
| Region.MinMaxUnique | GEE_code.js:54-61 | any attained pair that bounds all valid pixels is the pair the reduction reports |
| Region.Mean | GEE_code.js:102-112 | the `mean` reduction is absent iff no pixel is valid; otherwise it times the valid-pixel count is the sum of the valid pixels |
| Region.Variance | GEE_code.js:102-112 | the variance (the square of the `stdDev` reduction) is absent iff no pixel is valid; otherwise it is non-negative and times the valid count is the sum of squared deviations from the mean |
| Region.Count | GEE_code.js:102-112 | the number of valid pixels is zero iff every pixel is masked |
| Region.Rescale | GEE_code.js:115 | subtract-then-divide: with a non-zero divisor exactly the masked pixels stay masked, a zero divisor masks every pixel, and each valid result times the divisor is the pixel less the offset |
| Region.RescaleKeepsMask | GEE_code.js:115 | with a non-zero divisor, subtract-then-divide masks exactly the masked pixels |
| Region.RescaleSum | GEE_code.js:115 | the rescaled valid pixels sum to (sum - count * offset) / divisor |
| Region.RescaleSumSq | GEE_code.js:115 | the rescaled squared deviations sum to the original ones over divisor squared |
| Region.RescaleMonotone | GEE_code.js:115 | a positive divisor keeps the order of valid pixels, weakly and strictly |
| Region.MinMaxRescaleRange | GEE_code.js:168-171 | rescaling by a band's own minimum and spread puts every valid pixel in [0, 1], the minimum at 0 and the maximum at 1 |
| Indices.NormalizedDifference | GEE_code.js:53 | `(a - b) / (a + b)` is valid iff both operands are valid and their sum is non-zero |
| Indices.Ndvi | GEE_code.js:53 | NDVI is the normalised difference of `SR_B5` and `SR_B4`; it is valid iff both are valid with a non-zero sum |
| Indices.Ndbsi | GEE_code.js:90-96 | NDBSI is the normalised difference of `SR_B4 + SR_B6` and `SR_B5 + SR_B2`; it is valid iff the four bands are valid with a non-zero total |
| Indices.NormalizedDifferenceRangeIff | GEE_code.js:53 | the index lies in [-1, 1] iff the two operands do not have strictly opposite signs |
| Indices.NormalizedDifferenceBounded | GEE_code.js:90-96 | non-negative operands with a positive sum give an index in [-1, 1] |
| Indices.NormalizedDifferenceAntisymmetric | GEE_code.js:53 | swapping the operands negates the index and keeps the mask |
| Indices.NormalizedDifferenceRecovers | GEE_code.js:53 | the index and the operand sum determine both operands |
| Indices.Wetness | GEE_code.js:79-87 | Wetness is valid iff all six bands `SR_B2`..`SR_B7` are valid |
| Indices.WetnessIsWeightedSum | GEE_code.js:79-87 | Wetness is the dot product of (0.1511, 0.1973, 0.3283, 0.3407, -0.7117, -0.4559) with `SR_B2`..`SR_B7` |
| Indices.WetnessShift | GEE_code.js:79-87 | shifting all six bands by c shifts Wetness by c times the weight sum -0.1502 |
| Indices.Fv | GEE_code.js:63-66 | the vegetation fraction is valid iff the NDVI pixel is valid and max differs from min, and is never negative |
| Indices.FvInUnitInterval | GEE_code.js:63-66 | an NDVI value within [min, max], min < max, gives a fraction in [0, 1]: 0 at the minimum, 1 at the maximum |
| Indices.FvMonotone | GEE_code.js:63-66 | within [min, max] a larger NDVI never gives a smaller fraction |
| Indices.Emissivity | GEE_code.js:68 | emissivity is valid iff the fraction is |
| Indices.EmissivityRange | GEE_code.js:68 | a fraction in [0, 1] gives an emissivity in [0.986, 0.990], on which the 0.001 floor has no effect |
| Indices.FlooredEmissivity | GEE_code.js:75 | `em.max(0.001)` is at least 0.001 and at least `em`, and equals `em` whenever `em >= 0.001` |
| Indices.FloorOnlyBelowVegetationFraction | GEE_code.js:68-75 | the floor changes the emissivity iff the fraction is below -246.25 |
| Indices.FloorNeverActive | GEE_code.js:63-75 | on any fraction the script computes, the floor never changes the emissivity |
| Indices.VegetationFraction | GEE_code.js:54-66 | the band-level fraction exists iff the band is named `NDVI` and has a valid pixel; otherwise `NDVI_min` is missing |
| Indices.LstEmissivity | GEE_code.js:54-75 | the emissivity band handed to the LST formula exists under the same condition, pixel for pixel |
| Indices.LstEmissivityRange | GEE_code.js:54-75 | when NDVI varies over the region, every valid pixel gets an emissivity in [0.986, 0.990] and masked pixels stay masked |
| Indices.MaskedPixelMasksIndices | GEE_code.js:53-96 | a fully masked pixel gives masked NDVI, NDBSI, Wetness and emissivity |
| Standardization.Standardize | GEE_code.js:101-116 | succeeds iff the band carries `bandName` and has a valid pixel; the result is named `bandName_std` and has the band's length; otherwise `bandName_mean` is missing |
| Standardization.StandardizeKeepsMask | GEE_code.js:115 | with a non-zero stdDev, exactly the masked pixels stay masked |
| Standardization.StandardizeDegenerate | GEE_code.js:113-115 | a zero stdDev masks the whole standardised band |
| Standardization.StandardizedSumIsZero | GEE_code.js:101-116 | the standardised valid pixels sum to 0, and their mean is 0 |
| Standardization.StandardizedVarianceIsOne | GEE_code.js:101-116 | with stdDev the square root of the band's positive variance, the standardised band has variance 1 |
| Standardization.StandardizeMonotone | GEE_code.js:115 | a positive stdDev keeps the order of valid pixels |
| Standardization.StackComponents | GEE_code.js:119-123 | the stack has four layers, and its first layer is the NDVI band unchanged |
| Standardization.StackOrder | GEE_code.js:119-123 | properly named bands with valid pixels always stack as NDVI, Wetness_std, LST_std, NDBSI_std, with the last three centred |
| Standardization.StackLeavesNdviRaw | GEE_code.js:119-123 | as written, an NDVI band with pixels 0.1 and 0.3 enters the analysis with mean 0.2 and variance 0.01 |
| Standardization.StackStandardized | GEE_code.js:119-123 | the corrected stack exists iff all four bands carry their names and have a valid pixel; its layers are NDVI_std, Wetness_std, LST_std, NDBSI_std with the bands' lengths |
| Standardization.StackStandardizedCentred | GEE_code.js:119-123 | in the corrected stack all four layers are standardised and centred, named NDVI_std, Wetness_std, LST_std, NDBSI_std |
| Standardization.StackStandardizedNdviUnitVariance | GEE_code.js:119-123 | in the corrected stack the NDVI layer has variance 1 |
| Pca.NewBandNames | GEE_code.js:280-284 | `getNewBandNames(prefix)` gives four names, each the prefix followed by one character |
| Pca.NewBandNamesDistinct | GEE_code.js:280-284 | name i ends in digit i + 1, and the four names are pairwise distinct |
| Pca.Select | GEE_code.js:147 | `select(name)` finds the first band with that name, and finds none iff no band has it |
| Pca.Pc1IsFirstComponent | GEE_code.js:145-147 | the names are pc1..pc4, `pc1` selects the first projected component, and `pc5` selects none |
| Pca.SelectNewBandName | GEE_code.js:145-147 | each generated name selects its own component, whatever the prefix |
| Pca.Clamp | GEE_code.js:149-150 | `clamp(-4, 4)` keeps the mask, lands in [-4, 4], and is the identity on [-4, 4] |
| Pca.ClampIdempotent | GEE_code.js:149-150 | clamping twice is clamping once |
| Pca.ClampMonotone | GEE_code.js:149-150 | the clamp keeps the weak order of values |
| Pca.ClampIsNearest | GEE_code.js:149-150 | the clamped value is the point of [-4, 4] nearest to the input |
| Pca.ClampBand | GEE_code.js:149-150 | the clamped band keeps its name (`pc1`) and length |
| Rsei.Normalize | GEE_code.js:156-171 | RSEI exists iff the band is named `pc1` and has a valid pixel, pixel for pixel; otherwise `pc1_min` is missing |
| Rsei.NormalizeRange | GEE_code.js:156-171 | when PC1 varies, every valid pixel gets RSEI in [0, 1], masked pixels stay masked, the minimum maps to 0 and the maximum to 1 |
| Rsei.NormalizeAttainsEnds | GEE_code.js:156-171 | both 0 and 1 occur in the RSEI band |
| Rsei.NormalizeMonotone | GEE_code.js:168-171 | normalisation keeps the order of pixels, weakly and strictly |
| Rsei.NormalizeConstant | GEE_code.js:168-171 | a PC1 that is constant over the region masks every RSEI pixel |
| Rsei.NormalizeIdempotent | GEE_code.js:156-171 | normalising an already normalised band changes nothing |
| Classification.ClassOf | GEE_code.js:178-184 | the class is in 1..5; class c <= 4 means the value is at most threshold c and above every earlier threshold; class 5 means it is above all four |
| Classification.ClassOfIsFirstNotBelow | GEE_code.js:178-184 | the nested conditional equals one plus the position of the first threshold not below the value |
| Classification.ClassMonotone | GEE_code.js:178-184 | with ascending thresholds a larger RSEI never gets a lower class |
| Classification.ClassOnto | GEE_code.js:178-184 | with strictly ascending thresholds every class 1..5 occurs |
| Classification.LsesBoundaries | GEE_code.js:178-184 | with 0.2/0.4/0.6/0.8 the boundaries are inclusive: 0 and 0.2 are class 1, 0.5 is class 3, 0.8 is class 4, 1 is class 5 |
| Classification.ClassifyPixel | GEE_code.js:179-184 | a masked RSEI pixel has no class; a valid one has a class in 1..5 |
| Classification.ClassifyBand | GEE_code.js:179-184 | the LSES band has a class exactly where RSEI is valid, and that class is the ladder's class of the RSEI value |
| Pipeline.PixelIndicatorsAsWritten | GEE_code.js:23-96 | on one scene pixel, with the script's mask as written and scaling, the three indicators are NDVI, Wetness and NDBSI, and each is valid only where bits 3 and 5 of the QA word are clear |
| Pipeline.FlaggedPixelMasksIndicatorsAsWritten | GEE_code.js:23-96 | as written, a pixel whose QA word has bit 3 (cloud) or bit 5 (snow) set is masked in NDVI, Wetness, NDBSI and the emissivity chain |
| Pipeline.ShadowPixelKeepsIndicatorsAsWritten | GEE_code.js:23-96 | as written, a pixel flagged only as cloud shadow (bit 4) keeps the indicators of its own scaled bands |
| Pipeline.PixelIndicators | GEE_code.js:23-96 | on one scene pixel, with the corrected mask and scaling, the three indicators are NDVI, Wetness and NDBSI, and each is valid only where the QA word is clear |
| Pipeline.FlaggedPixelMasksIndicators | GEE_code.js:23-96 | under the corrected mask, a pixel flagged as cloud or cloud shadow is masked in NDVI, Wetness, NDBSI and the emissivity chain |
| Pipeline.ClearPixelKeepsIndicators | GEE_code.js:23-96 | a pixel clear under the corrected mask has the indicators of its own scaled bands |
| Pipeline.WetnessOfScaledBands | GEE_code.js:41-87 | Wetness of scaled bands is 0.0000275 times Wetness of the digital numbers plus -0.2 times the weight sum |
| Pipeline.RseiOf | GEE_code.js:147-171 | RSEI of the clamped PC1 exists iff the band is `pc1` with a valid pixel, pixel for pixel |
| Pipeline.Lses | GEE_code.js:147-184 | the LSES band has a class in 1..5 exactly where RSEI is valid |
| Pipeline.TwoLevelScenario | GEE_code.js:147-184 | PC1 values -1, -1, 1, 1 give RSEI 0, 0, 1, 1 and classes 1, 1, 5, 5 |

## Left out

- Collection loading, `filterBounds`, `filterDate`, `.median()` and `.clip()` (GEE_code.js:33-39) are library behaviour. The model stops at the masked scene pixels, and every later stage takes the composite pixel as an input, except the per-pixel chain in `Pipeline` (see the next line).
- Centred covariance, `eigen()`, `matrixMultiply`, `arrayProject` and `arrayFlatten` (GEE_code.js:128-145) are library linear algebra. The projected components are an input. Only their names and the selection of `pc1` are modelled.
- The LST expression (GEE_code.js:72-76) needs a logarithm, which exact reals cannot express. Only the emissivity it consumes, including the 0.001 floor, is modelled. The LST band enters `Standardize` as any other band.
- The standard deviation needs a square root. It is passed to `Standardize` as a parameter. The unit-variance lemmas take it as a square root of the band's variance.
- Standardization.StandardizedVarianceIsOne: this is stated for the population variance. If the `stdDev` reducer uses the sample (n - 1) estimator, the variance comes out as (n - 1) / n instead of 1.
- Floating-point rounding: every value is an exact real. The round trips and bounds hold exactly here, and only up to rounding in the script.
- Pipeline.PixelIndicators: it and Pipeline.PixelIndicatorsAsWritten treat one masked scene pixel as the composite. With several scenes, the median (not modelled) keeps a pixel that is flagged in only some of them, so their flagged and clear lemmas describe a one-scene composite only.
- What the library's `divide` yields for a zero divisor is not part of this model; the model masks the pixel, while the library may yield 0 instead. Every contract that speaks of a zero divisor or a zero sum depends on that choice:
  - Region.Rescale and Region.RescaleByZeroMasksAll;
  - Indices.NormalizedDifference, Indices.Ndvi and Indices.Ndbsi (a zero operand sum; NDBSI divides inside `expression`, line 91);
  - Indices.Fv, Indices.VegetationFraction and Indices.LstEmissivity (a region whose NDVI maximum equals its minimum);
  - Standardization.StandardizeDegenerate (a zero standard deviation);
  - Rsei.NormalizeConstant (a constant first component).
- `normalizedDifference` is modelled as the plain formula. Any additional masking the library applies to negative inputs is not part of this model.
- A masked pixel of the composite is one masked in every band. Per-band masks that differ, as a median over scenes could produce, are represented only through the `Option` of each band.
- Region reductions at `scale: 30` with `maxPixels` limits are modelled as reductions over the sequence of pixels in the region. Tiling and the pixel-count limits are not modelled.
- The display and UI calls (GEE_code.js:5, 140, 166-167, 173, 186-273) have no effect on the computed rasters.
- Standardize reports a missing statistic under the `_mean` key. The `_stdDev` key is absent under exactly the same conditions.

## Findings

| source | as written | input that shows it | evidently intended | confidence | as-written member | corrected member |
|---|---|---|---|---|---|---|
| GEE_code.js:119-123 | NDVI is added to the PCA stack as computed. Only Wetness, LST and NDBSI pass through `standardize`. | NDVI pixels 0.1 and 0.3: the NDVI layer enters with mean 0.2 and variance 0.01, not 0 and 1 | all four indicators standardised before the analysis, so that none is weighted by its raw scale | medium, not executed | Standardization.StackLeavesNdviRaw | Standardization.StackStandardizedCentred |
| GEE_code.js:24-28 | `maskL8sr` tests bits 3 and 5 of the Collection 2 `QA_PIXEL` word (`LANDSAT/LC08/C02/T1_L2`, line 33), where bit 3 is cloud, bit 4 cloud shadow and bit 5 snow. Bits 3 and 5 are the cloud-shadow and cloud bits of the older Collection 1 `pixel_qa` word. | a QA word with only bit 4 (cloud shadow) set keeps the pixel; one with only bit 5 (snow) set masks it | mask cloud and cloud shadow, as the names `cloudShadowBitMask` and `cloudsBitMask` say: bits 3 and 4 | medium, not executed | CloudMask.ShadowKeptSnowMasked | CloudMask.IsClearCorrectedIffFlagsUnset |
