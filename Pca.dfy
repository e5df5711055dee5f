/** What the script does around the principal component analysis that it can
    state exactly: the band names given to the projected components, the
    selection of the first component, and its clamp to [-4, 4]. The
    components themselves come from the library's eigen-decomposition and
    are inputs here. */
module Pca {
  import opened Raster

  /** `getNewBandNames(prefix)`: `prefix` followed by 1, 2, 3 and 4. */
  function NewBandNames(prefix: string): (r: seq<string>)
    ensures |r| == 4
    ensures forall i :: 0 <= i < 4 ==> |r[i]| == |prefix| + 1 && r[i][..|prefix|] == prefix
  {
    seq(4, i requires 0 <= i < 4 => prefix + [Digit(i + 1)])
  }

  /** The decimal digit of a number below ten, as `ee.Number(i).int()` prints it. */
  function Digit(n: nat): (c: char)
    requires n < 10
    ensures '0' <= c <= '9'
  {
    ('0' as int + n) as char
  }

  /** The generated names are pairwise distinct, and name `i` ends in digit `i + 1`. */
  lemma NewBandNamesDistinct(prefix: string)
    ensures forall i :: 0 <= i < 4 ==> NewBandNames(prefix)[i][|prefix|] == Digit(i + 1)
    ensures forall i, j :: 0 <= i < j < 4 ==> NewBandNames(prefix)[i] != NewBandNames(prefix)[j]
  {
    var r := NewBandNames(prefix);
    forall i, j | 0 <= i < j < 4
      ensures r[i] != r[j]
    {
      assert r[i][|prefix|] == Digit(i + 1);
      assert r[j][|prefix|] == Digit(j + 1);
    }
  }

  /** `select(name)` on a multi-band image: the position of the first band with that name. */
  function Select(names: seq<string>, name: string): (r: Option<nat>)
    ensures r.None? <==> name !in names
    ensures r.Some? ==> r.value < |names| && names[r.value] == name
    ensures r.Some? ==> forall j :: 0 <= j < r.value ==> names[j] != name
  {
    if |names| == 0 then None
    else if names[0] == name then Some(0)
    else match Select(names[1..], name)
      case None => None
      case Some(k) => Some(k + 1)
  }

  /** `select('pc1')` after `arrayFlatten([getNewBandNames('pc')])` picks the
      first projected component, and `pc5` names no band. */
  lemma Pc1IsFirstComponent()
    ensures NewBandNames("pc") == ["pc1", "pc2", "pc3", "pc4"]
    ensures Select(NewBandNames("pc"), "pc1") == Some(0)
    ensures Select(NewBandNames("pc"), "pc5").None?
  {
    var r := NewBandNames("pc");
    assert r[0] == "pc1" && r[1] == "pc2" && r[2] == "pc3" && r[3] == "pc4";
    assert r == ["pc1", "pc2", "pc3", "pc4"];
    assert "pc5" != "pc1" && "pc5" != "pc2" && "pc5" != "pc3" && "pc5" != "pc4";
  }

  /** Each generated name selects its own component, whatever the prefix. */
  lemma SelectNewBandName(prefix: string, i: nat)
    requires i < 4
    ensures Select(NewBandNames(prefix), NewBandNames(prefix)[i]) == Some(i)
  {
    NewBandNamesDistinct(prefix);
  }

  /** The bounds of `clamp(-4, 4)`. */
  const PC1_LOW: real := -4.0
  const PC1_HIGH: real := 4.0

  /** `clamp(-4, 4)` at one pixel: values below -4 become -4, above 4 become 4. */
  function Clamp(p: Pixel): (r: Pixel)
    ensures r.Some? <==> p.Some?
    ensures r.Some? ==> PC1_LOW <= r.value <= PC1_HIGH
    ensures r.Some? && PC1_LOW <= p.value <= PC1_HIGH ==> r == p
  {
    if p.None? then None
    else if p.value < PC1_LOW then Some(PC1_LOW)
    else if p.value > PC1_HIGH then Some(PC1_HIGH)
    else p
  }

  /** Clamping twice is clamping once. */
  lemma ClampIdempotent(p: Pixel)
    ensures Clamp(Clamp(p)) == Clamp(p)
  {
  }

  /** The clamp keeps the order of values (weakly). */
  lemma ClampMonotone(x: real, y: real)
    requires x <= y
    ensures Clamp(Some(x)).value <= Clamp(Some(y)).value
  {
  }

  /** The clamped value is the point of [-4, 4] nearest to the input. */
  lemma ClampIsNearest(x: real, w: real)
    requires PC1_LOW <= w <= PC1_HIGH
    ensures Abs(x - Clamp(Some(x)).value) <= Abs(x - w)
  {
  }

  function Abs(x: real): real {
    if x < 0.0 then -x else x
  }

  /** The clamped first component, band by band; the band keeps its name. */
  function ClampBand(b: Band): (r: Band)
    ensures r.name == b.name && |r.pixels| == |b.pixels|
    ensures forall i :: 0 <= i < |b.pixels| ==> r.pixels[i] == Clamp(b.pixels[i])
  {
    Band(b.name, MapPixels(b.pixels, Clamp))
  }
}
