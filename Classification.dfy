/** The LSES threshold ladder that turns the index into five ecological
    quality classes, 1 (lowest) to 5 (highest). */
module Classification {
  import opened Raster

  const THRESHOLDS: seq<real> := [0.2, 0.4, 0.6, 0.8]

  /** The nested conditional of the LSES expression, thresholds tested in
      ascending order with inclusive upper bounds. The class is one more than the number of leading thresholds `v` exceeds. */
  function ClassOf(v: real, t: seq<real>): (c: int)
    requires |t| == 4
    ensures 1 <= c <= 5
    ensures c <= 4 ==> v <= t[c - 1]
    ensures forall j :: 0 <= j < c - 1 ==> v > t[j]
  {
    if v <= t[0] then 1
    else if v <= t[1] then 2
    else if v <= t[2] then 3
    else if v <= t[3] then 4
    else 5
  }

  /** The position of the first threshold at or above `v`, or `|t|` if none is:
      a ladder of any length, stated by recursion on the thresholds. */
  function FirstNotBelow(v: real, t: seq<real>): (k: nat)
    ensures k <= |t|
  {
    if |t| == 0 then 0
    else if v <= t[0] then 0
    else 1 + FirstNotBelow(v, t[1..])
  }

  /** The written-out ladder is the general one on four thresholds. */
  lemma ClassOfIsFirstNotBelow(v: real, t: seq<real>)
    requires |t| == 4
    ensures ClassOf(v, t) == FirstNotBelow(v, t) + 1
  {
    var t1 := t[1..];
    var t2 := t1[1..];
    var t3 := t2[1..];
    assert t1[0] == t[1] && t2[0] == t[2] && t3[0] == t[3];
    var k3 := FirstNotBelow(v, t3);
    assert k3 == if v <= t[3] then 0 else 1;
    var k2 := FirstNotBelow(v, t2);
    assert k2 == if v <= t[2] then 0 else 1 + k3;
    var k1 := FirstNotBelow(v, t1);
    assert k1 == if v <= t[1] then 0 else 1 + k2;
  }

  /** With ascending thresholds a larger value never gets a lower class. */
  lemma ClassMonotone(v: real, w: real, t: seq<real>)
    requires |t| == 4 && t[0] <= t[1] <= t[2] <= t[3]
    requires v <= w
    ensures ClassOf(v, t) <= ClassOf(w, t)
  {
  }

  /** With strictly ascending thresholds every class 1..5 is reached: class
      `k <= 4` by the threshold `t[k - 1]` itself, class 5 by anything above `t[3]`. */
  lemma ClassOnto(t: seq<real>, k: int)
    requires |t| == 4 && t[0] < t[1] < t[2] < t[3]
    requires 1 <= k <= 5
    ensures ClassOf(if k <= 4 then t[k - 1] else t[3] + 1.0, t) == k
  {
  }

  /** On the script's thresholds: the class boundaries are inclusive, so 0.2
      is class 1 and 0.8 is class 4; the index ends 0 and 1 are classes 1 and 5. */
  lemma LsesBoundaries()
    ensures ClassOf(0.0, THRESHOLDS) == 1 && ClassOf(0.2, THRESHOLDS) == 1
    ensures ClassOf(0.5, THRESHOLDS) == 3
    ensures ClassOf(0.8, THRESHOLDS) == 4 && ClassOf(1.0, THRESHOLDS) == 5
  {
  }

  /** The class of one index pixel; a masked pixel has no class. */
  function ClassifyPixel(p: Pixel): (r: Option<int>)
    ensures r.Some? <==> p.Some?
    ensures r.Some? ==> 1 <= r.value <= 5
  {
    if p.Some? then Some(ClassOf(p.value, THRESHOLDS)) else None
  }

  /** The LSES class band. */
  function ClassifyBand(rsei: seq<Pixel>): (r: seq<Option<int>>)
    ensures |r| == |rsei|
    ensures forall i :: 0 <= i < |rsei| ==> r[i] == ClassifyPixel(rsei[i])
    ensures forall i :: 0 <= i < |rsei| ==> (r[i].Some? <==> rsei[i].Some?)
    ensures forall i :: 0 <= i < |rsei| && rsei[i].Some? ==> r[i].value == ClassOf(rsei[i].value, THRESHOLDS)
  {
    MapPixels(rsei, ClassifyPixel)
  }
}
