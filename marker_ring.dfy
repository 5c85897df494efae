/** The index arithmetic of `CounterView.getLayer`: which markers of the ring of
    tick marks light up for each head-pose bucket. The two marker lists are
    sequences of an opaque layer type `L`. */
module MarkerRing {
  import opened Wrappers
  import opened DetectFaces

  /** `numberOfGlasses`: the number of markers drawn around the ring. */
  const NumberOfGlasses: nat := 80

  /** `getLayer` answers only when both lists hold more than this many markers. */
  const GuardCount: nat := 75

  /** A Swift half-open index range `lo..<hi`; the one-sided `...5` is `Span(0, 6)`. */
  datatype Span = Span(lo: nat, hi: nat)

  /** What `getLayer` returns: the markers cut from `layers` and from
      `secondLayers` (the source calls the second component `sencond`). */
  datatype Slices<L> = Slices(first: seq<L>, second: seq<L>)

  /** The outcome of the lookup as the source writes it: `nil`, a value, or a
      run-time trap from a slice that reaches past the end of a list. */
  datatype Lookup<L> = Nil | Value(slices: Slices<L>) | Trap

  /** The ranges `getLayer` cuts out of each list for a bucket, in the order it
      concatenates them. */
  function Spans(d: DetectFace): seq<Span>
  {
    match d
    case Up => [Span(75, 80), Span(0, 6)]
    case UpToRight => [Span(5, 15)]
    case Right => [Span(15, 25)]
    case DownToRight => [Span(25, 35)]
    case Down => [Span(35, 45)]
    case DownToLeft => [Span(45, 55)]
    case Left => [Span(55, 65)]
    case UpToLeft => [Span(65, 75)]
    case Front => []
  }

  /** Every range is ascending. */
  predicate Ascending(spans: seq<Span>)
  {
    forall k :: 0 <= k < |spans| ==> spans[k].lo <= spans[k].hi
  }

  /** Swift accepts `s[lo..<hi]` for every range when `|s| == n`. */
  predicate InBounds(spans: seq<Span>, n: nat)
  {
    Ascending(spans) && forall k :: 0 <= k < |spans| ==> spans[k].hi <= n
  }

  /** The ring positions `lo, lo + 1, ..., hi - 1`. */
  function Range(lo: nat, hi: nat): (r: seq<nat>)
    requires lo <= hi
    ensures |r| == hi - lo
    ensures forall k :: 0 <= k < |r| ==> r[k] == lo + k
  {
    seq(hi - lo, k requires 0 <= k < hi - lo => lo + k)
  }

  /** The ring positions the ranges cover, in order. */
  function Positions(spans: seq<Span>): seq<nat>
    requires Ascending(spans)
    decreases |spans|
  {
    if spans == [] then [] else Range(spans[0].lo, spans[0].hi) + Positions(spans[1..])
  }

  /** The ring positions bucket `d` highlights, in the order they are animated. */
  function Indices(d: DetectFace): seq<nat>
  {
    Positions(Spans(d))
  }

  /** The markers cut out of one list: the slices of `s` named by `spans`,
      concatenated. Element `k` of the result is the marker at ring position
      `Positions(spans)[k]`. */
  function Gather<L>(s: seq<L>, spans: seq<Span>): (r: seq<L>)
    requires InBounds(spans, |s|)
    ensures |r| == |Positions(spans)|
    ensures forall k :: 0 <= k < |r| ==> Positions(spans)[k] < |s| && r[k] == s[Positions(spans)[k]]
    decreases |spans|
  {
    if spans == [] then []
    else s[spans[0].lo..spans[0].hi] + Gather(s, spans[1..])
  }

  /** `getLayer` as written: the guard tests `count > 75` only, so a slice
      that reaches past the end of a list traps. */
  function GetLayerAsWritten<L>(layers: seq<L>, secondLayers: seq<L>, d: DetectFace): (r: Lookup<L>)
    ensures r.Nil? <==> |layers| <= GuardCount || |secondLayers| <= GuardCount
    ensures r.Trap? <==>
      d == Up && GuardCount < |layers| && GuardCount < |secondLayers| &&
      (|layers| < NumberOfGlasses || |secondLayers| < NumberOfGlasses)
  {
    if !(|layers| > GuardCount && |secondLayers| > GuardCount) then Nil
    else if !InBounds(Spans(d), |layers|) || !InBounds(Spans(d), |secondLayers|) then Trap
    else Value(Slices(Gather(layers, Spans(d)), Gather(secondLayers, Spans(d))))
  }

  /** `getLayer` with the guard corrected: `.up` also waits for the full ring of
      `NumberOfGlasses` markers; every other answer is unchanged. Both lists
      yield the markers at the same ring positions, `Indices(d)`. */
  function GetLayer<L>(layers: seq<L>, secondLayers: seq<L>, d: DetectFace): (r: Option<Slices<L>>)
    ensures r.None? <==>
      |layers| <= GuardCount || |secondLayers| <= GuardCount ||
      (d == Up && (|layers| < NumberOfGlasses || |secondLayers| < NumberOfGlasses))
    ensures r.Some? ==>
      |r.value.first| == |r.value.second| == |Indices(d)| &&
      forall k :: 0 <= k < |Indices(d)| ==>
        Indices(d)[k] < |layers| && Indices(d)[k] < |secondLayers| &&
        r.value.first[k] == layers[Indices(d)[k]] &&
        r.value.second[k] == secondLayers[Indices(d)[k]]
  {
    if |layers| > GuardCount && |secondLayers| > GuardCount &&
       (d == Up ==> |layers| >= NumberOfGlasses && |secondLayers| >= NumberOfGlasses)
    then
      SpansInBounds(d, |layers|);
      SpansInBounds(d, |secondLayers|);
      Some(Slices(Gather(layers, Spans(d)), Gather(secondLayers, Spans(d))))
    else None
  }

  /** The `.up` ranges fit a list exactly when it holds the whole ring; every
      other bucket's ranges fit any list the `> 75` guard admits. */
  lemma SpansInBounds(d: DetectFace, n: nat)
    ensures d == Up ==> (InBounds(Spans(d), n) <==> n >= NumberOfGlasses)
    ensures d != Up && n >= GuardCount ==> InBounds(Spans(d), n)
  {
    assert Spans(Up)[0].hi == NumberOfGlasses;
  }

  /** The corrected lookup agrees with the code as written on every input where
      the latter does not trap, and where it traps the corrected one answers `nil`. */
  lemma GetLayerCorrectsOnlyTheTrap<L>(layers: seq<L>, secondLayers: seq<L>, d: DetectFace)
    ensures GetLayerAsWritten(layers, secondLayers, d).Nil? ==> GetLayer(layers, secondLayers, d).None?
    ensures GetLayerAsWritten(layers, secondLayers, d).Trap? ==> GetLayer(layers, secondLayers, d).None?
    ensures GetLayerAsWritten(layers, secondLayers, d).Value? ==>
      GetLayer(layers, secondLayers, d) == Some(GetLayerAsWritten(layers, secondLayers, d).slices)
  {
  }

  /** A concrete input the `> 75` guard lets through and the `.up` slice then
      traps on: 76 markers in each list, which `startScanning` passes through
      while it is still appending. */
  lemma UpTrapsOnPartialRing()
    ensures GetLayerAsWritten(seq(76, k => k), seq(76, k => k), Up) == Trap
    ensures GetLayer(seq(76, k => k), seq(76, k => k), Up) == None
  {
  }

  /** The seven ten-marker buckets, clockwise from the top right. */
  function Side(k: nat): (d: DetectFace)
    requires k < 7
    ensures d != Up && d != Front
  {
    [UpToRight, Right, DownToRight, Down, DownToLeft, Left, UpToLeft][k]
  }

  /** Bucket `Side(k)` highlights exactly the ten positions `5 + 10k ..< 15 + 10k`. */
  lemma SideIndices(k: nat)
    requires k < 7
    ensures Indices(Side(k)) == Range(5 + 10 * k, 15 + 10 * k)
  {
  }

  /** A position belongs to side `k` exactly when it lies in `5 ..< 75` and
      `k` is its ten-marker block: the seven sides are pairwise disjoint and
      together cover `5 ..< 75`. */
  lemma SideMembership(k: nat, i: nat)
    requires k < 7
    ensures i in Indices(Side(k)) <==> 5 <= i < 75 && (i - 5) / 10 == k
  {
    SideIndices(k);
    var r := Range(5 + 10 * k, 15 + 10 * k);
    if 5 <= i < 75 && (i - 5) / 10 == k {
      assert r[i - 5 - 10 * k] == i;
    }
    if i in r {
      var j :| 0 <= j < |r| && r[j] == i;
      assert i == 5 + 10 * k + j;
    }
  }

  /** The `.up` bucket wraps around the ring: positions 75 to 79 and then 0 to 5. */
  lemma UpIndices()
    ensures Indices(Up) == seq(11, j requires 0 <= j < 11 => (75 + j) % NumberOfGlasses)
  {
  }

  /** A position belongs to `.up` exactly when it is one of the five before the
      top or the six from the top; so `.up` shares with the sides only position
      5, which is also the first of `.upToRight`. */
  lemma UpMembership(i: nat)
    ensures i in Indices(Up) <==> i <= 5 || 75 <= i < NumberOfGlasses
    ensures forall k :: 0 <= k < 7 ==> (i in Indices(Up) && i in Indices(Side(k)) <==> k == 0 && i == 5)
  {
    UpIndices();
    var r := Indices(Up);
    if i <= 5 {
      assert r[i + 5] == i;
    } else if 75 <= i < NumberOfGlasses {
      assert r[i - 75] == i;
    }
    forall k | 0 <= k < 7
      ensures i in Indices(Up) && i in Indices(Side(k)) <==> k == 0 && i == 5
    {
      SideMembership(k, i);
    }
  }

  /** How many markers each bucket animates: eleven for `.up`, none for
      `.front`, ten for the rest. */
  lemma IndicesWidth(d: DetectFace)
    ensures |Indices(d)| == if d == Up then 11 else if d == Front then 0 else 10
  {
  }

  /** The bucket that owns ring position `i` (for position 5, shared by `.up`
      and `.upToRight`, the side). */
  function BucketOf(i: nat): (d: DetectFace)
    requires i < NumberOfGlasses
    ensures d != Front && i in Indices(d)
  {
    if 5 <= i < 75 then
      SideMembership((i - 5) / 10, i);
      Side((i - 5) / 10)
    else
      UpMembership(i);
      Up
  }

  /** No bucket reaches outside the ring of `NumberOfGlasses` markers. */
  lemma IndicesWithinRing(d: DetectFace, k: nat)
    requires k < |Indices(d)|
    ensures Indices(d)[k] < NumberOfGlasses
  {
  }
}
