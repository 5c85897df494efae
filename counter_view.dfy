/** `CounterView`: the ring of tick markers drawn around the face, the two
    parallel marker lists it keeps, and the highlight animation it runs for a
    head-pose bucket. Layers are the opaque type `L`; the drawing of a marker
    is a function from its index to a layer, supplied by the caller. */
module CounterViews {
  import opened Wrappers
  import opened DetectFaces
  import opened MarkerRing

  /** One run of `animation(firstLayer:secondLayer:index:)`: the gray marker
      `dimmed` fades out, the outer marker `lit` turns green and its
      `strokeEnd` is animated through the keyframes (in hundredths). */
  datatype MarkerAnimation<L> = MarkerAnimation(dimmed: L, lit: L, strokeEnd: seq<int>)

  /** The middle keyframe for the marker at position `index` of a highlighted
      run, in hundredths: `0.7 + 0.04 * index` for the first ten positions and
      `0.7 + 0.04 * (19 - index)` after them, so the peak sits in the middle of
      a twenty-marker run. */
  function KeyframeTarget(index: int): (t: int)
    ensures 0 <= index <= 19 ==> 70 <= t <= 106
    ensures t == 106 <==> index == 9 || index == 10
  {
    if index < 10 then 70 + 4 * index else 70 + 4 * (19 - index)
  }

  /** The target is mirror-symmetric over a twenty-marker run. */
  lemma KeyframeSymmetric(i: int)
    requires 0 <= i <= 19
    ensures KeyframeTarget(i) == KeyframeTarget(19 - i)
  {
  }

  /** The target rises strictly up to position 9 and falls strictly from 10. */
  lemma KeyframeUnimodal(i: int, j: int)
    requires 0 <= i < j
    ensures j <= 9 ==> KeyframeTarget(i) < KeyframeTarget(j)
    ensures 10 <= i ==> KeyframeTarget(i) > KeyframeTarget(j)
  {
  }

  /** The animation the view applies to the pair of markers at position `index`
      of a highlighted run: keyframes 0.5, the target, then 0.7. */
  function Animation<L>(firstLayer: L, secondLayer: L, index: int): (a: MarkerAnimation<L>)
    ensures a.dimmed == firstLayer && a.lit == secondLayer
    ensures a.strokeEnd == [50, KeyframeTarget(index), 70]
    ensures 0 <= index <= 19 ==> 70 <= a.strokeEnd[1] <= 106
  {
    MarkerAnimation(firstLayer, secondLayer, [50, KeyframeTarget(index), 70])
  }

  /** The full ring `startScanning` draws with the given marker factory: the
      marker at list position `p` is drawn for index `p + 1`. */
  function Ring<L>(draw: int -> L): seq<L>
  {
    seq(NumberOfGlasses, p requires 0 <= p < NumberOfGlasses => draw(p + 1))
  }

  class CounterView<L> {
    /** The gray inner markers, one per ring position. */
    var layers: seq<L>
    /** The outer markers that light up, parallel to `layers`. */
    var secondLayers: seq<L>

    constructor ()
      ensures layers == [] && secondLayers == []
    {
      layers := [];
      secondLayers := [];
    }

    /** `startScanning`: for every index `1...numberOfGlasses`, draw one marker
        of each kind and append it to its list. */
    method StartScanning(firstLayer: int -> L, secondLayer: int -> L)
      modifies this
      ensures layers == old(layers) + Ring(firstLayer)
      ensures secondLayers == old(secondLayers) + Ring(secondLayer)
    {
      for index := 1 to NumberOfGlasses + 1
        invariant layers == old(layers) + seq(index - 1, p requires 0 <= p < index - 1 => firstLayer(p + 1))
        invariant secondLayers == old(secondLayers) + seq(index - 1, p requires 0 <= p < index - 1 => secondLayer(p + 1))
      {
        layers := layers + [firstLayer(index)];
        secondLayers := secondLayers + [secondLayer(index)];
      }
    }

    /** `removeAllActiveFaces`: drop every marker. */
    method RemoveAllActiveFaces()
      modifies this
      ensures layers == [] && secondLayers == []
    {
      layers := [];
      secondLayers := [];
    }

    /** `runAnimation(detect:)`: look the bucket up and animate its markers
        pairwise, position `i` of both lists with index `i`. The animations are
        returned in the order they are applied. */
    method RunAnimation(detect: DetectFace) returns (steps: seq<MarkerAnimation<L>>)
      ensures GetLayer(layers, secondLayers, detect).None? || detect == Front ==> steps == []
      ensures GetLayerAsWritten(layers, secondLayers, detect).Trap? ==> steps == []
      ensures GetLayer(layers, secondLayers, detect).Some? ==> |steps| == |Indices(detect)|
      ensures forall i :: 0 <= i < |steps| ==>
        i < |Indices(detect)| && Indices(detect)[i] < |layers| && Indices(detect)[i] < |secondLayers| &&
        steps[i] == Animation(layers[Indices(detect)[i]], secondLayers[Indices(detect)[i]], i)
      ensures forall i :: 0 <= i < |steps| ==> |steps[i].strokeEnd| == 3 && 70 <= steps[i].strokeEnd[1] <= 106
    {
      IndicesWidth(detect);
      steps := [];
      var found := GetLayer(layers, secondLayers, detect);
      if found.None? {
        return;
      }
      var detectLayer := found.value;
      if |detectLayer.first| == 0 || |detectLayer.second| == 0 {
        return;
      }
      for i := 0 to |detectLayer.first|
        invariant |steps| == i
        invariant forall j :: 0 <= j < i ==>
          steps[j] == Animation(detectLayer.first[j], detectLayer.second[j], j)
      {
        steps := steps + [Animation(detectLayer.first[i], detectLayer.second[i], i)];
      }
    }
  }

  /** After `startScanning` from empty lists, every bucket is answered, and
      bucket `d` animates the markers drawn for indices `Indices(d)[k] + 1`. */
  lemma ScannedRingAnswersEveryBucket<L>(firstLayer: int -> L, secondLayer: int -> L, d: DetectFace)
    ensures GetLayer(Ring(firstLayer), Ring(secondLayer), d).Some?
    ensures forall k :: 0 <= k < |Indices(d)| ==>
      GetLayer(Ring(firstLayer), Ring(secondLayer), d).value.first[k] == firstLayer(Indices(d)[k] + 1) &&
      GetLayer(Ring(firstLayer), Ring(secondLayer), d).value.second[k] == secondLayer(Indices(d)[k] + 1)
  {
  }
}
