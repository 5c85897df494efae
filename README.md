# CounterView marker ring

A model of the bookkeeping in `CounterView`. This is the decorative scanning dial
of the FaceRecognitionCoreML iOS demo. The dial is a ring of 80 tick markers
(`numberOfGlasses`), and each marker is drawn twice: a gray inner marker kept in
`layers`, and an outer marker kept in the parallel list `secondLayers`.
`startScanning` draws the ring. `removeAllActiveFaces` clears it. For each of the
nine head-pose buckets of `DetectFace`, `getLayer` cuts a fixed slice out of both
lists. `runAnimation` then animates the two slices pair by pair. For every
position it fades the gray marker, turns the outer marker green and plays a
`strokeEnd` keyframe whose peak depends on the position.

Modules:

- `Wrappers`: `Option`, for Swift's optional results.
- `DetectFaces`: the nine buckets with their `Int` raw values (`front = 1` …
  `right = 9`), `init?(rawValue:)` and `allCases`.
- `MarkerRing`: `getLayer` as a function over two sequences of an opaque layer
  type `L`. Each bucket's slices are a table of Swift half-open ranges (`Spans`).
  The ring positions they cover are `Indices`. `Gather` cuts the ranges out of a
  list. The module also holds the lemmas about widths, disjointness, coverage and
  the wrap-around of `.up`.
- `CounterViews`: the view as a class whose fields are the two lists.
  `StartScanning` and `RemoveAllActiveFaces` update those fields.
  `RunAnimation` walks the two slices in step. The keyframe rule is `KeyframeTarget`.

Keyframe values are in hundredths. Swift's `0.7 + 0.04 * index` becomes
`70 + 4 * index`, and the keyframes `[0.5, target, 0.7]` become `[50, target, 70]`.

## Model

| member | source | states |
|---|---|---|
| `DetectFaces.RawValue` | FaceRecognitionCoreML/CounterView.swift:12-22 | raw values lie in 1..9, and 1 is `.front` |
| `DetectFaces.FromRawValue` | FaceRecognitionCoreML/CounterView.swift:12-22 | `init?(rawValue:)` succeeds exactly for 1..9, and the case it yields has that raw value |
| `DetectFaces.RawValueRoundTrip` | FaceRecognitionCoreML/CounterView.swift:12-22 | reading a case back from its raw value yields the same case |
| `DetectFaces.AllCases` | FaceRecognitionCoreML/CounterView.swift:12-22 | `allCases` has nine entries in declaration order; entry `i` has raw value `i + 1` |
| `DetectFaces.AllCasesComplete` | FaceRecognitionCoreML/CounterView.swift:12-22 | every case is in `allCases`, at the position its raw value gives |
| `MarkerRing.Gather` | FaceRecognitionCoreML/CounterView.swift:156-186 | concatenating the slices of a list yields, at each position `k`, the marker at ring position `Positions(spans)[k]`, and that position is in bounds |
| `MarkerRing.GetLayerAsWritten` | FaceRecognitionCoreML/CounterView.swift:153-189 | the code as written returns nil exactly when either list holds at most 75 markers; it traps exactly for `.up` when both lists pass the guard but one holds fewer than 80 |
| `MarkerRing.GetLayer` | FaceRecognitionCoreML/CounterView.swift:153-189 | the corrected lookup returns nil when either list holds at most 75 markers, or for `.up` when either holds fewer than 80, and in no other case; otherwise both results have the same length and take the same ring positions `Indices(d)` from `layers` and `secondLayers` |
| `MarkerRing.SpansInBounds` | FaceRecognitionCoreML/CounterView.swift:154-156 | for `.up`, the ranges fit a list exactly when it holds at least 80 markers; for every other bucket, the ranges fit any list of at least 75 |
| `MarkerRing.GetLayerCorrectsOnlyTheTrap` | FaceRecognitionCoreML/CounterView.swift:154-156 | the corrected lookup gives the same slices as the code as written wherever that code neither traps nor returns nil, and returns nil where the code as written traps or returns nil |
| `MarkerRing.UpTrapsOnPartialRing` | FaceRecognitionCoreML/CounterView.swift:154-156 | with 76 markers in each list, the code as written traps on `.up`, and the corrected lookup returns nil |
| `MarkerRing.Side` | FaceRecognitionCoreML/CounterView.swift:159-186 | the seven ten-marker buckets in the order `upToRight, right, downToRight, down, downToLeft, left, upToLeft`; none of them is `.up` or `.front` |
| `MarkerRing.SideIndices` | FaceRecognitionCoreML/CounterView.swift:159-186 | side bucket `k` covers exactly ring positions `5 + 10k ..< 15 + 10k` |
| `MarkerRing.SideMembership` | FaceRecognitionCoreML/CounterView.swift:159-186 | a position is in side `k` if and only if it lies in `5 ..< 75` and `(i - 5) / 10 == k`, so the seven sides are pairwise disjoint and together cover exactly `5 ..< 75` |
| `MarkerRing.UpIndices` | FaceRecognitionCoreML/CounterView.swift:155-156 | `.up` covers the eleven positions `(75 + j) mod 80` for `j` in `0 ..< 11`: 75 to 79, then 0 to 5 |
| `MarkerRing.UpMembership` | FaceRecognitionCoreML/CounterView.swift:155-186 | a position is in `.up` if and only if it is at most 5 or lies in `75 ..< 80`; `.up` shares only position 5 with the sides, and that position belongs to `.upToRight` |
| `MarkerRing.IndicesWidth` | FaceRecognitionCoreML/CounterView.swift:155-188 | `.up` covers 11 positions, `.front` covers none, and every other bucket covers 10 |
| `MarkerRing.BucketOf` | FaceRecognitionCoreML/CounterView.swift:155-186 | every one of the 80 ring positions belongs to some bucket other than `.front` |
| `MarkerRing.IndicesWithinRing` | FaceRecognitionCoreML/CounterView.swift:155-186 | no bucket covers a position outside the 80-marker ring |
| `CounterViews.KeyframeTarget` | FaceRecognitionCoreML/CounterView.swift:72-77 | for indices 0..19 the middle keyframe lies in [70, 106] hundredths, and it reaches 106 only at indices 9 and 10 |
| `CounterViews.KeyframeSymmetric` | FaceRecognitionCoreML/CounterView.swift:72-77 | `target(i) == target(19 - i)` for `0 <= i <= 19` |
| `CounterViews.KeyframeUnimodal` | FaceRecognitionCoreML/CounterView.swift:72-77 | the target strictly rises up to index 9 and strictly falls from index 10 |
| `CounterViews.Animation` | FaceRecognitionCoreML/CounterView.swift:69-86 | the first layer is dimmed, the second layer is lit, and the keyframes are 50, then `KeyframeTarget(index)`, then 70; for indices 0..19 the middle keyframe lies in [70, 106] |
| `CounterViews.CounterView.constructor` | FaceRecognitionCoreML/CounterView.swift:25-26 | a new view starts with both marker lists empty |
| `CounterViews.CounterView.StartScanning` | FaceRecognitionCoreML/CounterView.swift:41-67 | appends exactly one marker to each list for each index `1...80`, in order (position `p` holds the marker drawn for index `p + 1`), so lists that start empty end with 80 markers each |
| `CounterViews.CounterView.RemoveAllActiveFaces` | FaceRecognitionCoreML/CounterView.swift:144-151 | both lists are empty afterwards |
| `CounterViews.CounterView.RunAnimation` | FaceRecognitionCoreML/CounterView.swift:132-142 | returns no animations when the lookup gives nil or for `.front`; otherwise returns one animation per covered position, pairing `layers` and `secondLayers` at the same ring position and using position index `i`; every target lies in [70, 106]; where the code as written would trap, it returns no animations |
| `CounterViews.ScannedRingAnswersEveryBucket` | FaceRecognitionCoreML/CounterView.swift:46-53 | after a full scan from empty lists every bucket gets an answer, and bucket `d` animates the markers drawn for indices `Indices(d)[k] + 1` |

## Findings

| source | as written | input that shows it | evidently intended | confidence | as-written member | corrected member |
|---|---|---|---|---|---|---|
| FaceRecognitionCoreML/CounterView.swift:154-156 | the guard requires only `layers.count > 75 && secondLayers.count > 75`, but the `.up` slice `layers[75..<80]` reads up to index 79 | `runAnimation(detect: .up)` when both lists hold 76 to 79 markers, and the Swift slice then traps. This needs a caller that runs `runAnimation` between `startScanning`'s queued appends. No such caller is part of this model: in `FaceRecognitionCoreML/FaceRecognitionViewController.swift` the view's setup is commented out | `.up` answers only once both lists hold the full ring of 80 markers, and returns nil before that | high for the trap, which follows from Swift's slice bounds check; not executed | `MarkerRing.GetLayerAsWritten`, `MarkerRing.UpTrapsOnPartialRing` | `MarkerRing.GetLayer`, `MarkerRing.GetLayerCorrectsOnlyTheTrap` |

`RunAnimation` and the rest of the model use the corrected `GetLayer`. For every
other bucket, and for lists of at most 75 or at least 80 markers, it answers
exactly as the original code does.

## Left out

- Marker geometry. The paths drawn by `firstLayer`/`secondLayer` use `cos`/`sin` on
  floating point, so layers are an opaque type. `StartScanning` takes the two
  marker factories as parameters, as functions from index to layer.
- Colours, opacity, line width and the `strokeEnd` `CABasicAnimation` added to each
  new marker in `startScanning`. These are rendering side effects.
- The layer tree. `addSublayer`, `zPosition` and `removeFromSuperlayer` are not
  modelled, because the view's sublayers are not part of the model's state.
- `CounterViews.CounterView.RunAnimation`: the source changes the two layers in
  place. The model returns the changes as an ordered list of `MarkerAnimation`
  records instead (the layer dimmed, the layer lit, the keyframes). The model
  therefore says nothing about aliasing between layer objects.
- `CounterViews.CounterView.RunAnimation`: built on the corrected `GetLayer`. On `.up` with 76 to 79
  markers in the lists, the source traps, but the model returns no animations (see "## Findings").
- `CounterViews.Animation`: the other settings of the `CAKeyframeAnimation` are not modelled. These
  are `duration = 0.8`, the `.easeInEaseOut` timing function, `fillMode = .forwards` and
  `isRemovedOnCompletion = false`. The animation's `keyPath` is implied to be `strokeEnd`.
- `CounterViews.KeyframeTarget`: the source computes `0.7 + 0.04 * index` in `Double`.
  The model uses exact integer hundredths, not the rounded binary value.
- `DispatchQueue.main.async` and `asyncAfter`. Each queued body is modelled as one
  sequential step that runs at once. The model does not cover other work
  interleaving with those steps. The finding above is about the partially filled
  lists such interleaving exposes.
- The initializers `init(frame:)` and `init?(coder:)` set the background colour.
  Only their effect on the two lists is modelled (`CounterView.constructor`).
- `FaceRecognitionCoreML/FaceRecognitionViewController.swift` and
  `FaceRecognitionCoreML/matrix_float4x4.swift` are not part of this model. They
  hold ARKit/UIKit session and layout code and floating-point Euler-angle
  trigonometry.
