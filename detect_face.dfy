/** The nine head-pose buckets of `CounterView.DetectFace`, an `Int`-backed,
    `CaseIterable` Swift enum whose raw values start at 1. */
module DetectFaces {
  import opened Wrappers

  datatype DetectFace =
    | Front
    | UpToLeft
    | UpToRight
    | DownToLeft
    | DownToRight
    | Up
    | Down
    | Left
    | Right

  /** The raw value Swift assigns: `front = 1`, every later case one more. */
  function RawValue(d: DetectFace): (r: int)
    ensures 1 <= r <= 9
    ensures r == 1 <==> d == Front
  {
    match d
    case Front => 1
    case UpToLeft => 2
    case UpToRight => 3
    case DownToLeft => 4
    case DownToRight => 5
    case Up => 6
    case Down => 7
    case Left => 8
    case Right => 9
  }

  /** The failable `init?(rawValue:)` Swift synthesises for the enum. */
  function FromRawValue(n: int): (r: Option<DetectFace>)
    ensures r.Some? <==> 1 <= n <= 9
    ensures r.Some? ==> RawValue(r.value) == n
  {
    if n == 1 then Some(Front)
    else if n == 2 then Some(UpToLeft)
    else if n == 3 then Some(UpToRight)
    else if n == 4 then Some(DownToLeft)
    else if n == 5 then Some(DownToRight)
    else if n == 6 then Some(Up)
    else if n == 7 then Some(Down)
    else if n == 8 then Some(Left)
    else if n == 9 then Some(Right)
    else None
  }

  /** Reading a case back from its raw value gives the same case. */
  lemma RawValueRoundTrip(d: DetectFace)
    ensures FromRawValue(RawValue(d)) == Some(d)
  {
  }

  /** `DetectFace.allCases`: every case once, in declaration order. */
  function AllCases(): (r: seq<DetectFace>)
    ensures |r| == 9
    ensures forall i :: 0 <= i < |r| ==> RawValue(r[i]) == i + 1
  {
    [Front, UpToLeft, UpToRight, DownToLeft, DownToRight, Up, Down, Left, Right]
  }

  /** Every case is listed in `allCases`, at the position its raw value gives. */
  lemma AllCasesComplete(d: DetectFace)
    ensures d in AllCases()
    ensures AllCases()[RawValue(d) - 1] == d
  {
  }
}
