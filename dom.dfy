/** The draggable tile element and the offset it accumulates while it is
    dragged: its `data-x`/`data-y` attributes and its visual translation. */
module Dom {

  /** The value of a `data-x` or `data-y` attribute: absent until the first
      move, then a whole number of pixels. */
  datatype Attr = Absent | Value(px: int)

  /** `parseFloat(attr) || 0`: an absent attribute reads as 0. */
  function OrZero(a: Attr): int
  {
    match a
    case Absent => 0
    case Value(px) => px
  }

  /** One move step on one axis: the stored offset (absent read as 0) plus
      the event's delta. */
  function Moved(a: Attr, d: int): (r: Attr)
    ensures r.Value? && r.px - d == OrZero(a)
  {
    Value(OrZero(a) + d)
  }

  /** The stored offset after the move events with the given deltas, in
      dispatch order, starting from `a`. */
  function AfterMoves(a: Attr, deltas: seq<int>): Attr
    decreases |deltas|
  {
    if deltas == [] then a else AfterMoves(Moved(a, deltas[0]), deltas[1..])
  }

  function Sum(deltas: seq<int>): int
    decreases |deltas|
  {
    if deltas == [] then 0 else deltas[0] + Sum(deltas[1..])
  }

  /** After at least one move the offset is the starting offset (absent read
      as 0) plus the sum of all deltas; with no move it is untouched. */
  lemma {:induction false} AfterMovesSum(a: Attr, deltas: seq<int>)
    ensures AfterMoves(a, deltas) == if deltas == [] then a else Value(OrZero(a) + Sum(deltas))
    decreases |deltas|
  {
    if deltas != [] {
      AfterMovesSum(Moved(a, deltas[0]), deltas[1..]);
    }
  }

  /** A gesture on a tile that has never been dragged ends with the sum of
      its deltas stored. */
  lemma AfterMovesFromAbsent(deltas: seq<int>)
    requires deltas != []
    ensures AfterMoves(Absent, deltas) == Value(Sum(deltas))
  {
    AfterMovesSum(Absent, deltas);
  }

  /** A tile reset to (0, 0) by an earlier release accumulates the next
      gesture exactly as a tile that was never dragged. */
  lemma AfterMovesFromReset(deltas: seq<int>)
    ensures deltas != [] ==> AfterMoves(Value(0), deltas) == AfterMoves(Absent, deltas)
  {
    AfterMovesSum(Value(0), deltas);
    AfterMovesSum(Absent, deltas);
  }

  /** One more move event after a sequence of them is one more `Moved`
      step: consecutive `DragMove` calls compose into `AfterMoves`. */
  lemma {:induction false} AfterMovesAppend(a: Attr, deltas: seq<int>, d: int)
    ensures AfterMoves(a, deltas + [d]) == Moved(AfterMoves(a, deltas), d)
    decreases |deltas|
  {
    if deltas == [] {
      assert deltas + [d] == [d];
    } else {
      assert (deltas + [d])[0] == deltas[0];
      assert (deltas + [d])[1..] == deltas[1..] + [d];
      AfterMovesAppend(Moved(a, deltas[0]), deltas[1..], d);
    }
  }

  /** A rendered upload-list tile. Its layout box (`offsetLeft`,
      `offsetTop`, `offsetWidth`, `offsetHeight`) ignores the translation;
      the drag state lives in the attributes and the transform. */
  class Element {
    var dataX: Attr
    var dataY: Attr
    var translateX: int
    var translateY: int
    const offsetLeft: int
    const offsetTop: int
    const offsetWidth: nat
    const offsetHeight: nat

    constructor (left: int, top: int, width: nat, height: nat)
      ensures dataX == Absent && dataY == Absent
      ensures translateX == 0 && translateY == 0
      ensures offsetLeft == left && offsetTop == top
      ensures offsetWidth == width && offsetHeight == height
    {
      dataX, dataY := Absent, Absent;
      translateX, translateY := 0, 0;
      offsetLeft, offsetTop := left, top;
      offsetWidth, offsetHeight := width, height;
    }

    /** The move listener: accumulate the event's delta into the stored
        offset and translate the element by the new offset. */
    method DragMove(dx: int, dy: int)
      modifies this
      ensures dataX == Moved(old(dataX), dx) && dataY == Moved(old(dataY), dy)
      ensures dataX == Value(translateX) && dataY == Value(translateY)
    {
      var x := OrZero(dataX) + dx;
      var y := OrZero(dataY) + dy;
      translateX, translateY := x, y;
      dataX, dataY := Value(x), Value(y);
    }

    /** The last step of a release: translation and stored offset back to
        (0, 0), whatever they were, so a second reset changes nothing. */
    method ResetOffset()
      modifies this
      ensures dataX == Value(0) && dataY == Value(0)
      ensures translateX == 0 && translateY == 0
    {
      translateX, translateY := 0, 0;
      dataX, dataY := Value(0), Value(0);
    }
  }
}
