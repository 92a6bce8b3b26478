/** The scan run when a drag is released: which rendered tile is the dragged
    one (the move index) and which other tile it was dropped on (the replace
    index). */
module Collision {
  import opened Dom

  /** What the scan reads of a rendered tile: its stored offset and its
      layout position. */
  datatype Tile = Tile(dataX: Attr, dataY: Attr, left: int, top: int)

  /** What the scan reads of the released element: its stored offset, its
      layout position and its size. */
  datatype Dragged = Dragged(dataX: Attr, dataY: Attr, left: int, top: int, width: nat, height: nat)

  function TileOf(e: Element): Tile
    reads e
  {
    Tile(e.dataX, e.dataY, e.offsetLeft, e.offsetTop)
  }

  function DraggedOf(e: Element): Dragged
    reads e
  {
    Dragged(e.dataX, e.dataY, e.offsetLeft, e.offsetTop, e.offsetWidth, e.offsetHeight)
  }

  /** The rendered tiles as the scan sees them, in display order. */
  function Snapshot(items: seq<Element>): seq<Tile>
    reads items
  {
    seq(|items|, i requires 0 <= i < |items| reads items => TileOf(items[i]))
  }

  function Abs(n: int): nat
  {
    if n < 0 then -n else n
  }

  /** A tile is taken for the dragged one when both of its stored
      attributes equal the dragged element's (absent equals absent). */
  predicate IsSelf(t: Dragged, e: Tile)
  {
    e.dataX == t.dataX && e.dataY == t.dataY
  }

  /** The released element's real position (layout position plus stored
      offset) lies strictly closer than its width and its height to the
      tile's layout position. Without a stored offset the real position is
      not a number, and no comparison holds. */
  predicate Overlaps(t: Dragged, e: Tile)
  {
    t.dataX.Value? && t.dataY.Value? &&
    Abs(t.dataX.px + t.left - e.left) < t.width &&
    Abs(t.dataY.px + t.top - e.top) < t.height
  }

  /** The `else if` branch of the scan: a tile that is not taken for the
      dragged one and that it overlaps. */
  predicate IsReplace(t: Dragged, e: Tile)
  {
    !IsSelf(t, e) && Overlaps(t, e)
  }

  /** The largest index whose element satisfies `p`, or -1 when none does. */
  function LastIndex<T>(s: seq<T>, p: T -> bool): (r: int)
    ensures -1 <= r < |s|
    ensures r >= 0 ==> p(s[r])
    ensures forall j :: r < j < |s| ==> !p(s[j])
    decreases |s|
  {
    if s == [] then -1
    else if p(s[|s| - 1]) then |s| - 1
    else LastIndex(s[..|s| - 1], p)
  }

  /** The move index: the last tile taken for the dragged one, or -1. */
  function SelfIndex(t: Dragged, tiles: seq<Tile>): (r: int)
    ensures -1 <= r < |tiles|
    ensures r >= 0 ==> IsSelf(t, tiles[r])
    ensures forall j :: r < j < |tiles| ==> !IsSelf(t, tiles[j])
  {
    LastIndex(tiles, e => IsSelf(t, e))
  }

  /** The replace index: the last tile that is not taken for the dragged one
      and that it overlaps, or -1. */
  function ReplaceIndex(t: Dragged, tiles: seq<Tile>): (r: int)
    ensures -1 <= r < |tiles|
    ensures r >= 0 ==> !IsSelf(t, tiles[r]) && Overlaps(t, tiles[r])
    ensures forall j :: r < j < |tiles| ==> !IsReplace(t, tiles[j])
  {
    LastIndex(tiles, e => IsReplace(t, e))
  }

  /** The scan loop of the release handler: one pass over the tiles in
      display order, later matches overwriting earlier ones. */
  method Scan(t: Dragged, tiles: seq<Tile>) returns (moveIndex: int, replaceIndex: int)
    ensures moveIndex == SelfIndex(t, tiles)
    ensures replaceIndex == ReplaceIndex(t, tiles)
    ensures moveIndex != -1 && replaceIndex != -1 ==> moveIndex != replaceIndex
  {
    // the real position is not a number when an attribute is absent
    var isNumber := t.dataX.Value? && t.dataY.Value?;
    var realLeft := OrZero(t.dataX) + t.left;
    var realTop := OrZero(t.dataY) + t.top;
    moveIndex, replaceIndex := -1, -1;
    for i := 0 to |tiles|
      invariant moveIndex == SelfIndex(t, tiles[..i])
      invariant replaceIndex == ReplaceIndex(t, tiles[..i])
    {
      assert tiles[..i + 1][..i] == tiles[..i];
      var e := tiles[i];
      if e.dataX == t.dataX && e.dataY == t.dataY {
        moveIndex := i;
      } else if isNumber && Abs(realLeft - e.left) < t.width && Abs(realTop - e.top) < t.height {
        replaceIndex := i;
      }
    }
    assert tiles[..|tiles|] == tiles;
  }

  /** A tile taken for the dragged one is never the one it is dropped on. */
  lemma MoveAndReplaceDiffer(t: Dragged, tiles: seq<Tile>)
    ensures SelfIndex(t, tiles) != -1 && ReplaceIndex(t, tiles) != -1 ==>
            SelfIndex(t, tiles) != ReplaceIndex(t, tiles)
  {
  }

  /** When the released element is one of the rendered tiles, the scan
      finds a move index, at or after that tile. */
  lemma SelfFound(t: Dragged, tiles: seq<Tile>, k: nat)
    requires k < |tiles| && IsSelf(t, tiles[k])
    ensures k <= SelfIndex(t, tiles)
  {
  }

  /** A tile no gesture is moving: never dragged, or reset by a release. */
  predicate AtRest(e: Tile)
  {
    (e.dataX == Absent && e.dataY == Absent) || (e.dataX == Value(0) && e.dataY == Value(0))
  }

  /** Identification by attribute equality picks the released tile when
      every other tile is at rest and the released one ends the gesture
      away from (0, 0). */
  lemma SelfIndexIsReleasedTile(t: Dragged, tiles: seq<Tile>, k: nat)
    requires k < |tiles| && IsSelf(t, tiles[k])
    requires t.dataX.Value? && t.dataY.Value? && !(t.dataX == Value(0) && t.dataY == Value(0))
    requires forall j :: 0 <= j < |tiles| && j != k ==> AtRest(tiles[j])
    ensures SelfIndex(t, tiles) == k
  {
  }

  /** A gesture that ends back at (0, 0) cannot be told from a tile reset by
      an earlier release: the released first tile is taken to be the second. */
  lemma ZeroOffsetMistakesResetTile()
    ensures var t := Dragged(Value(0), Value(0), 0, 0, 100, 100);
            SelfIndex(t, [Tile(Value(0), Value(0), 0, 0), Tile(Value(0), Value(0), 100, 0)]) == 1
  {
  }

  /** An element released without any stored offset has no replace index. */
  lemma NoOffsetNoReplace(t: Dragged, tiles: seq<Tile>)
    requires t.dataX.Absent? || t.dataY.Absent?
    ensures ReplaceIndex(t, tiles) == -1
  {
  }

  /** Four 100-pixel tiles in a row at x = 0, 100, 200, 300; the first is
      dragged by (250, 0). Its real left edge 250 is within 100 of both the
      third tile (200) and the fourth (300); the last match wins, so the
      fourth tile is the replace index. */
  lemma LastOverlapWins()
    ensures var t := Dragged(Value(250), Value(0), 0, 0, 100, 100);
            var tiles := [Tile(Value(250), Value(0), 0, 0), Tile(Absent, Absent, 100, 0),
                          Tile(Absent, Absent, 200, 0), Tile(Absent, Absent, 300, 0)];
            SelfIndex(t, tiles) == 0 && ReplaceIndex(t, tiles) == 3
  {
    var t := Dragged(Value(250), Value(0), 0, 0, 100, 100);
    var tiles := [Tile(Value(250), Value(0), 0, 0), Tile(Absent, Absent, 100, 0),
                  Tile(Absent, Absent, 200, 0), Tile(Absent, Absent, 300, 0)];
    assert IsSelf(t, tiles[0]);
    assert IsReplace(t, tiles[3]);
  }

  /** The same row, the first tile dragged by (500, 0): its real left edge
      is at least 200 from every tile, so there is no replace index. */
  lemma DropOutsideRow()
    ensures var t := Dragged(Value(500), Value(0), 0, 0, 100, 100);
            var tiles := [Tile(Value(500), Value(0), 0, 0), Tile(Absent, Absent, 100, 0),
                          Tile(Absent, Absent, 200, 0), Tile(Absent, Absent, 300, 0)];
            SelfIndex(t, tiles) == 0 && ReplaceIndex(t, tiles) == -1
  {
    var t := Dragged(Value(500), Value(0), 0, 0, 100, 100);
    var tiles := [Tile(Value(500), Value(0), 0, 0), Tile(Absent, Absent, 100, 0),
                  Tile(Absent, Absent, 200, 0), Tile(Absent, Absent, 300, 0)];
    assert IsSelf(t, tiles[0]);
    assert forall j :: 0 <= j < 4 ==> !IsReplace(t, tiles[j]);
  }
}
