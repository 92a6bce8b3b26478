/** The upload widget: its list of files, the reports it makes to its owner,
    the add-tile rule of its rendering and the handler run when a dragged
    tile is released. */
module Upload {
  import opened Dom
  import opened Collision
  import opened Reorder

  datatype Option<T> = None | Some(value: T)

  datatype UploadStatus = Error | Success | Done | Uploading | Removed

  /** One entry of the upload list. Reordering moves entries and never
      looks inside them. */
  datatype UploadFile = UploadFile(
    uid: string,
    size: nat,
    name: string,
    fileType: string,
    status: Option<UploadStatus>,
    percent: Option<int>,
    url: Option<string>,
    thumbUrl: Option<string>)

  /** The number of images allowed when no limit is configured. */
  const DefaultLimit := 8

  /** `limit || 8`: a missing limit and a limit of 0 both fall back to the
      default; any other limit, negative ones included, is kept. */
  function EffectiveLimit(limit: Option<int>): (r: int)
    ensures r != 0
    ensures r == DefaultLimit || limit == Some(r)
    ensures limit.Some? && limit.value != 0 ==> r == limit.value
  {
    if limit.Some? && limit.value != 0 then limit.value else DefaultLimit
  }

  /** The list handed to the upload widget: the owner's `value` while the
      internal list is empty and a value was given, the internal list
      otherwise. */
  function DisplayedList(fileList: seq<UploadFile>, value: Option<seq<UploadFile>>): (r: seq<UploadFile>)
    ensures r == fileList || (fileList == [] && value == Some(r))
    ensures fileList != [] || value.None? ==> r == fileList
    ensures fileList == [] && value.Some? ==> r == value.value
  {
    if |fileList| == 0 && value.Some? then value.value else fileList
  }

  /** The add tile is rendered while the displayed list is shorter than the
      effective limit. */
  predicate ShowsAddTile(fileList: seq<UploadFile>, value: Option<seq<UploadFile>>, limit: Option<int>): (r: bool)
    ensures fileList == [] && value.Some? ==> (r <==> |value.value| < EffectiveLimit(limit))
    ensures fileList != [] || value.None? ==> (r <==> |fileList| < EffectiveLimit(limit))
  {
    !(|DisplayedList(fileList, value)| >= EffectiveLimit(limit))
  }

  /** A limit of 0 behaves exactly as no limit. */
  lemma ZeroLimitIsDefault(fileList: seq<UploadFile>, value: Option<seq<UploadFile>>)
    ensures ShowsAddTile(fileList, value, Some(0)) == ShowsAddTile(fileList, value, None)
    ensures ShowsAddTile(fileList, value, None) <==> |DisplayedList(fileList, value)| < 8
  {
  }

  /** With a non-zero limit the add tile is shown exactly while one more
      image fits under the limit. */
  lemma AddTileIffRoom(fileList: seq<UploadFile>, value: Option<seq<UploadFile>>, n: int)
    requires n != 0
    ensures ShowsAddTile(fileList, value, Some(n)) <==> |DisplayedList(fileList, value)| + 1 <= n
  {
  }

  /** A negative limit is truthy, so it is kept, and the add tile never shows. */
  lemma NegativeLimitHidesAddTile(fileList: seq<UploadFile>, value: Option<seq<UploadFile>>, n: int)
    requires n < 0
    ensures !ShowsAddTile(fileList, value, Some(n))
  {
    AddTileIffRoom(fileList, value, n);
  }

  /** A limit of 2: two images hide the add tile, removing one brings it
      back. */
  lemma AddTileReturnsAfterRemoval(a: UploadFile, b: UploadFile, value: Option<seq<UploadFile>>)
    ensures !ShowsAddTile([a, b], value, Some(2))
    ensures ShowsAddTile([a], value, Some(2))
  {
  }

  /** The widget's state and props. `reported` lists, in order, every list
      passed to the owner's `onChange` callback. */
  class InteractUpload {
    const limit: Option<int>
    const value: Option<seq<UploadFile>>
    var fileList: seq<UploadFile>
    var reported: seq<seq<UploadFile>>

    constructor (limit: Option<int>, value: Option<seq<UploadFile>>)
      ensures this.limit == limit && this.value == value
      ensures fileList == [] && reported == []
    {
      this.limit, this.value := limit, value;
      fileList, reported := [], [];
    }

    /** The list the widget renders. */
    function Displayed(): seq<UploadFile>
      reads this
    {
      DisplayedList(fileList, value)
    }

    /** Whether the widget renders its add tile. */
    predicate AddTileShown()
      reads this
    {
      ShowsAddTile(fileList, value, limit)
    }

    /** The upload widget reported a new list (an image added, removed or
        finished uploading): report it to the owner, then keep it. */
    method HandleChange(newList: seq<UploadFile>)
      modifies this
      ensures reported == old(reported) + [newList]
      ensures fileList == newList
    {
      reported := reported + [newList];
      fileList := newList;
    }

    /** The release handler. `items` are the rendered tiles in display order
        and `target` is the released element; the tiles stand for the
        entries of the internal list, one tile per entry. The released
        element is normally one of the tiles; the handler is only modelled
        where the scan finds a move index whenever it finds a replace index. The scan runs on
        the tiles as they are at release. If a replace index is found, the
        entries at the move and replace indices are exchanged and the new
        list is reported once; otherwise the list is left alone and nothing
        is reported. Either way the released tile's offset ends at (0, 0). */
    method InteractEnd(target: Element, items: seq<Element>)
      requires SelfIndex(DraggedOf(target), Snapshot(items)) != -1 ||
               ReplaceIndex(DraggedOf(target), Snapshot(items)) == -1
      requires |items| == |fileList|
      modifies this, target
      ensures var t, tiles := old(DraggedOf(target)), old(Snapshot(items));
              var moveIndex, replaceIndex := SelfIndex(t, tiles), ReplaceIndex(t, tiles);
              (replaceIndex == -1 ==> fileList == old(fileList) && reported == old(reported)) &&
              (replaceIndex != -1 ==>
                 0 <= moveIndex < |old(fileList)| && moveIndex != replaceIndex &&
                 fileList == Swap(old(fileList), moveIndex, replaceIndex) &&
                 reported == old(reported) + [fileList])
      ensures multiset(fileList) == multiset(old(fileList))
      ensures target.dataX == Value(0) && target.dataY == Value(0)
      ensures target.translateX == 0 && target.translateY == 0
    {
      var t := DraggedOf(target);
      var tiles := Snapshot(items);
      var moveIndex, replaceIndex := Scan(t, tiles);
      if replaceIndex != -1 {
        fileList := Swap(fileList, moveIndex, replaceIndex);
        reported := reported + [fileList];
      }
      target.ResetOffset();
    }
  }

  /** The drag of the first of four tiles by (250, 0), then its release,
      exchanges the first and the fourth entries and reports once. */
  method DragFirstTileOverTwoOthers(a: UploadFile, b: UploadFile, c: UploadFile, d: UploadFile)
  {
    var upload := new InteractUpload(None, None);
    upload.HandleChange([a, b, c, d]);
    assert upload.reported == [[a, b, c, d]];
    var ea := new Element(0, 0, 100, 100);
    var eb := new Element(100, 0, 100, 100);
    var ec := new Element(200, 0, 100, 100);
    var ed := new Element(300, 0, 100, 100);
    ea.DragMove(200, 0);
    ea.DragMove(50, 0);
    var items := [ea, eb, ec, ed];
    var t, tiles := DraggedOf(ea), Snapshot(items);
    assert t == Dragged(Value(250), Value(0), 0, 0, 100, 100);
    assert tiles[0] == Tile(Value(250), Value(0), 0, 0);
    assert tiles[1] == Tile(Absent, Absent, 100, 0);
    assert tiles[2] == Tile(Absent, Absent, 200, 0);
    assert tiles[3] == Tile(Absent, Absent, 300, 0);
    assert IsSelf(t, tiles[0]) && IsReplace(t, tiles[3]);
    assert !IsSelf(t, tiles[1]) && !IsSelf(t, tiles[2]) && !IsSelf(t, tiles[3]);
    assert SelfIndex(t, tiles) == 0 && ReplaceIndex(t, tiles) == 3;
    ghost var before := upload.reported;
    upload.InteractEnd(ea, items);
    assert upload.fileList == Swap([a, b, c, d], 0, 3);
    SwapEnds(a, b, c, d);
    assert upload.reported == before + [[d, b, c, a]];
    assert before == [[a, b, c, d]];
    assert ea.dataX == Value(0) && ea.dataY == Value(0);
  }
}
