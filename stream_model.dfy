/** The frame table behind the capture view: frames are appended to a pending
    stream by the decoder and become visible rows only when the view fetches
    them. The two lists are kept apart on purpose; the visible list lags the
    pending one until the next fetch. */
module StreamModels {

  import opened Wrappers
  import opened NfcFrames
  import FrameEvents

  /** The time window test of `modelRange`: the frame starts at or after `from`
      and ends at or before `to`. */
  predicate InWindow(frame: NfcFrame, from: real, to: real)
  {
    frame.timeStart >= from && frame.timeEnd <= to
  }

  /** The frame before a row, which the event column classifies against. */
  function PreviousFrame(frames: seq<NfcFrame>, row: int): (p: Option<NfcFrame>)
    requires 0 <= row < |frames|
    ensures p.Some? <==> row > 0
    ensures row > 0 ==> p.value == frames[row - 1]
  {
    if row > 0 then Some(frames[row - 1]) else None
  }

  class StreamModel {

    /** The visible rows, in the order their frames were appended. */
    var frames: seq<NfcFrame>

    /** The pending frames, not yet fetched into the visible rows. */
    var stream: seq<NfcFrame>

    constructor ()
      ensures frames == [] && stream == []
    {
      frames := [];
      stream := [];
    }

    /** `rowCount`: the number of visible rows; pending frames are not counted. */
    method RowCount() returns (n: int)
      ensures n == |frames|
    {
      n := |frames|;
    }

    /** `canFetchMore`: whether a fetch would add rows. */
    method CanFetchMore() returns (more: bool)
      ensures more <==> stream != []
    {
      more := |stream| > 0;
    }

    /** `append`: queue a frame at the back of the pending stream; the visible
        rows do not change. */
    method Append(frame: NfcFrame)
      modifies this
      ensures stream == old(stream) + [frame]
      ensures frames == old(frames)
    {
      stream := stream + [frame];
    }

    /** `fetchMore`: move every pending frame, oldest first, to the end of the
        visible rows, leaving the pending stream empty. */
    method FetchMore()
      modifies this
      ensures frames == old(frames) + old(stream)
      ensures stream == []
    {
      while stream != []
        invariant frames + stream == old(frames) + old(stream)
        decreases |stream|
      {
        frames := frames + [stream[0]];
        stream := stream[1..];
      }
    }

    /** `resetModel`: drop every visible row; pending frames stay pending. */
    method ResetModel()
      modifies this
      ensures frames == []
      ensures stream == old(stream)
    {
      frames := [];
    }

    /** `modelRange`: the rows whose frames lie inside the time window, in
        strictly increasing row order, each such row exactly once. */
    method ModelRange(from: real, to: real) returns (list: seq<nat>)
      ensures forall k :: 0 <= k < |list| ==> list[k] < |frames| && InWindow(frames[list[k]], from, to)
      ensures forall k, l :: 0 <= k < l < |list| ==> list[k] < list[l]
      ensures forall i :: 0 <= i < |frames| && InWindow(frames[i], from, to) ==> i in list
      ensures (forall i :: 0 <= i < |frames| ==> InWindow(frames[i], from, to)) ==>
                |list| == |frames| && forall k :: 0 <= k < |list| ==> list[k] == k
    {
      list := [];
      var i := 0;
      while i < |frames|
        invariant 0 <= i <= |frames|
        invariant forall k :: 0 <= k < |list| ==> list[k] < i && InWindow(frames[list[k]], from, to)
        invariant forall k, l :: 0 <= k < l < |list| ==> list[k] < list[l]
        invariant forall j :: 0 <= j < i && InWindow(frames[j], from, to) ==> j in list
        invariant (forall j :: 0 <= j < |frames| ==> InWindow(frames[j], from, to)) ==>
                    |list| == i && forall k :: 0 <= k < |list| ==> list[k] == k
      {
        if InWindow(frames[i], from, to) {
          list := list + [i];
        }
        i := i + 1;
      }
    }

    /** The event column of `data()`: no value for a row outside the table,
        otherwise the label of the row's frame classified against the row
        before it (none for the first row). */
    method EventAt(row: int) returns (event: Option<string>)
      requires 0 <= row < |frames| ==> FrameEvents.Readable(frames[row], PreviousFrame(frames, row))
      ensures event.None? <==> !(0 <= row < |frames|)
      ensures 0 <= row < |frames| ==>
                event == Some(FrameEvents.FrameEvent(frames[row], PreviousFrame(frames, row)))
    {
      if row < 0 || row >= |frames| {
        return None;
      }
      var prev: Option<NfcFrame> := None;
      if row > 0 {
        prev := Some(frames[row - 1]);
      }
      event := Some(FrameEvents.FrameEvent(frames[row], prev));
    }
  }
}
