/** `displayEvents`: the lines printed for a fetched feed, returned instead of printed. */
module Display {
  import opened Bytes
  import opened Events
  import opened Format

  const NoActivity: Bytes := Ascii("No recent activity found")
  const Bullet: Bytes := Ascii("- ")

  /** The line printed for an event with a non-empty description. */
  function ItemLine(e: Event): Bytes {
    Bullet + FormatEvent(e)
  }

  /** A printed list item: the bullet and a non-empty description. */
  predicate IsItemLine(line: Bytes) {
    |Bullet| < |line| && StartsWith(line, Bullet)
  }

  /** Positions, in increasing order, of the events whose kind is recognised. */
  function KeptIndices(events: seq<Event>): (ks: seq<nat>)
    ensures forall k :: 0 <= k < |ks| ==> ks[k] < |events| && IsKnownKind(events[ks[k]].kind)
    ensures forall k, l :: 0 <= k < l < |ks| ==> ks[k] < ks[l]
    ensures forall i :: 0 <= i < |events| && IsKnownKind(events[i].kind) ==> i in ks
    decreases |events|
  {
    if events == [] then []
    else
      var n := |events| - 1;
      KeptIndices(events[..n]) + (if IsKnownKind(events[n].kind) then [n] else [])
  }

  /** The lines of the loop over a non-empty feed: one item per event with a
      non-empty description, skipping the rest, in feed order. */
  function ActivityLines(events: seq<Event>): (lines: seq<Bytes>)
    ensures forall k :: 0 <= k < |lines| ==> IsItemLine(lines[k])
    decreases |events|
  {
    if events == [] then []
    else
      var n := |events| - 1;
      ActivityLines(events[..n]) + (if FormatEvent(events[n]) != [] then [ItemLine(events[n])] else [])
  }

  /** Go's `displayEvents`: the notice alone for an empty feed, otherwise the item
      lines, of which there may be none at all. */
  function DisplayEvents(events: seq<Event>): (lines: seq<Bytes>)
    ensures events == [] ==> lines == [NoActivity]
    ensures events != [] ==> |lines| <= |events|
    ensures events != [] ==> forall k :: 0 <= k < |lines| ==> IsItemLine(lines[k])
    ensures events != [] ==>
      (lines == [] <==> forall i :: 0 <= i < |events| ==> !IsKnownKind(events[i].kind))
  {
    if |events| == 0 then [NoActivity]
    else
      KeptIndicesCount(events);
      ActivityLinesCount(events);
      ActivityLines(events)
  }

  /** A strictly increasing sequence of positions below `n` has at most `n` entries. */
  lemma {:induction false} IncreasingBelowIsShort(ks: seq<nat>, n: nat)
    requires forall k :: 0 <= k < |ks| ==> ks[k] < n
    requires forall k, l :: 0 <= k < l < |ks| ==> ks[k] < ks[l]
    ensures |ks| <= n
    decreases n
  {
    if ks != [] {
      var m := ks[|ks| - 1];
      IncreasingBelowIsShort(ks[..|ks| - 1], m);
    }
  }

  /** No more positions are kept than there are events, and none exactly when no
      event is recognised. */
  lemma KeptIndicesCount(events: seq<Event>)
    ensures |KeptIndices(events)| <= |events|
    ensures KeptIndices(events) == [] <==> forall i :: 0 <= i < |events| ==> !IsKnownKind(events[i].kind)
  {
    var ks := KeptIndices(events);
    IncreasingBelowIsShort(ks, |events|);
    if ks != [] {
      assert IsKnownKind(events[ks[0]].kind);
    }
  }

  /** One line for each kept position. */
  lemma {:induction false} ActivityLinesCount(events: seq<Event>)
    ensures |ActivityLines(events)| == |KeptIndices(events)|
    decreases |events|
  {
    if events != [] {
      var n := |events| - 1;
      ActivityLinesCount(events[..n]);
      assert IsKnownKind(events[n].kind) <==> FormatEvent(events[n]) != [];
    }
  }

  /** The item lines are exactly the recognised events' lines, in feed order. */
  lemma {:induction false} ActivityLinesFollowKeptIndices(events: seq<Event>)
    ensures var ks := KeptIndices(events); var lines := ActivityLines(events);
      && |lines| == |ks|
      && forall k :: 0 <= k < |lines| ==> lines[k] == ItemLine(events[ks[k]])
    decreases |events|
  {
    ActivityLinesCount(events);
    if events != [] {
      var n := |events| - 1;
      var prefix := events[..n];
      ActivityLinesFollowKeptIndices(prefix);
      var ks := KeptIndices(events);
      var lines := ActivityLines(events);
      var pk := KeptIndices(prefix);
      var pl := ActivityLines(prefix);
      var d := FormatEvent(events[n]);
      assert ks == pk + (if IsKnownKind(events[n].kind) then [n] else []);
      assert lines == pl + (if d != [] then [ItemLine(events[n])] else []);
      forall k | 0 <= k < |lines|
        ensures lines[k] == ItemLine(events[ks[k]])
      {
        if k < |pl| {
          assert lines[k] == pl[k] && ks[k] == pk[k];
          assert pl[k] == ItemLine(prefix[pk[k]]);
          assert prefix[pk[k]] == events[pk[k]];
        } else {
          assert d != [] && IsKnownKind(events[n].kind);
          assert lines[k] == ItemLine(events[n]) && ks[k] == n;
        }
      }
    }
  }

  /** For a non-empty feed, `displayEvents` is an order-preserving filter: its lines
      are the item lines of the recognised events, taken in increasing position, and
      of no others. */
  lemma DisplayEventsIsOrderedFilter(events: seq<Event>)
    requires events != []
    ensures var lines := DisplayEvents(events); var ks := KeptIndices(events);
      && |lines| == |ks|
      && (forall k :: 0 <= k < |lines| ==> lines[k] == ItemLine(events[ks[k]]))
      && (forall k, l :: 0 <= k < l < |ks| ==> ks[k] < ks[l])
      && (forall i :: 0 <= i < |events| ==> (i in ks <==> FormatEvent(events[i]) != []))
  {
    ActivityLinesFollowKeptIndices(events);
  }

  /** Looking at one more event of the feed adds its item line at the end, or nothing
      when its description is empty. */
  lemma ActivityLinesStep(events: seq<Event>, i: nat)
    requires i < |events|
    ensures ActivityLines(events[..i + 1])
      == ActivityLines(events[..i]) + (if FormatEvent(events[i]) != [] then [ItemLine(events[i])] else [])
  {
    assert events[..i + 1][..i] == events[..i];
  }

  /** The loop of `displayEvents` as written: walk the feed once, printing each
      non-empty description behind a bullet. */
  method PrintEvents(events: seq<Event>) returns (lines: seq<Bytes>)
    ensures lines == DisplayEvents(events)
  {
    if |events| == 0 {
      return [NoActivity];
    }
    lines := [];
    var i := 0;
    while i < |events|
      invariant 0 <= i <= |events|
      invariant lines == ActivityLines(events[..i])
    {
      var description := FormatEvent(events[i]);
      ActivityLinesStep(events, i);
      if description != [] {
        lines := lines + [ItemLine(events[i])];
      }
      i := i + 1;
    }
    assert events[..i] == events;
  }
}
