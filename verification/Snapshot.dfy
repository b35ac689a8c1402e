/** `session_snapshot` (src/application/protocol.rs:806-848): read a session's log up to the watermark of the
    first page, in pages, while others append, and fold it into the timeline. */
module Snapshot {
  import opened Common
  import opened EventLog
  import opened Pages
  import opened Timeline
  import Connection

  datatype SnapshotError = StoreFailed(error: StoreError) | EventGap | Invariant

  // ---- what the pages collect ----

  /** `retain`: what does not exceed the watermark. */
  function Retained(events: seq<Event>, w: nat): seq<Event> {
    if events == [] then []
    else
      var last := events[|events| - 1];
      Retained(events[..|events| - 1], w) + if last.sequence <= w then [last] else []
  }

  lemma {:induction false} RetainedAll(events: seq<Event>, w: nat)
    requires forall i | 0 <= i < |events| :: events[i].sequence <= w
    ensures Retained(events, w) == events
  {
    if events != [] { RetainedAll(events[..|events| - 1], w); }
  }

  lemma {:induction false} RetainedSplit(low: seq<Event>, high: seq<Event>, w: nat)
    requires forall i | 0 <= i < |low| :: low[i].sequence <= w
    requires forall i | 0 <= i < |high| :: high[i].sequence > w
    ensures Retained(low + high, w) == low
    decreases |high|
  {
    if high == [] {
      assert low + high == low;
      RetainedAll(low, w);
    } else {
      var front := high[..|high| - 1];
      assert (low + high)[..|low + high| - 1] == low + front;
      RetainedSplit(low, front, w);
      assert low + [] == low;
    }
  }

  function LastOf(events: seq<Event>): nat { if events == [] then 0 else events[|events| - 1].sequence }

  /** `events` are all that is stored up to the last of them, none above the watermark. */
  ghost predicate Collected(streams: Streams, scope: Scope, events: seq<Event>, w: nat) {
    && scope in streams && LastOf(events) <= w < streams[scope].next
    && events == StoredBetween(streams[scope], 0, LastOf(events))
    && (events != [] ==> LastOf(events) in streams[scope].rows)
  }

  lemma FirstPage(streams: Streams, scope: Scope)
    requires Numbered(streams)
    ensures var b := Loaded(streams, scope, 0, PAGE);
      && b.highWatermark == High(streams, scope)
      && (b.events != [] ==> Collected(streams, scope, b.events, b.highWatermark))
      && (b.events == [] <==> StreamOf(streams, scope).rows == map[])
  {
    if scope in streams {
      var stream := streams[scope];
      PageIsBetween(scope, stream, 0);
      hide Selected;
      var page := Selected(stream, 0, PAGE);
      if page != [] { LastBetween(scope, stream, 0, LastOf(page)); }
      if k :| k in stream.rows { assert k > 0; }
    }
  }

  /** The next page, cut at the watermark, brings the collection on; it is empty exactly when the rest up to the
      watermark is missing. */
  lemma NextPage(streams: Streams, scope: Scope, events: seq<Event>, w: nat)
    requires Numbered(streams) && Collected(streams, scope, events, w) && LastOf(events) < w
    ensures var last, more := LastOf(events), Retained(Loaded(streams, scope, LastOf(events), PAGE).events, w);
      && (more == [] <==> forall k | k in streams[scope].rows :: !(last < k <= w))
      && (more != [] ==> last < LastOf(more) == LastOf(events + more) && Collected(streams, scope, events + more, w))
  {
    var stream, last := streams[scope], LastOf(events);
    PageIsBetween(scope, stream, last);
    hide Selected, Retained, StoredBetween;
    var page := Selected(stream, last, PAGE);
    if page == [] {
      RetainedSplit([], [], w);
    } else {
      PageCut(scope, stream, last, LastOf(page), w);
      var more := Retained(page, w);
      if more != [] { BetweenSplit(stream, 0, last, LastOf(more)); }
    }
  }

  lemma PageCut(scope: Scope, stream: Stream, a: nat, b: nat, w: nat)
    requires Keyed(scope, stream) && a < b && a < w && b in stream.rows
    ensures var more := Retained(StoredBetween(stream, a, b), w);
      && (more == [] <==> forall k | k in stream.rows :: !(a < k <= w))
      && (more != [] ==> a < LastOf(more) <= w && LastOf(more) in stream.rows && more == StoredBetween(stream, a, LastOf(more)))
  {
    hide Retained, StoredBetween;
    var cut := Min(b, w);
    BetweenSplit(stream, a, cut, b);
    BetweenKeys(scope, stream, a, cut);
    BetweenKeys(scope, stream, cut, b);
    RetainedSplit(StoredBetween(stream, a, cut), StoredBetween(stream, cut, b), w);
    var more := StoredBetween(stream, a, cut);
    if more != [] {
      LastBetween(scope, stream, a, cut);
    } else {
      forall k | k in stream.rows ensures !(a < k <= w) {}
    }
  }

  /** What others append lies above the watermark. */
  lemma CollectedGrows(before: Streams, after: Streams, scope: Scope, events: seq<Event>, w: nat)
    requires Grows(before, after) && Collected(before, scope, events, w)
    ensures Collected(after, scope, events, w) && (w in after[scope].rows <==> w in before[scope].rows)
  {
    BetweenSame(before[scope], after[scope], 0, LastOf(events));
  }

  lemma StoredIsRun(streams: Streams, scope: Scope, w: nat)
    requires AllHoleFree(streams) && 0 < w <= High(streams, scope)
    ensures scope in streams && w in streams[scope].rows && (forall k | 0 < k <= w :: k in StreamOf(streams, scope).rows)
    ensures StoredBetween(streams[scope], 0, w) == Run(streams, scope, 0, w)
  {
    RunInside(streams, scope, 0, w);
    assert KeysBetween(streams[scope], 0, w) == Span(0, w);
    SpanListed(0, w);
    hide Ascending;
  }

  // ---- the code ----

  /** The first page; an untouched log first gets its `SessionUpdated`. */
  method OpenLog(store: EventStore, scope: Scope, summary: Payload) returns (r: Result<EventBatch, StoreError>)
    requires Numbered(store.streams)
    modifies store
    ensures Numbered(store.streams) && Grows(old(store.streams), store.streams)
    ensures old(AllHoleFree(store.streams)) ==> AllHoleFree(store.streams)
    ensures r.Ok? ==>
      && Collected(store.streams, scope, r.value.events, r.value.highWatermark) && r.value.events != []
      && r.value.highWatermark >= old(High(store.streams, scope))
    ensures r.Err? ==> Appended(store.streams, scope, summary) == Err(r.error) && old(Untouched(store.streams, scope))
    ensures !old(Untouched(store.streams, scope)) ==> store.streams == old(store.streams)
    ensures r.Ok? && old(Untouched(store.streams, scope)) ==>
      exists k | k in StreamOf(store.streams, scope).rows :: StreamOf(store.streams, scope).rows[k].payload == summary
  {
    ghost var before := store.streams;
    NumberedKeyed(before);
    GrowsReflexive(before);
    hide AllHoleFree, Numbered, AllKeyed, Grows, Loaded, High, Collected, Appended;
    var batch := store.LoadAfter(scope, 0, PAGE);
    FirstPage(before, scope);
    if batch.events == [] {
      store.Interfere();
      ghost var between := store.streams;
      var published := store.Append(scope, summary);
      GrowsTransitive(before, between, store.streams);
      match published {
        case Err(error) => return Err(error);
        case Ok(event) => AppendAdds(between, scope, summary);
      }
      ghost var appended := store.streams;
      NumberedKeyed(appended);
      store.Interfere();
      GrowsTransitive(before, appended, store.streams);
      Connection.HighRises(before, store.streams, scope);
      StillThere(appended, store.streams, scope, StreamOf(between, scope).next);
      batch := store.LoadAfter(scope, 0, PAGE);
      FirstPage(store.streams, scope);
    }
    r := Ok(batch);
  }

  /** Nothing is stored in the scope. */
  ghost predicate Untouched(streams: Streams, scope: Scope) { StreamOf(streams, scope).rows == map[] }

  lemma StillThere(before: Streams, after: Streams, scope: Scope, k: nat)
    requires Grows(before, after) && k in StreamOf(before, scope).rows
    ensures k in StreamOf(after, scope).rows && StreamOf(after, scope).rows[k] == StreamOf(before, scope).rows[k]
  {}

  /** The paging loop: everything stored up to the watermark, or a gap exactly when the watermark's row is missing. */
  method Collect(store: EventStore, scope: Scope, page: seq<Event>, w: nat) returns (r: Result<seq<Event>, SnapshotError>)
    requires Numbered(store.streams) && Collected(store.streams, scope, page, w) && page != []
    modifies store
    ensures Numbered(store.streams) && Grows(old(store.streams), store.streams)
    ensures old(AllHoleFree(store.streams)) ==> AllHoleFree(store.streams)
    ensures scope in store.streams && w < store.streams[scope].next
    ensures r.Ok? <==> w in store.streams[scope].rows
    ensures r.Ok? ==> w > 0 && r.value == StoredBetween(store.streams[scope], 0, w) && r.value != []
    ensures r.Err? ==> r.error == EventGap
  {
    ghost var before := store.streams;
    GrowsReflexive(before);
    var events := page;
    LastIs(before, scope, events, w);
    hide Collected, AllHoleFree, Numbered, AllKeyed, Grows, Loaded, Retained, LastOf, StoredBetween;
    while events != [] && events[|events| - 1].sequence < w
      invariant Numbered(store.streams) && Grows(before, store.streams) && Collected(store.streams, scope, events, w)
      invariant old(AllHoleFree(store.streams)) ==> AllHoleFree(store.streams)
      invariant events != [] && events[|events| - 1].sequence == LastOf(events) <= w
      decreases w - LastOf(events)
    {
      ghost var read := store.streams;
      NumberedKeyed(read);
      store.Interfere();
      GrowsTransitive(before, read, store.streams);
      CollectedGrows(read, store.streams, scope, events, w);
      var batch := store.LoadAfter(scope, events[|events| - 1].sequence, PAGE);
      NextPage(store.streams, scope, events, w);
      var next := Retained(batch.events, w);
      if next == [] {
        CollectedScope(store.streams, scope, events, w);
        return Err(EventGap);
      }
      events := events + next;
      LastIs(store.streams, scope, events, w);
    }
    CollectedScope(store.streams, scope, events, w);
    r := Ok(events);
  }

  lemma LastIs(streams: Streams, scope: Scope, events: seq<Event>, w: nat)
    requires Collected(streams, scope, events, w) && events != []
    ensures events[|events| - 1].sequence == LastOf(events) <= w
  {}

  lemma CollectedScope(streams: Streams, scope: Scope, events: seq<Event>, w: nat)
    requires Collected(streams, scope, events, w) && Numbered(streams)
    ensures scope in streams && w < streams[scope].next && LastOf(events) <= w
    ensures events != [] && LastOf(events) == w ==> w > 0 && w in streams[scope].rows && events == StoredBetween(streams[scope], 0, w)
  {}

  method Fold(events: seq<Event>, decode: Decoder) returns (items: map<nat, Item>)
    ensures items == SnapshotItems(Decoded(events, decode))
  {
    items := map[];
    for i := 0 to |events|
      invariant items == SnapshotItems(Decoded(events[..i], decode))
    {
      assert Decoded(events[..i + 1], decode)[..i] == Decoded(events[..i], decode);
      match decode(events[i].payload) {
        case ItemStarted(item) => items := items[item.id := item];
        case ItemCompleted(item) => items := items[item.id := item];
        case _ =>
      }
    }
    assert events[..|events|] == events;
  }

  /** For a watermark `w` that the stream had reached: the snapshot is the fold of everything stored up to `w`,
      whatever others append meanwhile, or a gap exactly when nothing is stored under `w` itself. Over a log
      without holes it is the fold of the events 1 .. w, and never a gap. */
  method SessionSnapshot(store: EventStore, session: SessionId, decode: Decoder, summary: Payload)
    returns (r: Result<(nat, seq<Item>), SnapshotError>, ghost w: nat)
    requires Numbered(store.streams)
    modifies store
    ensures Numbered(store.streams) && Grows(old(store.streams), store.streams)
    ensures r.Err? ==> r.error.StoreFailed? || r.error.EventGap?
    ensures r.Err? && r.error.StoreFailed? ==>
      Appended(store.streams, Some(session), summary) == Err(r.error.error) && old(Untouched(store.streams, Some(session)))
    ensures !(r.Err? && r.error.StoreFailed?) ==>
      && Some(session) in store.streams && old(High(store.streams, Some(session))) <= w <= High(store.streams, Some(session))
      && (r.Ok? <==> w in store.streams[Some(session)].rows)
    ensures r.Ok? ==> r.value == (w, Values(SnapshotItems(Decoded(StoredBetween(store.streams[Some(session)], 0, w), decode))))
    ensures old(AllHoleFree(store.streams)) ==> AllHoleFree(store.streams) && (r.Err? ==> r.error.StoreFailed?)
    ensures old(AllHoleFree(store.streams)) && r.Ok? ==>
      && (forall k | 0 < k <= w :: k in StreamOf(store.streams, Some(session)).rows)
      && r.value == (w, Values(SnapshotItems(Decoded(Run(store.streams, Some(session), 0, w), decode))))
  {
    var scope := Some(session);
    ghost var before, holeFree := store.streams, AllHoleFree(store.streams);
    w := 0;
    hide AllHoleFree, Numbered, Grows, Collected, StoredBetween, High;
    var loaded := OpenLog(store, scope, summary);
    match loaded {
      case Err(error) => return Err(StoreFailed(error)), 0;
      case Ok(batch) =>
        w := batch.highWatermark;
        ghost var read := store.streams;
        CollectedScope(read, scope, batch.events, w);
        var collected := Collect(store, scope, batch.events, batch.highWatermark);
        GrowsTransitive(before, read, store.streams);
        BelowHigh(store.streams, scope, w);
        if holeFree { NeverMissing(read, store.streams, scope, batch.events, w); }
        match collected {
          case Err(error) => return Err(error), w;
          case Ok(events) =>
            if events == [] { return Err(Invariant), w; }
            var items := Fold(events, decode);
            r := Ok((batch.highWatermark, Values(items)));
        }
    }
  }

  lemma BelowHigh(streams: Streams, scope: Scope, w: nat)
    requires scope in streams && w < streams[scope].next
    ensures w <= High(streams, scope)
  {}

  lemma NeverMissing(read: Streams, streams: Streams, scope: Scope, events: seq<Event>, w: nat)
    requires AllHoleFree(streams) && Numbered(read) && Collected(read, scope, events, w) && events != []
    requires scope in streams && w < streams[scope].next
    ensures w > 0 && w in streams[scope].rows && (forall k | 0 < k <= w :: k in StreamOf(streams, scope).rows)
    ensures StoredBetween(streams[scope], 0, w) == Run(streams, scope, 0, w)
  {
    assert w > 0;
    StoredIsRun(streams, scope, w);
  }
}
