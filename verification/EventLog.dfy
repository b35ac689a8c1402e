/** The event tables of the store (crates/fixtrace-store/src/store.rs, migrations.rs): one stream per
    scope, appended to and read back in pages. Each method is one transaction. */
module EventLog {
  import opened Common

  const MAX_SAFE: nat := 9_007_199_254_740_991
  const I64_MAX: nat := 9_223_372_036_854_775_807
  const U64_MAX: nat := 18_446_744_073_709_551_615
  const PAGE: nat := 10_000

  type Payload = string

  /** Some(session), or None for the global scope. */
  type Scope = Option<SessionId>

  datatype Event = Event(scope: Scope, sequence: nat, payload: Payload)

  /** A row of `app_event_streams` with its rows of `app_events`, keyed by UNIQUE(stream_id, sequence). */
  datatype Stream = Stream(next: nat, rows: map<nat, Event>)

  type Streams = map<Scope, Stream>

  datatype Gap = Gap(expected: nat, availableFrom: nat, highWatermark: nat)

  datatype EventBatch = EventBatch(events: seq<Event>, highWatermark: nat, gap: Option<Gap>)

  datatype StoreError = SequenceOutOfRange | UniqueViolation

  function SaturatingIncrement(x: nat): nat { if x >= U64_MAX then U64_MAX else x + 1 }

  function StreamOf(streams: Streams, scope: Scope): Stream {
    if scope in streams then streams[scope] else Stream(1, map[])
  }

  // ---- the two operations, as functions of the tables ----

  function Appended(streams: Streams, scope: Scope, payload: Payload): Result<(Streams, Event), StoreError> {
    var stream := StreamOf(streams, scope);
    if stream.next == 0 || stream.next > MAX_SAFE then Err(SequenceOutOfRange)
    else if stream.next in stream.rows then Err(UniqueViolation)
    else
      var event := Event(scope, stream.next, payload);
      Ok((streams[scope := Stream(stream.next + 1, stream.rows[stream.next := event])], event))
  }

  function KeysAfter(stream: Stream, after: nat): set<nat> {
    set k | k in stream.rows && k > Min(after, MAX_SAFE)
  }

  function Rows(stream: Stream, keys: seq<nat>): (r: seq<Event>)
    requires forall k | k in keys :: k in stream.rows
    ensures |r| == |keys|
    ensures forall i | 0 <= i < |r| :: r[i] == stream.rows[keys[i]]
  {
    seq(|keys|, i requires 0 <= i < |keys| => stream.rows[keys[i]])
  }

  /** `WHERE sequence > after ORDER BY sequence LIMIT limit` */
  function Selected(stream: Stream, after: nat, limit: nat): seq<Event> {
    var keys := Ascending(KeysAfter(stream, after));
    AscendingElements(KeysAfter(stream, after));
    var page := keys[..Min(|keys|, Min(Max(limit, 1), PAGE))];
    assert forall k | k in page :: k in keys;
    Rows(stream, page)
  }

  function GapAt(events: seq<Event>, after: nat, high: nat): Option<Gap> {
    var expected := SaturatingIncrement(after);
    var available := if events != [] then Some(events[0].sequence)
                     else if after < high then Some(high + 1) else None;
    if available.Some? && available.value != expected then Some(Gap(expected, available.value, high)) else None
  }

  function Loaded(streams: Streams, scope: Scope, after: nat, limit: nat): EventBatch {
    if scope !in streams then EventBatch([], 0, None)
    else
      var stream := streams[scope];
      var high := if stream.next == 0 then 0 else stream.next - 1;
      var events := Selected(stream, after, limit);
      EventBatch(events, high, GapAt(events, after, high))
  }

  // ---- hole-free streams ----

  function Span(a: nat, b: nat): (r: set<nat>)
    ensures forall k :: k in r <==> a < k <= b
  {
    if b <= a then {} else Span(a, b - 1) + {b}
  }

  /** What the columns guarantee of any store, holes or not: rows under their own 64-bit numbers. */
  ghost predicate Keyed(scope: Scope, stream: Stream) {
    && 1 <= stream.next <= I64_MAX
    && forall k | k in stream.rows :: k <= I64_MAX && stream.rows[k].sequence == k && stream.rows[k].scope == scope
  }

  ghost predicate AllKeyed(streams: Streams) {
    forall scope | scope in streams :: Keyed(scope, streams[scope])
  }

  /** The stored sequences are exactly 1 .. next - 1, and each row carries its own key. */
  ghost predicate HoleFree(scope: Scope, stream: Stream) {
    && Keyed(scope, stream) && stream.next <= MAX_SAFE + 1
    && stream.rows.Keys == Span(0, stream.next - 1)
  }

  ghost predicate AllHoleFree(streams: Streams) {
    forall scope | scope in streams :: HoleFree(scope, streams[scope])
  }

  /** What appending alone guarantees, even with rows missing: wire-safe numbers below the next one. */
  ghost predicate Numbered(streams: Streams) {
    forall scope | scope in streams ::
      && Keyed(scope, streams[scope]) && streams[scope].next <= MAX_SAFE + 1
      && forall k | k in streams[scope].rows :: 0 < k < streams[scope].next
  }

  function High(streams: Streams, scope: Scope): nat {
    var next := StreamOf(streams, scope).next;
    if next == 0 then 0 else next - 1
  }

  /** Nothing stored is lost or changed; new rows only come behind the old ones. */
  ghost predicate Grows(before: Streams, after: Streams) {
    forall scope | scope in before ::
      && scope in after && before[scope].next <= after[scope].next
      && (forall k | k in before[scope].rows :: k in after[scope].rows && after[scope].rows[k] == before[scope].rows[k])
      && (forall k | k in after[scope].rows && k !in before[scope].rows :: k >= before[scope].next)
  }

  /** The events numbered a + 1 .. b of a stream. */
  function Run(streams: Streams, scope: Scope, a: nat, b: nat): (r: seq<Event>)
    requires forall k | a < k <= b :: k in StreamOf(streams, scope).rows
    ensures |r| == if a <= b then b - a else 0
  {
    if b <= a then [] else seq(b - a, i requires 0 <= i < b - a => StreamOf(streams, scope).rows[a + 1 + i])
  }

  lemma {:induction false} SpanSize(a: nat, b: nat)
    requires a <= b
    ensures |Span(a, b)| == b - a
  {
    if a < b {
      SpanSize(a, b - 1);
      assert Span(a, b) == Span(a, b - 1) + {b};
    } else {
      assert Span(a, b) == {};
    }
  }

  lemma {:induction false} AscendingApart(s: seq<nat>, i: nat, j: nat)
    requires StrictlyAscending(s) && i <= j < |s|
    ensures s[j] - s[i] >= j - i
    decreases j - i
  {
    if i < j {
      AscendingApart(s, i, j - 1);
      assert s[j - 1] < s[j];
    }
  }

  lemma FillsSpan(s: seq<nat>, a: nat, i: nat)
    requires StrictlyAscending(s) && i < |s| && forall j | 0 <= j < |s| :: a < s[j] <= a + |s|
    ensures s[i] == a + 1 + i
  {
    AscendingApart(s, 0, i);
    AscendingApart(s, i, |s| - 1);
  }

  lemma AscendingSpan(a: nat, b: nat, i: nat)
    requires a <= b && i < b - a
    ensures |Ascending(Span(a, b))| == b - a && Ascending(Span(a, b))[i] == a + 1 + i
  {
    hide Ascending, Span, StrictlyAscending;
    var s := Ascending(Span(a, b));
    SpanSize(a, b);
    AscendingLists(Span(a, b));
    assert forall j | 0 <= j < |s| :: s[j] in s;
    FillsSpan(s, a, i);
  }

  lemma RunInside(streams: Streams, scope: Scope, a: nat, b: nat)
    requires AllHoleFree(streams) && b <= High(streams, scope)
    ensures forall k | a < k <= b :: k in StreamOf(streams, scope).rows
  {
    forall k | a < k <= b ensures k in StreamOf(streams, scope).rows {
      assert k in Span(0, High(streams, scope));
    }
  }

  /** On a hole-free store a page is the contiguous run behind the cursor, and never a gap. */
  lemma PageIsRun(streams: Streams, scope: Scope, after: nat, limit: nat)
    requires AllHoleFree(streams)
    ensures var high := High(streams, scope);
      var end := Min(after + Min(Max(limit, 1), PAGE), high);
      && (forall k | after < k <= end :: k in StreamOf(streams, scope).rows)
      && Loaded(streams, scope, after, limit) == EventBatch(Run(streams, scope, after, end), high, None)
  {
    hide Selected;
    var high := High(streams, scope);
    var end := Min(after + Min(Max(limit, 1), PAGE), high);
    RunInside(streams, scope, after, end);
    if scope in streams {
      var stream := streams[scope];
      var events := Selected(stream, after, limit);
      if after < high {
        PageEvents(scope, stream, after, limit);
        assert events == Run(streams, scope, after, end);
        assert events[0].sequence == after + 1;
      } else {
        EmptyPage(scope, stream, after, limit);
      }
    }
  }

  lemma EmptyPage(scope: Scope, stream: Stream, after: nat, limit: nat)
    requires HoleFree(scope, stream) && after >= stream.next - 1
    ensures Selected(stream, after, limit) == []
  {
    assert KeysAfter(stream, after) == {};
  }

  lemma PageEvents(scope: Scope, stream: Stream, after: nat, limit: nat)
    requires HoleFree(scope, stream) && after < stream.next - 1
    ensures var end := Min(after + Min(Max(limit, 1), PAGE), stream.next - 1);
      && |Selected(stream, after, limit)| == end - after
      && forall i | 0 <= i < end - after ::
           after + 1 + i in stream.rows && Selected(stream, after, limit)[i] == stream.rows[after + 1 + i]
  {
    var high := stream.next - 1;
    assert KeysAfter(stream, after) == Span(after, high);
    SpanListed(after, high);
    hide Ascending, KeysAfter, Span;
    assert forall i | 0 <= i < high - after :: Ascending(Span(after, high))[i] == after + 1 + i;
  }

  lemma SpanListed(a: nat, b: nat)
    requires a <= b
    ensures |Ascending(Span(a, b))| == b - a
    ensures forall i | 0 <= i < b - a :: Ascending(Span(a, b))[i] == a + 1 + i
  {
    SpanSize(a, b);
    AscendingElements(Span(a, b));
    forall i | 0 <= i < b - a ensures Ascending(Span(a, b))[i] == a + 1 + i {
      AscendingSpan(a, b, i);
    }
  }

  lemma AppendKeepsHoleFree(streams: Streams, scope: Scope, payload: Payload)
    requires AllHoleFree(streams) && Appended(streams, scope, payload).Ok?
    ensures var (after, event) := Appended(streams, scope, payload).value;
      && AllHoleFree(after) && Grows(streams, after)
      && event.scope == scope && event.sequence == High(after, scope) == High(streams, scope) + 1
      && (forall other | other != scope :: StreamOf(after, other) == StreamOf(streams, other))
      && StreamOf(after, scope).rows[event.sequence] == event
  {
    AppendKeepsKeyed(streams, scope, payload);
    assert AllKeyed(streams);
    hide HoleFree, Keyed;
    var stream := StreamOf(streams, scope);
    NewStreamHoleFree(scope);
    HoleFreeStep(scope, stream, Event(scope, stream.next, payload));
    HoleFreeNext(scope, stream);
  }

  lemma AppendKeepsKeyed(streams: Streams, scope: Scope, payload: Payload)
    ensures AllKeyed(streams) && Appended(streams, scope, payload).Ok? ==>
      var (after, event) := Appended(streams, scope, payload).value;
      AllKeyed(after) && Grows(streams, after) && event.scope == scope && event.sequence <= High(after, scope)
  {
    if AllKeyed(streams) && Appended(streams, scope, payload).Ok? {
      AppendGrows(streams, scope, payload);
      hide Grows;
    }
  }

  lemma AppendGrows(streams: Streams, scope: Scope, payload: Payload)
    requires Appended(streams, scope, payload).Ok?
    ensures Grows(streams, Appended(streams, scope, payload).value.0)
  {}

  lemma AppendKeepsNumbered(streams: Streams, scope: Scope, payload: Payload)
    requires Numbered(streams) && Appended(streams, scope, payload).Ok?
    ensures Numbered(Appended(streams, scope, payload).value.0)
  {}

  lemma HoleFreeNumbered(streams: Streams)
    requires AllHoleFree(streams)
    ensures Numbered(streams)
  {}

  lemma NumberedKeyed(streams: Streams)
    requires Numbered(streams)
    ensures AllKeyed(streams)
  {}

  lemma NewStreamHoleFree(scope: Scope)
    ensures HoleFree(scope, Stream(1, map[]))
  {}

  lemma HoleFreeNext(scope: Scope, stream: Stream)
    requires HoleFree(scope, stream)
    ensures stream.next >= 1 && stream.next !in stream.rows
  {}

  lemma HoleFreeStep(scope: Scope, stream: Stream, event: Event)
    requires HoleFree(scope, stream) && stream.next <= MAX_SAFE
    requires event.scope == scope && event.sequence == stream.next
    ensures HoleFree(scope, Stream(stream.next + 1, stream.rows[stream.next := event]))
  {
    assert Span(0, stream.next) == Span(0, stream.next - 1) + {stream.next};
  }

  /** A hole-free stream refuses an append only when its numbers leave the wire-safe range. */
  lemma AppendSucceeds(streams: Streams, scope: Scope, payload: Payload)
    requires AllHoleFree(streams)
    ensures Appended(streams, scope, payload).Ok? <==> High(streams, scope) < MAX_SAFE
  {}

  // ---- what is published is what is read ----

  /** The new event carries the payload under the next number of its stream; nothing else in the tables changes. */
  lemma AppendAdds(streams: Streams, scope: Scope, payload: Payload)
    requires Appended(streams, scope, payload).Ok?
    ensures var (after, event) := Appended(streams, scope, payload).value; var was := StreamOf(streams, scope);
      && event == Event(scope, was.next, payload)
      && after.Keys == streams.Keys + {scope} && after[scope].next == was.next + 1
      && after[scope].rows == was.rows[was.next := event]
      && forall other | other in streams && other != scope :: after[other] == streams[other]
  {}

  /** What was just published comes back, alone and unchanged, to a reader that had seen all before it. */
  lemma AppendReadsBack(streams: Streams, scope: Scope, payload: Payload, limit: nat)
    requires AllHoleFree(streams) && Appended(streams, scope, payload).Ok?
    ensures var n := High(streams, scope) + 1;
      Loaded(Appended(streams, scope, payload).value.0, scope, n - 1, limit) == EventBatch([Event(scope, n, payload)], n, None)
  {
    var (after, event) := Appended(streams, scope, payload).value;
    AppendKeepsHoleFree(streams, scope, payload);
    AppendAdds(streams, scope, payload);
    hide Loaded, Appended;
    PageIsRun(after, scope, High(streams, scope), limit);
  }

  /** The store after these appends; a refused one changes nothing. */
  function AppendedAll(streams: Streams, appends: seq<(Scope, Payload)>): Streams {
    if appends == [] then streams
    else
      var (scope, payload) := appends[|appends| - 1];
      var before := AppendedAll(streams, appends[..|appends| - 1]);
      match Appended(before, scope, payload)
      case Ok((after, _)) => after
      case Err(_) => before
  }

  /** The payloads of a stream, 1 up to its end; on a hole-free store none is missing. */
  function Contents(streams: Streams, scope: Scope): (r: seq<Payload>)
    ensures |r| == High(streams, scope)
  {
    var rows := StreamOf(streams, scope).rows;
    seq(High(streams, scope), i requires i >= 0 => if i + 1 in rows then rows[i + 1].payload else "")
  }

  lemma ContentsAreRead(streams: Streams, scope: Scope, i: nat)
    requires AllHoleFree(streams) && i < High(streams, scope)
    ensures forall k | 0 < k <= High(streams, scope) :: k in StreamOf(streams, scope).rows
    ensures Run(streams, scope, 0, High(streams, scope))[i].payload == Contents(streams, scope)[i]
  {
    RunInside(streams, scope, 0, High(streams, scope));
  }

  /** What was published in the scope. */
  function Own(appends: seq<(Scope, Payload)>, scope: Scope): seq<Payload> {
    if appends == [] then []
    else Own(appends[..|appends| - 1], scope) + if appends[|appends| - 1].0 == scope then [appends[|appends| - 1].1] else []
  }

  /** However appends to different scopes are mixed: each stream comes to hold what it held, and behind it what was
      published in its scope, in order, up to the last wire-safe number. */
  lemma {:induction false} AppendsReadBack(streams: Streams, appends: seq<(Scope, Payload)>, scope: Scope)
    requires AllHoleFree(streams)
    ensures var after := AppendedAll(streams, appends);
      var room := MAX_SAFE - High(streams, scope);
      && AllHoleFree(after) && room >= 0
      && Contents(after, scope) == Contents(streams, scope) + Own(appends, scope)[..Min(room, |Own(appends, scope)|)]
  {
    HighSafe(streams, scope);
    hide AllHoleFree, Own, Appended, AppendedAll, High, Contents;
    if appends == [] {
      NothingOwn(streams, scope);
    } else {
      var front, last := appends[..|appends| - 1], appends[|appends| - 1];
      assert front + [last] == appends;
      AppendsReadBack(streams, front, scope);
      OneMore(streams, front, last, scope);
    }
  }

  lemma OneMore(streams: Streams, front: seq<(Scope, Payload)>, last: (Scope, Payload), scope: Scope)
    requires AllHoleFree(AppendedAll(streams, front)) && High(streams, scope) <= MAX_SAFE
    requires var room, own := MAX_SAFE - High(streams, scope), Own(front, scope);
      Contents(AppendedAll(streams, front), scope) == Contents(streams, scope) + own[..Min(room, |own|)]
    ensures var after, room, own := AppendedAll(streams, front + [last]), MAX_SAFE - High(streams, scope), Own(front + [last], scope);
      AllHoleFree(after) && Contents(after, scope) == Contents(streams, scope) + own[..Min(room, |own|)]
  {
    hide AllHoleFree, Own, AppendedAll, High, Contents;
    OwnSnoc(front, last, scope);
    AppendedSnoc(streams, front, last);
    ContentsNext(AppendedAll(streams, front), last, scope);
    TakenSnoc(Contents(streams, scope), Own(front, scope), if last.0 == scope then [last.1] else [], MAX_SAFE - High(streams, scope));
  }

  lemma HighSafe(streams: Streams, scope: Scope)
    requires AllHoleFree(streams)
    ensures High(streams, scope) <= MAX_SAFE
  {}

  lemma NothingOwn(streams: Streams, scope: Scope)
    ensures Own([], scope) == [] && AppendedAll(streams, []) == streams
  {}

  lemma OwnSnoc(front: seq<(Scope, Payload)>, last: (Scope, Payload), scope: Scope)
    ensures Own(front + [last], scope) == Own(front, scope) + if last.0 == scope then [last.1] else []
  {
    assert (front + [last])[..|front|] == front;
  }

  lemma TakenSnoc(had: seq<Payload>, own: seq<Payload>, next: seq<Payload>, room: nat)
    requires |next| <= 1
    ensures had + own[..Min(room, |own|)] + (if |own| < room then next else []) == had + (own + next)[..Min(room, |own + next|)]
  {}

  lemma AppendedSnoc(streams: Streams, front: seq<(Scope, Payload)>, last: (Scope, Payload))
    ensures AppendedAll(streams, front + [last]) == AppendedAll(AppendedAll(streams, front), [last])
  {
    assert (front + [last])[..|front|] == front && [last][..0] == [];
  }

  /** One more append. */
  lemma ContentsNext(streams: Streams, last: (Scope, Payload), scope: Scope)
    requires AllHoleFree(streams)
    ensures var after := AppendedAll(streams, [last]);
      && AllHoleFree(after) && High(streams, scope) <= MAX_SAFE
      && Contents(after, scope) == Contents(streams, scope) + if last.0 == scope && High(streams, scope) < MAX_SAFE then [last.1] else []
  {
    assert [last][..0] == [];
    HighSafe(streams, scope);
    AppendSucceeds(streams, last.0, last.1);
    hide Contents, Grows;
    if Appended(streams, last.0, last.1).Ok? {
      var after := Appended(streams, last.0, last.1).value.0;
      AppendKeepsHoleFree(streams, last.0, last.1);
      AppendAdds(streams, last.0, last.1);
      hide AllHoleFree, Appended;
      if last.0 == scope { ContentsOne(streams, after, scope, last.1); } else { ContentsSame(streams, after, scope); }
    }
  }

  lemma ContentsOne(streams: Streams, after: Streams, scope: Scope, payload: Payload)
    requires scope in after && StreamOf(streams, scope).next >= 1 && after[scope].next == StreamOf(streams, scope).next + 1
    requires var was := StreamOf(streams, scope); after[scope].rows == was.rows[was.next := Event(scope, was.next, payload)]
    ensures Contents(after, scope) == Contents(streams, scope) + [payload]
  {}

  lemma ContentsSame(streams: Streams, after: Streams, scope: Scope)
    requires StreamOf(after, scope) == StreamOf(streams, scope)
    ensures Contents(after, scope) == Contents(streams, scope)
  {}

  // ---- any stream at all ----

  /** Whatever the rows: a page ascends behind the cursor, and reports a gap unless it starts right there. */
  lemma PageAscends(streams: Streams, scope: Scope, after: nat, limit: nat)
    requires AllKeyed(streams)
    ensures var b := Loaded(streams, scope, after, limit);
      && (forall i | 0 <= i < |b.events| :: Min(after, MAX_SAFE) < b.events[i].sequence <= I64_MAX && b.events[i].scope == scope)
      && (forall i, j | 0 <= i < j < |b.events| :: b.events[i].sequence < b.events[j].sequence)
      && b.highWatermark == High(streams, scope)
      && (b.gap.None? <==>
            if b.events != [] then b.events[0].sequence == SaturatingIncrement(after) else after >= b.highWatermark)
      && (b.gap.Some? ==>
            b.gap.value == Gap(SaturatingIncrement(after), if b.events != [] then b.events[0].sequence else b.highWatermark + 1, b.highWatermark))
  {
    if scope in streams {
      SelectedAscends(scope, streams[scope], after, limit);
      hide Selected;
    }
  }

  lemma SelectedAscends(scope: Scope, stream: Stream, after: nat, limit: nat)
    requires Keyed(scope, stream)
    ensures var events := Selected(stream, after, limit);
      && (forall i | 0 <= i < |events| :: Min(after, MAX_SAFE) < events[i].sequence <= I64_MAX && events[i].scope == scope)
      && (forall i, j | 0 <= i < j < |events| :: events[i].sequence < events[j].sequence)
  {
    var keys := Ascending(KeysAfter(stream, after));
    AscendingLists(KeysAfter(stream, after));
    hide Ascending;
    assert forall i | 0 <= i < |keys| :: keys[i] in keys;
  }

  /** And it begins with the first row behind the cursor, if there is one; a cursor beyond the wire-safe range reads from
      the end of that range. */
  lemma PageBegins(streams: Streams, scope: Scope, after: nat, limit: nat, k: nat)
    requires AllKeyed(streams) && k in StreamOf(streams, scope).rows && k > Min(after, MAX_SAFE)
    ensures var b := Loaded(streams, scope, after, limit); b.events != [] && b.events[0].sequence <= k
  {
    var keys := Ascending(KeysAfter(streams[scope], after));
    AscendingLists(KeysAfter(streams[scope], after));
    hide Ascending;
    assert k in keys;
    assert keys[0] in keys;
  }

  // ---- the code ----

  class EventStore {
    var streams: Streams

    constructor ()
      ensures streams == map[] && AllHoleFree(streams)
    {
      streams := map[];
    }

    method Append(scope: Scope, payload: Payload) returns (r: Result<Event, StoreError>)
      modifies this
      ensures r.Err? ==> streams == old(streams) && Appended(streams, scope, payload) == Err(r.error)
      ensures r.Ok? ==> Appended(old(streams), scope, payload) == Ok((streams, r.value))
      ensures var was := StreamOf(old(streams), scope);
        && (r.Ok? <==> 1 <= was.next <= MAX_SAFE && was.next !in was.rows)
        && (r.Err? ==> r.error == if 1 <= was.next <= MAX_SAFE then UniqueViolation else SequenceOutOfRange)
        && (r.Ok? ==> r.value == Event(scope, was.next, payload)
                      && streams == old(streams)[scope := Stream(was.next + 1, was.rows[was.next := r.value])])
      ensures old(AllKeyed(streams)) ==> AllKeyed(streams) && Grows(old(streams), streams)
      ensures old(AllHoleFree(streams)) ==> AllHoleFree(streams)
      ensures old(Numbered(streams)) ==> Numbered(streams)
    {
      var stream := StreamOf(streams, scope);
      var sequence := stream.next;
      if sequence == 0 || sequence > MAX_SAFE { return Err(SequenceOutOfRange); }
      if sequence in stream.rows { return Err(UniqueViolation); }
      var event := Event(scope, sequence, payload);
      AppendKeepsKeyed(streams, scope, payload);
      if AllHoleFree(streams) { AppendKeepsHoleFree(streams, scope, payload); }
      if Numbered(streams) { AppendKeepsNumbered(streams, scope, payload); }
      hide Numbered;
      streams := streams[scope := Stream(sequence + 1, stream.rows[sequence := event])];
      r := Ok(event);
    }

    method LoadAfter(scope: Scope, after: nat, limit: nat) returns (batch: EventBatch)
      ensures batch == Loaded(streams, scope, after, limit)
    {
      if scope !in streams { return EventBatch([], 0, None); }
      var stream := streams[scope];
      var highWatermark := if stream.next == 0 then 0 else stream.next - 1;
      var rows := Selected(stream, after, limit);
      var events: seq<Event> := [];
      for i := 0 to |rows|
        invariant events == rows[..i]
      {
        events := events + [rows[i]];
      }
      batch := EventBatch(events, highWatermark, GapAt(events, after, highWatermark));
    }

    /** Other publishers may append anything between two reads. */
    method Interfere()
      requires AllKeyed(streams)
      modifies this
      ensures AllKeyed(streams) && Grows(old(streams), streams)
      ensures old(AllHoleFree(streams)) ==> AllHoleFree(streams)
      ensures old(Numbered(streams)) ==> Numbered(streams)
    {
      var appends: int := *;
      while appends > 0
        invariant AllKeyed(streams) && Grows(old(streams), streams)
        invariant old(AllHoleFree(streams)) ==> AllHoleFree(streams)
        invariant old(Numbered(streams)) ==> Numbered(streams)
      {
        var scope: Scope, payload: Payload := *, *;
        ghost var before := streams;
        var appended := Append(scope, payload);
        GrowsTransitive(old(streams), before, streams);
        appends := appends - 1;
      }
    }
  }

  lemma GrowsTransitive(a: Streams, b: Streams, c: Streams)
    requires Grows(a, b) && Grows(b, c)
    ensures Grows(a, c)
  {}

  lemma HighGrows(before: Streams, after: Streams, scope: Scope)
    requires AllHoleFree(before) && Grows(before, after)
    ensures High(before, scope) <= High(after, scope)
  {}

  lemma GrowsReflexive(streams: Streams)
    ensures Grows(streams, streams)
  {}

  /** What was readable stays readable, and reads the same. */
  lemma RunGrows(before: Streams, after: Streams, scope: Scope, a: nat, b: nat)
    requires AllHoleFree(before) && AllHoleFree(after) && Grows(before, after)
    requires b <= High(before, scope)
    ensures b <= High(after, scope)
    ensures (forall k | a < k <= b :: k in StreamOf(before, scope).rows && k in StreamOf(after, scope).rows)
    ensures Run(before, scope, a, b) == Run(after, scope, a, b)
  {
    RunInside(before, scope, a, b);
    if scope in before {
      RunInside(after, scope, a, b);
    }
  }
}
