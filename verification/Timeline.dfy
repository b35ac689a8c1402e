/** A session's timeline as the terminal client keeps it (apps/fixtrace-tui/src/model.rs, update.rs), and the
    snapshot the server builds it from (src/application/protocol.rs): how starting from a snapshot and its
    tail compares with having followed the whole log. */
module Timeline {
  import opened Common
  import opened EventLog
  import Connection

  datatype Item = AgentMessage(id: nat, text: string, completed: bool) | OtherItem(id: nat, body: string)

  /** The payloads, as far as they touch the timeline. */
  datatype AppEvent =
    | ItemStarted(item: Item)
    | ItemCompleted(item: Item)
    | AgentDelta(id: nat, text: string)
    | SessionUpdated
    | OtherEvent(body: string)

  // ---- the client's list ----

  /** The index of the first entry with this id, or the length. */
  function Position(items: seq<Item>, id: nat): (i: nat)
    ensures i <= |items| && (i < |items| ==> items[i].id == id)
    ensures forall j | 0 <= j < i :: items[j].id != id
  {
    if items == [] || items[0].id == id then 0 else 1 + Position(items[1..], id)
  }

  function Lookup(items: seq<Item>, id: nat): Option<Item> {
    var i := Position(items, id);
    if i < |items| then Some(items[i]) else None
  }

  function Upserted(items: seq<Item>, item: Item): seq<Item> {
    var i := Position(items, item.id);
    if i < |items| then items[i := item] else items + [item]
  }

  function Extended(items: seq<Item>, id: nat, text: string): seq<Item> {
    var i := Position(items, id);
    if i < |items| && items[i].AgentMessage? then items[i := items[i].(text := items[i].text + text)] else items
  }

  function Applied(items: seq<Item>, event: AppEvent): seq<Item> {
    match event
    case ItemStarted(item) => Upserted(items, item)
    case ItemCompleted(item) => Upserted(items, item)
    case AgentDelta(id, text) => Extended(items, id, text)
    case _ => items
  }

  function Replayed(items: seq<Item>, events: seq<AppEvent>): seq<Item> {
    if events == [] then items else Applied(Replayed(items, events[..|events| - 1]), events[|events| - 1])
  }

  // ---- one item's story ----

  /** What an event does to the one item `id`. */
  function Seen(item: Option<Item>, id: nat, event: AppEvent): Option<Item> {
    match event
    case ItemStarted(i) => if i.id == id then Some(i) else item
    case ItemCompleted(i) => if i.id == id then Some(i) else item
    case AgentDelta(i, text) => if i == id then Grown(item, text) else item
    case _ => item
  }

  function Grown(item: Option<Item>, text: string): Option<Item> {
    if item.Some? && item.value.AgentMessage? then Some(item.value.(text := item.value.text + text)) else item
  }

  function Story(item: Option<Item>, id: nat, events: seq<AppEvent>): Option<Item> {
    if events == [] then item else Seen(Story(item, id, events[..|events| - 1]), id, events[|events| - 1])
  }

  ghost predicate DistinctIds(items: seq<Item>) {
    forall i, j | 0 <= i < j < |items| :: items[i].id != items[j].id
  }

  lemma PositionIs(items: seq<Item>, i: nat)
    requires DistinctIds(items) && i < |items|
    ensures Position(items, items[i].id) == i
  {}

  lemma NoPosition(items: seq<Item>, id: nat)
    requires forall j | 0 <= j < |items| :: items[j].id != id
    ensures Lookup(items, id) == None
  {}

  /** The list shows exactly what happened to each item, whatever happened to the others between. */
  lemma AppliedShows(items: seq<Item>, event: AppEvent, id: nat)
    requires DistinctIds(items)
    ensures DistinctIds(Applied(items, event)) && Lookup(Applied(items, event), id) == Seen(Lookup(items, id), id, event)
  {
    match event {
      case ItemStarted(item) => UpsertedShows(items, item, id);
      case ItemCompleted(item) => UpsertedShows(items, item, id);
      case AgentDelta(i, text) => ReplacedShows(items, Position(items, i), id);
      case _ =>
    }
  }

  /** Entries keep their places; a new one comes last. */
  lemma AppliedKeepsOrder(items: seq<Item>, event: AppEvent)
    ensures var after := Applied(items, event);
      && |items| <= |after| <= |items| + 1 && forall i | 0 <= i < |items| :: after[i].id == items[i].id
  {}

  lemma UpsertedShows(items: seq<Item>, item: Item, id: nat)
    requires DistinctIds(items)
    ensures DistinctIds(Upserted(items, item))
    ensures Lookup(Upserted(items, item), id) == if id == item.id then Some(item) else Lookup(items, id)
  {
    var i := Position(items, item.id);
    if i < |items| {
      SameIdShows(items, i, item, id);
    } else {
      var after := items + [item];
      assert DistinctIds(after);
      if id == item.id {
        PositionIs(after, |items|);
      } else if Lookup(items, id).Some? {
        assert after[Position(items, id)].id == id;
        PositionIs(after, Position(items, id));
      } else {
        NoPosition(after, id);
      }
    }
  }

  lemma SameIdShows(items: seq<Item>, i: nat, item: Item, id: nat)
    requires DistinctIds(items) && i < |items| && items[i].id == item.id
    ensures DistinctIds(items[i := item])
    ensures Lookup(items[i := item], id) == if id == item.id then Some(item) else Lookup(items, id)
  {
    var after := items[i := item];
    assert DistinctIds(after);
    if Lookup(items, id).Some? {
      assert after[Position(items, id)].id == id;
      PositionIs(after, Position(items, id));
      PositionIs(items, i);
    } else {
      NoPosition(after, id);
    }
  }

  lemma ReplacedShows(items: seq<Item>, i: nat, id: nat)
    requires DistinctIds(items)
    ensures i < |items| && items[i].AgentMessage? ==> forall text ::
      var item := items[i].(text := text);
      DistinctIds(items[i := item]) && Lookup(items[i := item], id) == if id == item.id then Some(item) else Lookup(items, id)
  {
    if i < |items| && items[i].AgentMessage? {
      forall text ensures
        var item := items[i].(text := text);
        DistinctIds(items[i := item]) && Lookup(items[i := item], id) == if id == item.id then Some(item) else Lookup(items, id)
      {
        SameIdShows(items, i, items[i].(text := text), id);
      }
    }
  }

  lemma {:induction false} ReplayedShows(items: seq<Item>, events: seq<AppEvent>, id: nat)
    requires DistinctIds(items)
    ensures DistinctIds(Replayed(items, events)) && Lookup(Replayed(items, events), id) == Story(Lookup(items, id), id, events)
  {
    if events != [] {
      var front := events[..|events| - 1];
      ReplayedShows(items, front, id);
      AppliedShows(Replayed(items, front), events[|events| - 1], id);
    }
  }

  lemma {:induction false} StoryAppend(item: Option<Item>, id: nat, a: seq<AppEvent>, b: seq<AppEvent>)
    ensures Story(item, id, a + b) == Story(Story(item, id, a), id, b)
  {
    if b == [] {
      assert a + b == a;
    } else {
      assert (a + b)[..|a + b| - 1] == a + b[..|b| - 1];
      StoryAppend(item, id, a, b[..|b| - 1]);
    }
  }

  // ---- the snapshot ----

  predicate Restates(event: AppEvent, id: nat) {
    (event.ItemStarted? || event.ItemCompleted?) && event.item.id == id
  }

  /** The last start or completion of `id`. */
  function Latest(events: seq<AppEvent>, id: nat): Option<Item> {
    if events == [] then None
    else if Restates(events[|events| - 1], id) then Some(events[|events| - 1].item)
    else Latest(events[..|events| - 1], id)
  }

  function Folded(items: map<nat, Item>, event: AppEvent): map<nat, Item> {
    match event
    case ItemStarted(item) => items[item.id := item]
    case ItemCompleted(item) => items[item.id := item]
    case _ => items
  }

  /** The map that the snapshot's loop builds. */
  function SnapshotItems(events: seq<AppEvent>): map<nat, Item> {
    if events == [] then map[] else Folded(SnapshotItems(events[..|events| - 1]), events[|events| - 1])
  }

  function Listed(items: map<nat, Item>, keys: seq<nat>): (r: seq<Item>)
    requires forall i | 0 <= i < |keys| :: keys[i] in items
    ensures |r| == |keys| && forall i | 0 <= i < |keys| :: r[i] == items[keys[i]]
  {
    seq(|keys|, i requires 0 <= i < |keys| => items[keys[i]])
  }

  /** `into_values` of the ordered map. */
  function Values(items: map<nat, Item>): seq<Item> {
    AscendingElements(items.Keys);
    assert forall i | 0 <= i < |Ascending(items.Keys)| :: Ascending(items.Keys)[i] in items.Keys;
    Listed(items, Ascending(items.Keys))
  }

  lemma {:induction false} SnapshotHolds(events: seq<AppEvent>)
    ensures forall id :: (id in SnapshotItems(events) <==> Latest(events, id).Some?)
    ensures forall id | id in SnapshotItems(events) :: Latest(events, id) == Some(SnapshotItems(events)[id]) && SnapshotItems(events)[id].id == id
  {
    if events != [] {
      SnapshotHolds(events[..|events| - 1]);
    }
  }

  lemma SnapshotShows(events: seq<AppEvent>, id: nat)
    ensures DistinctIds(Values(SnapshotItems(events))) && Lookup(Values(SnapshotItems(events)), id) == Latest(events, id)
    ensures var list := Values(SnapshotItems(events)); forall i, j | 0 <= i < j < |list| :: list[i].id < list[j].id
  {
    var items := SnapshotItems(events);
    var keys, list := Ascending(items.Keys), Values(items);
    SnapshotHolds(events);
    AscendingLists(items.Keys);
    hide Ascending, SnapshotItems, Latest;
    assert forall i | 0 <= i < |keys| :: keys[i] in items.Keys && list[i].id == keys[i];
    if id in items {
      assert id in keys;
      var i :| 0 <= i < |keys| && keys[i] == id;
      PositionIs(list, i);
    } else {
      NoPosition(list, id);
    }
  }

  /** The text streamed to `id` since its last start or completion. */
  function Streamed(events: seq<AppEvent>, id: nat): string {
    if events == [] then ""
    else
      var front, last := events[..|events| - 1], events[|events| - 1];
      if Restates(last, id) then ""
      else if last.AgentDelta? && last.id == id && IsMessage(Latest(front, id)) then Streamed(front, id) + last.text
      else Streamed(front, id)
  }

  predicate IsMessage(item: Option<Item>) { item.Some? && item.value.AgentMessage? }

  lemma GrownByNothing(item: Option<Item>)
    ensures Grown(item, "") == item
  {
    if IsMessage(item) { assert item.value.text + "" == item.value.text; }
  }

  /** Following the whole log shows the last start or completion, and the text streamed since. */
  lemma {:induction false} StoryIs(events: seq<AppEvent>, id: nat)
    ensures Story(None, id, events) == Grown(Latest(events, id), Streamed(events, id))
    ensures Latest(events, id) == None ==> Streamed(events, id) == ""
  {
    if events != [] {
      var front, last := events[..|events| - 1], events[|events| - 1];
      StoryIs(front, id);
      GrownByNothing(Latest(events, id));
      if last.AgentDelta? && last.id == id && IsMessage(Latest(front, id)) {
        var text := Latest(front, id).value.text;
        assert (text + Streamed(front, id)) + last.text == text + (Streamed(front, id) + last.text);
      }
    }
  }

  /** Two views of an item that differ at most by streamed text come together at the next restatement, and else stay apart. */
  lemma {:induction false} StoriesMeet(item: Option<Item>, text: string, id: nat, events: seq<AppEvent>)
    requires !IsMessage(item) ==> text == ""
    ensures (Story(item, id, events) == Story(Grown(item, text), id, events))
      <==> (text == "" || exists i :: 0 <= i < |events| && Restates(events[i], id))
  {
    var restated := exists i :: 0 <= i < |events| && Restates(events[i], id);
    if restated {
      var i :| 0 <= i < |events| && Restates(events[i], id);
      var a, b := Story(item, id, events[..i]), Story(Grown(item, text), id, events[..i]);
      assert events == events[..i] + [events[i]] + events[i + 1..];
      StoryAppend(item, id, events[..i] + [events[i]], events[i + 1..]);
      StoryAppend(Grown(item, text), id, events[..i] + [events[i]], events[i + 1..]);
      StoryRestated(item, id, events[..i], events[i]);
      StoryRestated(Grown(item, text), id, events[..i], events[i]);
    } else if text == "" {
      GrownByNothing(item);
    } else {
      StoriesApart(item, Grown(item, text), id, events);
    }
  }

  lemma StoryRestated(item: Option<Item>, id: nat, front: seq<AppEvent>, event: AppEvent)
    requires Restates(event, id)
    ensures Story(item, id, front + [event]) == Some(event.item)
  {
    assert (front + [event])[..|front|] == front;
  }

  /** Texts of different lengths stay different as long as both only grow. */
  lemma {:induction false} StoriesApart(a: Option<Item>, b: Option<Item>, id: nat, events: seq<AppEvent>)
    requires IsMessage(a) && IsMessage(b) && |a.value.text| < |b.value.text|
    requires forall i | 0 <= i < |events| :: !Restates(events[i], id)
    ensures IsMessage(Story(a, id, events)) && IsMessage(Story(b, id, events))
    ensures |Story(a, id, events).value.text| < |Story(b, id, events).value.text|
  {
    if events != [] {
      StoriesApart(a, b, id, events[..|events| - 1]);
    }
  }

  /** A client started from the snapshot at `w` and fed the tail shows an item exactly as one that followed the
      whole log does, if and only if no text was streamed to it between its last start or completion and `w`,
      or it is started or completed again in the tail. */
  lemma ConvergesExactly(events: seq<AppEvent>, w: nat, id: nat)
    requires w <= |events|
    ensures (Lookup(Replayed(Values(SnapshotItems(events[..w])), events[w..]), id) == Lookup(Replayed([], events), id))
      <==> (Streamed(events[..w], id) == "" || exists i :: w <= i < |events| && Restates(events[i], id))
  {
    var before, tail := events[..w], events[w..];
    assert events == before + tail;
    SnapshotShows(before, id);
    ReplayedShows(Values(SnapshotItems(before)), tail, id);
    ReplayedShows([], events, id);
    StoryAppend(None, id, before, tail);
    StoryIs(before, id);
    StreamedNeedsMessage(before, id);
    StoriesMeet(Latest(before, id), Streamed(before, id), id, tail);
    hide Lookup, Replayed, Values, SnapshotItems, Latest, Streamed, Story;
    if i :| 0 <= i < |tail| && Restates(tail[i], id) { assert Restates(events[w + i], id); }
    if i :| w <= i < |events| && Restates(events[i], id) { assert Restates(tail[i - w], id); }
  }

  lemma {:induction false} StreamedNeedsMessage(events: seq<AppEvent>, id: nat)
    ensures !IsMessage(Latest(events, id)) ==> Streamed(events, id) == ""
  {
    if events != [] {
      StreamedNeedsMessage(events[..|events| - 1], id);
    }
  }

  /** A message whose start and first words lie before the snapshot loses those words until it completes. */
  lemma SnapshotLosesText(id: nat, text: string)
    requires text != ""
    ensures var events := [ItemStarted(AgentMessage(id, "", false)), AgentDelta(id, text)];
      Lookup(Replayed(Values(SnapshotItems(events)), []), id) != Lookup(Replayed([], events), id)
  {
    var started := ItemStarted(AgentMessage(id, "", false));
    var events := [started, AgentDelta(id, text)];
    assert events[..2] == events && events[2..] == [] && events[..1] == [started];
    assert Latest([started], id) == Some(started.item) && Streamed([started], id) == "";
    assert Streamed(events, id) == "" + text;
    ConvergesExactly(events, 2, id);
  }

  // ---- over the store ----

  type Decoder = Payload -> AppEvent

  function Decoded(events: seq<Event>, decode: Decoder): (r: seq<AppEvent>)
    ensures |r| == |events| && forall i | 0 <= i < |r| :: r[i] == decode(events[i].payload)
  {
    seq(|events|, i requires 0 <= i < |events| => decode(events[i].payload))
  }

  /** What the client holds after the snapshot at `w` and the events w + 1 .. n, accepted once and in order. */
  lemma SnapshotAndTailConverge(streams: Streams, scope: Scope, w: nat, n: nat, decode: Decoder, id: nat)
    requires AllHoleFree(streams) && w <= n <= High(streams, scope)
    requires forall k | 0 < k <= n :: k in StreamOf(streams, scope).rows
    ensures var before, tail := Decoded(Run(streams, scope, 0, w), decode), Decoded(Run(streams, scope, w, n), decode);
      (Lookup(Replayed(Values(SnapshotItems(before)), tail), id)
        == Lookup(Replayed([], Decoded(Run(streams, scope, 0, n), decode)), id))
      <==> (Streamed(before, id) == "" || exists i :: 0 <= i < n - w && Restates(tail[i], id))
  {
    hide Lookup, Replayed, Values, SnapshotItems, Streamed, AllHoleFree, High, Restates;
    var before, tail := Decoded(Run(streams, scope, 0, w), decode), Decoded(Run(streams, scope, w, n), decode);
    var events := Decoded(Run(streams, scope, 0, n), decode);
    DecodedSplit(streams, scope, w, n, decode);
    ConvergesExactly(events, w, id);
    if i :| 0 <= i < n - w && Restates(tail[i], id) { assert Restates(events[w + i], id); }
    if i :| w <= i < n && Restates(events[i], id) { assert Restates(tail[i - w], id); }
  }

  lemma DecodedSplit(streams: Streams, scope: Scope, w: nat, n: nat, decode: Decoder)
    requires AllHoleFree(streams) && w <= n <= High(streams, scope)
    requires forall k | 0 < k <= n :: k in StreamOf(streams, scope).rows
    ensures var events := Decoded(Run(streams, scope, 0, n), decode);
      && |events| == n && events[..w] == Decoded(Run(streams, scope, 0, w), decode)
      && events[w..] == Decoded(Run(streams, scope, w, n), decode)
  {
    Connection.RunAppend(streams, scope, 0, w, n);
    hide AllHoleFree, High, Run;
    assert Decoded(Run(streams, scope, 0, n), decode) == Decoded(Run(streams, scope, 0, w), decode) + Decoded(Run(streams, scope, w, n), decode);
  }

  // ---- the code ----

  class Model {
    var selected: Option<SessionId>
    var session: Option<seq<Item>>
    var lastSequence: nat

    constructor ()
      ensures selected == None && session == None && lastSequence == 0
    {
      selected, session, lastSequence := None, None, 0;
    }

    method OpenSnapshot(id: SessionId, throughSequence: nat, timeline: seq<Item>)
      modifies this
      ensures selected == Some(id) && session == Some(timeline) && lastSequence == throughSequence
    {
      selected, session, lastSequence := Some(id), Some(timeline), throughSequence;
    }

    method UpsertTimeline(item: Item)
      modifies this`session
      ensures session == match old(session) { case None => None case Some(items) => Some(Upserted(items, item)) }
    {
      match session {
        case None => return;
        case Some(items) =>
          var i := Find(items, item.id);
          session := Some(if i < |items| then items[i := item] else items + [item]);
      }
    }

    method ApplyEvent(sequence: nat, event: AppEvent)
      modifies this`session, this`lastSequence
      ensures lastSequence == Max(old(lastSequence), sequence)
      ensures session == match old(session) { case None => None case Some(items) => Some(Applied(items, event)) }
    {
      lastSequence := Max(lastSequence, sequence);
      match event {
        case ItemStarted(item) => UpsertTimeline(item);
        case ItemCompleted(item) => UpsertTimeline(item);
        case AgentDelta(id, text) =>
          match session {
            case None =>
            case Some(items) =>
              var i := Find(items, id);
              if i < |items| {
                match items[i] {
                  case AgentMessage(_, _, _) => session := Some(items[i := items[i].(text := items[i].text + text)]);
                  case OtherItem(_, _) =>
                }
              }
          }
        case _ =>
      }
    }

    /** Events of other sessions, and those the client is already past, change nothing. */
    method OnServerEvent(scope: Scope, sequence: nat, event: AppEvent)
      modifies this`session, this`lastSequence
      ensures scope != selected || sequence <= old(lastSequence) ==> session == old(session) && lastSequence == old(lastSequence)
      ensures scope == selected && sequence > old(lastSequence) ==> lastSequence == sequence
      ensures scope == selected && sequence > old(lastSequence) ==>
        session == match old(session) { case None => None case Some(items) => Some(Applied(items, event)) }
    {
      if scope != selected || sequence <= lastSequence { return; }
      ApplyEvent(sequence, event);
    }
  }

  method Find(items: seq<Item>, id: nat) returns (i: nat)
    ensures i == Position(items, id)
  {
    i := 0;
    while i < |items| && items[i].id != id
      invariant i <= |items| && forall j | 0 <= j < i :: items[j].id != id
    {
      i := i + 1;
    }
  }
}
