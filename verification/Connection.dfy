/** One client connection on the server (apps/fixtrace-server/src/connection.rs): its subscriptions, each
    with a cursor, fed from live events and from pages of the store. */
module Connection {
  import opened Common
  import opened EventLog
  import opened Pages

  type SubscriptionId = nat

  datatype Subscription = Subscription(session: SessionId, lastSequence: nat, gapped: bool)

  datatype ServerFrame = Response(requestId: nat) | EventFrame(event: Event) | GapFrame(session: SessionId, gap: Gap)

  datatype ConnectionAction =
    | NoAction
    | Close
    | Subscribe(id: SubscriptionId, session: SessionId, after: Option<nat>)
    | Unsubscribe(id: SubscriptionId)

  // ---- the decisions, shared with the protocol model ----

  datatype LiveVerdict = Ignore | Deliver | CatchUp

  function Verdict(s: Subscription, sequence: nat): LiveVerdict {
    if s.gapped || sequence <= s.lastSequence then Ignore
    else if sequence == SaturatingIncrement(s.lastSequence) then Deliver
    else CatchUp
  }

  /** How the loop of `catch_up` goes on after a page. */
  datatype PageOutcome = GapSeen(gap: Gap) | Complete(last: nat) | More(last: nat)

  function OnPage(last: nat, target: nat, batch: EventBatch): PageOutcome {
    if batch.gap.Some? then GapSeen(batch.gap.value)
    else if batch.events == [] then Complete(last)
    else
      var reached := batch.events[|batch.events| - 1].sequence;
      if reached >= target then Complete(reached) else More(reached)
  }

  // ---- frames ----

  function EventFrames(events: seq<Event>): (r: seq<ServerFrame>)
    ensures |r| == |events|
    ensures forall i | 0 <= i < |r| :: r[i] == EventFrame(events[i])
  {
    seq(|events|, i requires 0 <= i < |events| => EventFrame(events[i]))
  }

  lemma EventFramesAppend(a: seq<Event>, b: seq<Event>)
    ensures EventFrames(a + b) == EventFrames(a) + EventFrames(b)
  {}

  /** The frames of one session. */
  function Addressed(frames: seq<ServerFrame>, session: SessionId): seq<ServerFrame> {
    if frames == [] then []
    else
      var f := frames[|frames| - 1];
      Addressed(frames[..|frames| - 1], session)
        + if (f.EventFrame? && f.event.scope == Some(session)) || (f.GapFrame? && f.session == session) then [f] else []
  }

  lemma AddressedNone()
    ensures forall session :: Addressed([], session) == []
  {}

  lemma {:induction false} AddressedAppend(a: seq<ServerFrame>, b: seq<ServerFrame>, session: SessionId)
    ensures Addressed(a + b, session) == Addressed(a, session) + Addressed(b, session)
  {
    if b == [] {
      assert a + b == a;
    } else {
      var front := b[..|b| - 1];
      AddressedAppend(a, front, session);
      assert (a + b)[..|a + b| - 1] == a + front;
    }
  }

  lemma {:induction false} AddressedAll(events: seq<Event>, scope: Scope, session: SessionId)
    requires forall i | 0 <= i < |events| :: events[i].scope == scope
    ensures Addressed(EventFrames(events), session) == if scope == Some(session) then EventFrames(events) else []
  {
    if events != [] {
      var front := events[..|events| - 1];
      AddressedAll(front, scope, session);
      assert EventFrames(events)[..|events| - 1] == EventFrames(front);
    }
  }

  lemma RunScope(streams: Streams, scope: Scope, a: nat, b: nat)
    requires AllHoleFree(streams) && b <= High(streams, scope)
    ensures forall k | a < k <= b :: k in StreamOf(streams, scope).rows
    ensures forall i | 0 <= i < |Run(streams, scope, a, b)| ::
      Run(streams, scope, a, b)[i].scope == scope && Run(streams, scope, a, b)[i].sequence == a + 1 + i
  {
    RunInside(streams, scope, a, b);
  }

  lemma RunAppend(streams: Streams, scope: Scope, a: nat, b: nat, c: nat)
    requires AllHoleFree(streams) && a <= b <= c && (c <= High(streams, scope) || b == c)
    requires b <= High(streams, scope) || a == b
    ensures forall k | a < k <= c :: k in StreamOf(streams, scope).rows
    ensures Run(streams, scope, a, b) + Run(streams, scope, b, c) == Run(streams, scope, a, c)
  {
    if a < c {
      RunInside(streams, scope, a, c);
    }
  }

  class ConnectionState {
    const store: EventStore
    var subscriptions: map<SubscriptionId, Subscription>
    var seenRequestIds: set<nat>
    var requestOrder: seq<nat>

    ghost predicate Valid()
      reads this, store
    {
      && AllKeyed(store.streams)
      && (forall i, j | i in subscriptions && j in subscriptions && i != j :: subscriptions[i].session != subscriptions[j].session)
      && (forall x :: x in seenRequestIds <==> x in requestOrder)
      && Distinct(requestOrder) && |requestOrder| <= 4_096
    }

    constructor (store: EventStore)
      requires AllKeyed(store.streams)
      ensures Valid() && this.store == store && subscriptions == map[] && requestOrder == []
    {
      this.store := store;
      subscriptions, seenRequestIds, requestOrder := map[], {}, [];
    }

    /** A request id is refused while it is among the last 4096 accepted ones, and only then. */
    method RememberRequestId(requestId: nat) returns (accepted: bool)
      requires Valid()
      modifies this`seenRequestIds, this`requestOrder
      ensures Valid()
      ensures accepted <==> requestId !in old(requestOrder)
      ensures requestOrder == if !accepted then old(requestOrder)
        else if |old(requestOrder)| < 4_096 then old(requestOrder) + [requestId]
        else old(requestOrder)[1..] + [requestId]
    {
      if requestId in seenRequestIds { return false; }
      DistinctSnoc(requestOrder, requestId);
      seenRequestIds, requestOrder := seenRequestIds + {requestId}, requestOrder + [requestId];
      if |requestOrder| > 4_096 {
        var expired := requestOrder[0];
        DistinctTail(requestOrder);
        requestOrder, seenRequestIds := requestOrder[1..], seenRequestIds - {expired};
      }
      accepted := true;
    }

    /** Pages from the cursor up to what was the end of the stream when the first page was read, while
        other publishers go on appending. Everything stored behind the cursor goes out in order, up to a row that is
        missing where a page begins; then comes the gap. On a hole-free store it is exactly the run behind the cursor. */
    method CatchUpFrom(session: SessionId, after: nat) returns (frames: seq<ServerFrame>, last: nat, gapped: bool)
      requires AllKeyed(store.streams)
      modifies store
      ensures AllKeyed(store.streams) && Grows(old(store.streams), store.streams)
      ensures old(AllHoleFree(store.streams)) ==> AllHoleFree(store.streams)
      ensures old(AllHoleFree(store.streams)) ==> !gapped && CaughtUp(old(store.streams), store.streams, session, after, last, frames)
      ensures gapped ==> Warned(frames, session, last)
      ensures OnlyFrames(frames, session, gapped)
      ensures old(Numbered(store.streams)) ==> Numbered(store.streams)
      ensures old(Numbered(store.streams)) && after <= MAX_SAFE ==>
        Reported(old(store.streams), store.streams, session, after, last, gapped, frames)
      ensures var gap := Loaded(old(store.streams), Some(session), after, PAGE).gap;
        gap.Some? ==> gapped && frames == [GapFrame(session, gap.value)] && last == gap.value.highWatermark
    {
      hide *;
      ghost var before, read := store.streams, store.streams;
      ghost var holeFree := AllHoleFree(before);
      var batch := store.LoadAfter(Some(session), after, PAGE);
      var target := batch.highWatermark;
      frames, last := [], after;
      ghost var numbered := Numbered(before) && after <= MAX_SAFE;
      PageBounds(before, session, after);
      GrowsReflexive(before);
      if holeFree { FrontierStart(before, session, after); }
      SendingStarts(before, session, after);
      OnlyNone(session);
      while true
        invariant (old(Numbered(store.streams)) ==> Numbered(store.streams)) && OnlyFrames(frames, session, false)
        invariant numbered ==> Sent(read, session, after, last, frames)
        invariant AllKeyed(store.streams) && Grows(before, store.streams) && read == store.streams
        invariant batch == Loaded(read, Some(session), last, PAGE) && PageAhead(batch, last)
        invariant target == High(before, Some(session))
        invariant holeFree ==> AllHoleFree(store.streams)
        invariant holeFree ==> FrontierReached(read, session, after, last, target, frames)
        invariant Loaded(before, Some(session), after, PAGE).gap.Some? ==> frames == [] && batch == Loaded(before, Some(session), after, PAGE)
        decreases target - last
      {
        GapFirst(last, target, batch);
        if holeFree { FrontierStep(read, session, after, last, target, frames); }
        PageAscends(read, Some(session), last, PAGE);
        OnlyMore(frames, session, batch.events);
        if numbered {
          HighRises(before, read, Some(session));
          SendingMoves(read, session, after, last, target, frames);
        }
        match OnPage(last, target, batch) {
          case GapSeen(gap) =>
            WarnedBy(frames, session, gap);
            OnlyGap(frames, session, gap);
            if numbered { EndsInGap(before, read, session, after, last, gap, frames); }
            return frames + [GapFrame(session, gap)], gap.highWatermark, true;
          case Complete(reached) =>
            if numbered { EndsComplete(before, read, session, after, reached, frames + EventFrames(batch.events)); }
            if holeFree { CaughtUpIs(before, read, session, after, reached, frames + EventFrames(batch.events)); }
            return frames + EventFrames(batch.events), reached, false;
          case More(reached) =>
            Progress(last, target, batch);
            frames, last := frames + EventFrames(batch.events), reached;
        }
        store.Interfere();
        GrowsTransitive(before, read, store.streams);
        if holeFree { FrontierGrows(read, store.streams, session, after, last, target, frames); }
        if numbered { SendingGrows(read, store.streams, session, after, last, frames); }
        read := store.streams;
        batch := store.LoadAfter(Some(session), last, PAGE);
        PageBounds(read, session, last);
      }
    }

    ghost predicate Subscribed(id: SubscriptionId, session: SessionId)
      reads this
    {
      id in subscriptions && subscriptions[id].session == session
    }

    /** A live event moves the one subscription of its session, and only when it is news. On a hole-free
        store the frames sent are exactly the run from the old cursor to the new one, whatever order the
        broadcast came in, and the new cursor has passed the event. */
    method OnLiveEvent(event: Event) returns (frames: seq<ServerFrame>)
      requires Valid()
      modifies this`subscriptions, store
      ensures Valid() && Grows(old(store.streams), store.streams)
      ensures old(AllHoleFree(store.streams)) ==> AllHoleFree(store.streams)
      ensures subscriptions.Keys == old(subscriptions).Keys
      ensures forall id | id in subscriptions :: subscriptions[id].session == old(subscriptions)[id].session
      ensures forall id | id in subscriptions && Some(subscriptions[id].session) != event.scope ::
        subscriptions[id] == old(subscriptions)[id]
      ensures (forall id | id in subscriptions :: Some(subscriptions[id].session) != event.scope) ==> frames == []
      ensures forall id | id in subscriptions && Some(subscriptions[id].session) == event.scope ::
        Moved(old(store.streams), store.streams, old(subscriptions)[id], subscriptions[id], event, frames)
    {
      hide CaughtUp, FramesAreRun, AllKeyed, AllHoleFree, Grows, High, EventFrames, Moved;
      GrowsReflexive(store.streams);
      frames := [];
      if event.scope.None? || forall id | id in subscriptions :: subscriptions[id].session != event.scope.value {
        return;
      }
      var session := event.scope.value;
      var id :| id in subscriptions && subscriptions[id].session == session;
      var subscription := subscriptions[id];
      match Verdict(subscription, event.sequence) {
        case Ignore =>
          MovedIgnore(store.streams, subscription, event);
        case Deliver =>
          subscriptions := subscriptions[id := subscription.(lastSequence := event.sequence)];
          frames := [EventFrame(event)];
          MovedDeliver(store.streams, subscription, event);
        case CatchUp =>
          ghost var before := store.streams;
          var last, gapped;
          frames, last, gapped := CatchUpFrom(session, subscription.lastSequence);
          subscriptions := subscriptions[id := subscription.(lastSequence := last, gapped := gapped)];
          MovedCatchUp(before, store.streams, subscription, last, gapped, event, frames);
      }
    }

    /** After a lag every subscription that is not gapped catches up on its own session. */
    method RecoverLagged() returns (frames: seq<ServerFrame>)
      requires Valid()
      modifies this`subscriptions, store
      ensures Valid() && Grows(old(store.streams), store.streams)
      ensures old(AllHoleFree(store.streams)) ==> AllHoleFree(store.streams)
      ensures subscriptions.Keys == old(subscriptions).Keys
      ensures forall id | id in subscriptions && old(subscriptions)[id].gapped :: subscriptions[id] == old(subscriptions)[id]
      ensures old(Numbered(store.streams)) ==> Numbered(store.streams)
      ensures old(AllHoleFree(store.streams)) ==> forall id | id in subscriptions && !old(subscriptions)[id].gapped ::
        Recovered(old(store.streams), store.streams, old(subscriptions)[id], subscriptions[id], frames)
      ensures forall id | id in subscriptions && !old(subscriptions)[id].gapped ::
        && (subscriptions[id].gapped ==> Warned(frames, subscriptions[id].session, subscriptions[id].lastSequence))
        && SentInFull(old(store.streams), store.streams, old(subscriptions)[id], subscriptions[id], frames)
    {
      hide CaughtUp, FramesAreRun, AllKeyed, AllHoleFree, Numbered, Grows, High, EventFrames, RecoveryStands, Warned, Turn, OnlyFrames,
           Reported, SentInFull;
      frames := [];
      ghost var before, was, holeFree := store.streams, subscriptions, AllHoleFree(store.streams);
      GrowsReflexive(before);
      var rest := set id | id in subscriptions && !subscriptions[id].gapped;
      FirstTurn(was, rest);
      forall id | id in was { RecoveryBegins(before, holeFree, was[id]); }
      while rest != {}
        invariant AllKeyed(store.streams) && Grows(before, store.streams) && (holeFree ==> AllHoleFree(store.streams))
        invariant old(Numbered(store.streams)) ==> Numbered(store.streams)
        invariant Turn(was, subscriptions, rest)
        invariant subscriptions.Keys == was.Keys && rest <= was.Keys
        invariant forall id | id in was && !was[id].gapped ::
          RecoveryStands(before, store.streams, holeFree, was[id], subscriptions[id], id in rest, frames)
      {
        var id :| id in rest;
        NextTurn(was, subscriptions, rest, id);
        rest := rest - {id};
        var subscription := subscriptions[id];
        ghost var read, sent := store.streams, frames;
        var recovered, last, gapped := CatchUpFrom(subscription.session, subscription.lastSequence);
        frames := frames + recovered;
        GrowsTransitive(before, read, store.streams);
        RecoveryStep(before, read, store.streams, holeFree, was, subscriptions, rest, id, last, gapped, sent, recovered);
        subscriptions := subscriptions[id := subscription.(lastSequence := last, gapped := gapped)];
      }
      LastTurn(was, subscriptions);
      forall id | id in was && !was[id].gapped { RecoveryEnds(before, store.streams, holeFree, was[id], subscriptions[id], frames); }
    }

    /** Subscribing replaces any subscription to the session and starts it with a full catch-up. */
    method ApplyAction(action: ConnectionAction) returns (frames: seq<ServerFrame>)
      requires Valid()
      modifies this`subscriptions, store
      ensures Valid() && Grows(old(store.streams), store.streams)
      ensures action.NoAction? || action.Close? ==> subscriptions == old(subscriptions) && frames == []
      ensures action.Unsubscribe? ==> subscriptions == old(subscriptions) - {action.id} && frames == []
      ensures action.Subscribe? ==>
        && Subscribed(action.id, action.session)
        && (forall id | id in subscriptions && id != action.id ::
              id in old(subscriptions) && subscriptions[id] == old(subscriptions)[id] && subscriptions[id].session != action.session)
        && (forall id | id in old(subscriptions) && old(subscriptions)[id].session != action.session && id != action.id :: id in subscriptions)
      ensures action.Subscribe? && old(AllHoleFree(store.streams)) ==>
        && !subscriptions[action.id].gapped
        && CaughtUp(old(store.streams), store.streams, action.session,
                    if action.after.Some? then action.after.value else 0, subscriptions[action.id].lastSequence, frames)
      ensures action.Subscribe? && subscriptions[action.id].gapped ==>
        Warned(frames, action.session, subscriptions[action.id].lastSequence)
      ensures action.Subscribe? ==> OnlyFrames(frames, action.session, subscriptions[action.id].gapped)
      ensures var after := if action.Subscribe? && action.after.Some? then action.after.value else 0;
        action.Subscribe? && old(Numbered(store.streams)) && after <= MAX_SAFE ==>
          var now := subscriptions[action.id];
          Reported(old(store.streams), store.streams, action.session, after, now.lastSequence, now.gapped, frames)
    {
      hide CaughtUp, AllKeyed, AllHoleFree, Grows;
      GrowsReflexive(store.streams);
      frames := [];
      match action {
        case NoAction =>
        case Close =>
        case Unsubscribe(id) => subscriptions := subscriptions - {id};
        case Subscribe(id, session, after) =>
          subscriptions := map i | i in subscriptions && subscriptions[i].session != session :: subscriptions[i];
          var last, gapped;
          frames, last, gapped := CatchUpFrom(session, if after.Some? then after.value else 0);
          subscriptions := subscriptions[id := Subscription(session, last, gapped)];
      }
    }
  }

  /** How a live event moves the cursor of its session, and what is sent for it. */
  ghost predicate Moved(before: Streams, after: Streams, was: Subscription, now: Subscription, event: Event, frames: seq<ServerFrame>) {
    && now.session == was.session
    && (was.gapped || event.sequence <= was.lastSequence ==> now == was && frames == [])
    && (!was.gapped && event.sequence > was.lastSequence ==>
          && OnlyFrames(frames, was.session, now.gapped)
          && if event.sequence == SaturatingIncrement(was.lastSequence)
             then now == was.(lastSequence := event.sequence) && frames == [EventFrame(event)]
             else (Numbered(before) && was.lastSequence <= MAX_SAFE ==>
                     Reported(before, after, was.session, was.lastSequence, now.lastSequence, now.gapped, frames)))
    && (now.gapped && !was.gapped ==> Warned(frames, was.session, now.lastSequence))
    && (!was.gapped && AllHoleFree(before) && Published(before, event) && event.scope == Some(was.session) ==>
          && !now.gapped && now.lastSequence >= event.sequence
          && FramesAreRun(after, was.session, was.lastSequence, now.lastSequence, frames))
  }

  ghost predicate Published(streams: Streams, event: Event) {
    event.sequence in StreamOf(streams, event.scope).rows && StreamOf(streams, event.scope).rows[event.sequence] == event
  }

  lemma MovedIgnore(streams: Streams, s: Subscription, event: Event)
    requires Verdict(s, event.sequence).Ignore?
    ensures Moved(streams, streams, s, s, event, [])
  {}

  lemma MovedDeliver(streams: Streams, s: Subscription, event: Event)
    requires Verdict(s, event.sequence).Deliver? && event.scope == Some(s.session)
    ensures Moved(streams, streams, s, s.(lastSequence := event.sequence), event, [EventFrame(event)])
  {
    var scope := Some(s.session);
    if AllHoleFree(streams) && Published(streams, event) && event.scope == scope {
      assert Run(streams, scope, s.lastSequence, event.sequence) == [event];
    }
  }

  lemma MovedCatchUp(before: Streams, after: Streams, s: Subscription, last: nat, gapped: bool, event: Event, frames: seq<ServerFrame>)
    requires Verdict(s, event.sequence).CatchUp?
    requires AllHoleFree(before) ==> !gapped && CaughtUp(before, after, s.session, s.lastSequence, last, frames)
    requires gapped ==> Warned(frames, s.session, last)
    requires OnlyFrames(frames, s.session, gapped)
    requires Numbered(before) && s.lastSequence <= MAX_SAFE ==> Reported(before, after, s.session, s.lastSequence, last, gapped, frames)
    ensures Moved(before, after, s, s.(lastSequence := last, gapped := gapped), event, frames)
  {
    if AllHoleFree(before) && Published(before, event) && event.scope == Some(s.session) {
      assert event.sequence in Span(0, High(before, event.scope));
    }
  }

  /** After recovery the cursor has passed everything stored at the lag, and the frames of the session
      are exactly the run between the two cursors. */
  ghost predicate Recovered(before: Streams, after: Streams, was: Subscription, now: Subscription, frames: seq<ServerFrame>) {
    && now.session == was.session && !now.gapped
    && CaughtUp(before, after, was.session, was.lastSequence, now.lastSequence, Addressed(frames, was.session))
  }

  /** Whose turn is still to come, or never comes, is as it was; nobody changes sessions. */
  ghost predicate Turn(was: map<SubscriptionId, Subscription>, subs: map<SubscriptionId, Subscription>, rest: set<SubscriptionId>) {
    && subs.Keys == was.Keys
    && (forall i, j | i in was && j in was && i != j :: was[i].session != was[j].session)
    && (forall i | i in rest :: i in was && !was[i].gapped)
    && (forall i | i in was :: subs[i].session == was[i].session && (i in rest || was[i].gapped ==> subs[i] == was[i]))
  }

  lemma FirstTurn(was: map<SubscriptionId, Subscription>, rest: set<SubscriptionId>)
    requires forall i, j | i in was && j in was && i != j :: was[i].session != was[j].session
    requires forall i | i in rest :: i in was && !was[i].gapped
    ensures Turn(was, was, rest)
  {}

  lemma NextTurn(was: map<SubscriptionId, Subscription>, subs: map<SubscriptionId, Subscription>, rest: set<SubscriptionId>, id: SubscriptionId)
    requires Turn(was, subs, rest) && id in rest
    ensures id in was && id in subs && subs[id] == was[id] && !was[id].gapped
    ensures forall i | i in was && i != id :: was[i].session != was[id].session
    ensures forall last: nat, gapped :: Turn(was, subs[id := was[id].(lastSequence := last, gapped := gapped)], rest - {id})
  {}

  lemma LastTurn(was: map<SubscriptionId, Subscription>, subs: map<SubscriptionId, Subscription>)
    requires Turn(was, subs, {})
    ensures subs.Keys == was.Keys && forall i | i in was :: subs[i].session == was[i].session && (was[i].gapped ==> subs[i] == was[i])
    ensures forall i, j | i in subs && j in subs && i != j :: subs[i].session != subs[j].session
  {}

  /** The frames of the session are what its catch-up reports, holes or not. */
  ghost predicate SentInFull(before: Streams, now: Streams, was: Subscription, sub: Subscription, frames: seq<ServerFrame>) {
    var own := Addressed(frames, was.session);
    && OnlyFrames(own, was.session, sub.gapped)
    && (Numbered(before) && was.lastSequence <= MAX_SAFE ==>
          Reported(before, now, was.session, was.lastSequence, sub.lastSequence, sub.gapped, own))
  }

  /** Where the recovery of one subscription stands. */
  ghost predicate RecoveryStands(before: Streams, now: Streams, holeFree: bool, was: Subscription, sub: Subscription, waiting: bool,
                                 frames: seq<ServerFrame>)
  {
    && Grows(before, now) && (Numbered(before) ==> Numbered(now))
    && (holeFree ==> AllHoleFree(before) && AllHoleFree(now) && Grows(before, now))
    && (waiting ==> Addressed(frames, was.session) == [])
    && (!waiting ==> SentInFull(before, now, was, sub, frames))
    && (holeFree && !waiting ==> Recovered(before, now, was, sub, frames))
    && (sub.gapped ==> Warned(frames, was.session, sub.lastSequence))
  }

  lemma RecoveryBegins(before: Streams, holeFree: bool, was: Subscription)
    requires Grows(before, before) && (holeFree ==> AllHoleFree(before))
    ensures !was.gapped ==> RecoveryStands(before, before, holeFree, was, was, true, [])
  {
    AddressedNone();
  }

  lemma RecoveryMoves(before: Streams, read: Streams, now: Streams, holeFree: bool, was: Subscription, last: nat, gapped: bool,
                      sent: seq<ServerFrame>, recovered: seq<ServerFrame>)
    requires RecoveryStands(before, read, holeFree, was, was, true, sent) && !was.gapped
    requires Grows(read, now) && Grows(before, now) && (Numbered(before) ==> Numbered(now))
    requires holeFree ==> AllHoleFree(now)
    requires holeFree ==> !gapped && CaughtUp(read, now, was.session, was.lastSequence, last, recovered)
    requires gapped ==> Warned(recovered, was.session, last)
    requires OnlyFrames(recovered, was.session, gapped)
    requires Numbered(read) && was.lastSequence <= MAX_SAFE ==>
      Reported(read, now, was.session, was.lastSequence, last, gapped, recovered)
    ensures RecoveryStands(before, now, holeFree, was, was.(lastSequence := last, gapped := gapped), false, sent + recovered)
  {
    hide CaughtUp, Recovered, Addressed, Warned, AllHoleFree, Grows, Numbered, OnlyFrames, Reported, SentInFull;
    if holeFree { RecoveredOne(before, read, now, was, last, sent, recovered); }
    if gapped { WarnedAppend(sent, recovered, was.session, last); }
    SentOne(before, read, now, was, last, gapped, sent, recovered);
  }

  lemma RecoveryWaits(before: Streams, read: Streams, now: Streams, holeFree: bool, was: Subscription, last: nat, gapped: bool,
                      sent: seq<ServerFrame>, recovered: seq<ServerFrame>, other: Subscription, moved: Subscription, waiting: bool)
    requires RecoveryStands(before, read, holeFree, other, moved, waiting, sent) && other.session != was.session
    requires Grows(read, now) && Grows(before, now) && (Numbered(before) ==> Numbered(now))
    requires holeFree ==> AllHoleFree(now)
    requires holeFree ==> CaughtUp(read, now, was.session, was.lastSequence, last, recovered)
    requires OnlyFrames(recovered, was.session, gapped)
    ensures RecoveryStands(before, now, holeFree, other, moved, waiting, sent + recovered)
  {
    hide CaughtUp, Recovered, Addressed, Warned, AllHoleFree, Grows, Numbered, OnlyFrames, Reported;
    NotAddressed(recovered, was.session, gapped, other.session);
    AddressedAppend(sent, recovered, other.session);
    SentStays(before, read, now, other, moved, sent, sent + recovered);
    assert sent + [] == sent;
    if holeFree { RecoveredOthers(before, read, now, was, last, sent, recovered, other, moved); }
    if moved.gapped { WarnedAppend(sent, recovered, other.session, moved.lastSequence); }
  }

  lemma RecoveryStep(before: Streams, read: Streams, now: Streams, holeFree: bool, was: map<SubscriptionId, Subscription>,
                     subs: map<SubscriptionId, Subscription>, rest: set<SubscriptionId>, id: SubscriptionId, last: nat, gapped: bool,
                     sent: seq<ServerFrame>, recovered: seq<ServerFrame>)
    requires subs.Keys == was.Keys && id in was && subs[id] == was[id] && !was[id].gapped && id !in rest
    requires forall i | i in was && !was[i].gapped :: RecoveryStands(before, read, holeFree, was[i], subs[i], i == id || i in rest, sent)
    requires forall i | i in was && i != id :: was[i].session != was[id].session
    requires Grows(read, now) && Grows(before, now) && (Numbered(before) ==> Numbered(now))
    requires holeFree ==> AllHoleFree(now)
    requires holeFree ==> !gapped && CaughtUp(read, now, was[id].session, was[id].lastSequence, last, recovered)
    requires gapped ==> Warned(recovered, was[id].session, last)
    requires OnlyFrames(recovered, was[id].session, gapped)
    requires Numbered(read) && was[id].lastSequence <= MAX_SAFE ==>
      Reported(read, now, was[id].session, was[id].lastSequence, last, gapped, recovered)
    ensures var moved := subs[id := was[id].(lastSequence := last, gapped := gapped)];
      forall i | i in was && !was[i].gapped :: RecoveryStands(before, now, holeFree, was[i], moved[i], i in rest, sent + recovered)
  {
    hide CaughtUp, AllHoleFree, Numbered, Grows, RecoveryStands, Warned, OnlyFrames, Reported;
    forall i | i in was && !was[i].gapped && i != id {
      RecoveryWaits(before, read, now, holeFree, was[id], last, gapped, sent, recovered, was[i], subs[i], i in rest);
    }
    RecoveryMoves(before, read, now, holeFree, was[id], last, gapped, sent, recovered);
  }

  lemma RecoveryEnds(before: Streams, now: Streams, holeFree: bool, was: Subscription, sub: Subscription, frames: seq<ServerFrame>)
    requires RecoveryStands(before, now, holeFree, was, sub, false, frames)
    ensures holeFree ==> Recovered(before, now, was, sub, frames)
    ensures sub.gapped ==> Warned(frames, was.session, sub.lastSequence)
    ensures SentInFull(before, now, was, sub, frames)
  {}

  lemma SentOne(before: Streams, read: Streams, now: Streams, was: Subscription, last: nat, gapped: bool, sent: seq<ServerFrame>,
                recovered: seq<ServerFrame>)
    requires Grows(before, read) && (Numbered(before) ==> Numbered(read)) && Addressed(sent, was.session) == []
    requires OnlyFrames(recovered, was.session, gapped)
    requires Numbered(read) && was.lastSequence <= MAX_SAFE ==>
      Reported(read, now, was.session, was.lastSequence, last, gapped, recovered)
    ensures SentInFull(before, now, was, was.(lastSequence := last, gapped := gapped), sent + recovered)
  {
    hide Addressed, OnlyFrames, Numbered, Grows, Sent, Missing;
    AddressedAppend(sent, recovered, was.session);
    AllAddressed(recovered, was.session, gapped);
    assert [] + recovered == recovered;
    if Numbered(before) { HighRises(before, read, Some(was.session)); }
  }

  lemma SentStays(before: Streams, read: Streams, now: Streams, other: Subscription, moved: Subscription, sent: seq<ServerFrame>, more: seq<ServerFrame>)
    requires Grows(read, now) && Addressed(more, other.session) == Addressed(sent, other.session)
    ensures SentInFull(before, read, other, moved, sent) ==> SentInFull(before, now, other, moved, more)
  {
    hide Addressed, OnlyFrames, Numbered;
    var own := Addressed(sent, other.session);
    if Reported(before, read, other.session, other.lastSequence, moved.lastSequence, moved.gapped, own) {
      ReportedStays(before, read, now, other.session, other.lastSequence, moved.lastSequence, moved.gapped, own);
    }
  }

  lemma ReportedStays(before: Streams, read: Streams, now: Streams, session: SessionId, after: nat, last: nat, gapped: bool, frames: seq<ServerFrame>)
    requires Grows(read, now) && Reported(before, read, session, after, last, gapped, frames)
    ensures Reported(before, now, session, after, last, gapped, frames)
  {
    hide Sent;
    if gapped {
      var stop: nat, gap, events :| frames == events + [GapFrame(session, gap)] && Sent(read, session, after, stop, events)
        && Missing(read, session, stop, gap) && gap.highWatermark == last;
      SendingGrows(read, now, session, after, stop, events);
      assert Missing(now, session, stop, gap) by { MissingStays(read, now, session, stop, gap); }
    } else {
      SendingGrows(read, now, session, after, last, frames);
    }
  }

  lemma MissingStays(read: Streams, now: Streams, session: SessionId, stop: nat, gap: Gap)
    requires Grows(read, now) && Missing(read, session, stop, gap)
    ensures Missing(now, session, stop, gap)
  {}

  lemma {:induction false} AllAddressed(frames: seq<ServerFrame>, session: SessionId, gapped: bool)
    requires OnlyFrames(frames, session, gapped)
    ensures Addressed(frames, session) == frames
  {
    OnlyAddressed(frames, session);
  }

  lemma {:induction false} OnlyAddressed(frames: seq<ServerFrame>, session: SessionId)
    requires forall f | f in frames :: if f.EventFrame? then f.event.scope == Some(session) else f.GapFrame? && f.session == session
    ensures Addressed(frames, session) == frames
    ensures forall other | other != session :: Addressed(frames, other) == []
  {
    if frames != [] {
      OnlyAddressed(frames[..|frames| - 1], session);
    }
  }

  lemma NotAddressed(frames: seq<ServerFrame>, session: SessionId, gapped: bool, other: SessionId)
    requires OnlyFrames(frames, session, gapped) && other != session
    ensures Addressed(frames, other) == []
  {
    OnlyAddressed(frames, session);
  }

  lemma CaughtUpGrows(before: Streams, read: Streams, after: Streams, session: SessionId, from: nat, last: nat, frames: seq<ServerFrame>)
    requires CaughtUp(before, read, session, from, last, frames) && AllHoleFree(after) && Grows(read, after)
    ensures CaughtUp(before, after, session, from, last, frames)
  {
    RunGrows(read, after, Some(session), from, if last > from then last else 0);
  }

  lemma CaughtUpSince(before: Streams, read: Streams, after: Streams, session: SessionId, from: nat, last: nat, frames: seq<ServerFrame>)
    requires CaughtUp(read, after, session, from, last, frames)
    requires AllHoleFree(before) && AllHoleFree(read) && Grows(before, read)
    ensures CaughtUp(before, after, session, from, last, frames)
  {
    RunGrows(before, read, Some(session), 0, 0);
  }

  lemma CaughtUpAddressed(before: Streams, streams: Streams, session: SessionId, from: nat, last: nat, frames: seq<ServerFrame>, other: SessionId)
    requires CaughtUp(before, streams, session, from, last, frames)
    ensures Addressed(frames, other) == if other == session then frames else []
  {
    var scope := Some(session);
    if last > from {
      RunScope(streams, scope, from, last);
    }
    AddressedAll(Run(streams, scope, from, last), scope, other);
  }

  lemma RecoveredOne(before: Streams, read: Streams, after: Streams, s: Subscription, last: nat, sent: seq<ServerFrame>, recovered: seq<ServerFrame>)
    requires AllHoleFree(before) && AllHoleFree(read) && Grows(before, read)
    requires CaughtUp(read, after, s.session, s.lastSequence, last, recovered)
    requires Addressed(sent, s.session) == []
    ensures Recovered(before, after, s, s.(lastSequence := last, gapped := false), sent + recovered)
  {
    hide CaughtUp, Addressed;
    AddressedAppend(sent, recovered, s.session);
    CaughtUpAddressed(read, after, s.session, s.lastSequence, last, recovered, s.session);
    assert [] + recovered == recovered;
    CaughtUpSince(before, read, after, s.session, s.lastSequence, last, recovered);
  }

  lemma RecoveredOthers(before: Streams, read: Streams, after: Streams, s: Subscription, last: nat, sent: seq<ServerFrame>,
                        recovered: seq<ServerFrame>, other: Subscription, moved: Subscription)
    requires CaughtUp(read, after, s.session, s.lastSequence, last, recovered) && Grows(read, after)
    requires other.session != s.session
    ensures Addressed(sent + recovered, other.session) == Addressed(sent, other.session)
    ensures Recovered(before, read, other, moved, sent) ==> Recovered(before, after, other, moved, sent + recovered)
  {
    AddressedAppend(sent, recovered, other.session);
    CaughtUpAddressed(read, after, s.session, s.lastSequence, last, recovered, other.session);
    if Recovered(before, read, other, moved, sent) {
      CaughtUpGrows(before, read, after, other.session, other.lastSequence, moved.lastSequence, Addressed(sent, other.session));
    }
  }

  lemma DistinctTail(s: seq<nat>)
    requires s != [] && Distinct(s)
    ensures Distinct(s[1..]) && forall x :: x in s[1..] <==> x in s && x != s[0]
  {
    assert s == [s[0]] + s[1..];
  }

  // ---- what a catch-up sends, holes or not ----

  /** The frames are everything stored under after + 1 .. stop. */
  ghost predicate Sent(streams: Streams, session: SessionId, after: nat, stop: nat, frames: seq<ServerFrame>) {
    var scope := Some(session);
    && after <= stop <= MAX_SAFE && (stop == after || (scope in streams && stop < streams[scope].next))
    && frames == EventFrames(StoredBetween(StreamOf(streams, scope), after, stop))
  }

  /** A catch-up from `after`: everything stored behind it has gone out up to where the stream ended when it began; or
      up to a number that is missing there, which the gap behind the events names. */
  ghost predicate Reported(before: Streams, now: Streams, session: SessionId, after: nat, last: nat, gapped: bool, frames: seq<ServerFrame>) {
    if gapped then
      exists stop: nat, gap, events :: frames == events + [GapFrame(session, gap)] && Sent(now, session, after, stop, events)
        && Missing(now, session, stop, gap) && gap.highWatermark == last
    else Sent(now, session, after, last, frames) && last >= High(before, Some(session))
  }

  /** The gap is real: nothing is stored under the number that is expected next. */
  ghost predicate Missing(streams: Streams, session: SessionId, stop: nat, gap: Gap) {
    && gap.expected == stop + 1 && gap.availableFrom != stop + 1
    && stop + 1 < StreamOf(streams, Some(session)).next && stop + 1 !in StreamOf(streams, Some(session)).rows
  }

  lemma SendingStarts(streams: Streams, session: SessionId, after: nat)
    ensures after <= MAX_SAFE ==> Sent(streams, session, after, after, [])
  {
    NothingBetween(StreamOf(streams, Some(session)), after, after);
  }

  /** One page, and what the loop does about it. */
  lemma SendingMoves(streams: Streams, session: SessionId, after: nat, last: nat, target: nat, frames: seq<ServerFrame>)
    requires Numbered(streams) && Sent(streams, session, after, last, frames) && target <= High(streams, Some(session))
    ensures var batch := Loaded(streams, Some(session), last, PAGE);
      match OnPage(last, target, batch) {
        case GapSeen(gap) => Missing(streams, session, last, gap)
        case Complete(reached) => Sent(streams, session, after, reached, frames + EventFrames(batch.events)) && reached >= target
        case More(reached) => Sent(streams, session, after, reached, frames + EventFrames(batch.events))
      }
  {
    var scope := Some(session);
    var batch := Loaded(streams, scope, last, PAGE);
    NumberedKeyed(streams);
    PageBounds(streams, session, last);
    SendingGaps(streams, session, last);
    hide Loaded, StoredBetween, Numbered, AllKeyed, Missing;
    if batch.events != [] { SendingPage(streams, session, after, last, frames); }
    else { assert frames + EventFrames(batch.events) == frames; }
  }

  lemma SendingPage(streams: Streams, session: SessionId, after: nat, last: nat, frames: seq<ServerFrame>)
    requires Numbered(streams) && Sent(streams, session, after, last, frames)
    requires Loaded(streams, Some(session), last, PAGE).events != []
    ensures var events := Loaded(streams, Some(session), last, PAGE).events;
      Sent(streams, session, after, events[|events| - 1].sequence, frames + EventFrames(events))
  {
    PageContinues(streams, Some(session), after, last);
    hide Loaded, StoredBetween, Numbered;
    EventFramesAppend(StoredBetween(StreamOf(streams, Some(session)), after, last), Loaded(streams, Some(session), last, PAGE).events);
  }

  /** A gap is reported for a number that is missing; a page that is empty without a gap ends the stream. */
  lemma SendingGaps(streams: Streams, session: SessionId, last: nat)
    requires Numbered(streams) && last <= MAX_SAFE
    ensures var batch := Loaded(streams, Some(session), last, PAGE);
      && (batch.gap.Some? ==> Missing(streams, session, last, batch.gap.value))
      && (batch.gap.None? && batch.events == [] ==> last >= High(streams, Some(session)))
  {
    var scope := Some(session);
    NumberedKeyed(streams);
    PageAscends(streams, scope, last, PAGE);
    PageMisses(streams, scope, last);
    var batch := Loaded(streams, scope, last, PAGE);
    if batch.gap.Some? && batch.events != [] { PageContinues(streams, scope, last, last); }
    hide Loaded, AllKeyed;
  }

  /** What is stored next is what the page begins with. */
  lemma PageMisses(streams: Streams, scope: Scope, last: nat)
    requires Numbered(streams) && last <= MAX_SAFE
    ensures var page := Loaded(streams, scope, last, PAGE).events;
      last + 1 in StreamOf(streams, scope).rows ==> page != [] && page[0].sequence == last + 1
  {
    if scope in streams && last + 1 in streams[scope].rows {
      PageIsBetween(scope, streams[scope], last);
      hide Selected, StoredBetween;
      var page := Selected(streams[scope], last, PAGE);
      BetweenKeys(scope, streams[scope], last, page[|page| - 1].sequence);
    }
  }

  lemma SendingGrows(read: Streams, now: Streams, session: SessionId, after: nat, last: nat, frames: seq<ServerFrame>)
    requires Grows(read, now) && Sent(read, session, after, last, frames)
    ensures Sent(now, session, after, last, frames)
  {
    BetweenStays(read, now, Some(session), after, last);
    hide StoredBetween;
  }

  lemma HighRises(before: Streams, after: Streams, scope: Scope)
    requires Grows(before, after) && Numbered(after)
    ensures High(before, scope) <= High(after, scope)
  {}

  lemma EndsInGap(before: Streams, now: Streams, session: SessionId, after: nat, stop: nat, gap: Gap, events: seq<ServerFrame>)
    requires Sent(now, session, after, stop, events) && Missing(now, session, stop, gap)
    ensures Reported(before, now, session, after, gap.highWatermark, true, events + [GapFrame(session, gap)])
  {
    hide Sent, Missing;
  }

  lemma EndsComplete(before: Streams, now: Streams, session: SessionId, after: nat, last: nat, frames: seq<ServerFrame>)
    requires Sent(now, session, after, last, frames) && last >= High(before, Some(session))
    ensures Reported(before, now, session, after, last, false, frames)
  {}

  lemma OnlyNone(session: SessionId)
    ensures OnlyFrames([], session, false)
  {}

  lemma OnlyMore(frames: seq<ServerFrame>, session: SessionId, events: seq<Event>)
    requires OnlyFrames(frames, session, false) && forall i | 0 <= i < |events| :: events[i].scope == Some(session)
    ensures OnlyFrames(frames + EventFrames(events), session, false)
  {
    forall f | f in EventFrames(events) ensures f.EventFrame? && f.event.scope == Some(session) {
      var i :| 0 <= i < |events| && EventFrames(events)[i] == f;
    }
  }

  lemma OnlyGap(frames: seq<ServerFrame>, session: SessionId, gap: Gap)
    requires OnlyFrames(frames, session, false)
    ensures OnlyFrames(frames + [GapFrame(session, gap)], session, true)
  {
    assert GapFrame(session, gap) in frames + [GapFrame(session, gap)];
  }

  /** The frames are events of the session, and a gap only if there is one to report. */
  ghost predicate OnlyFrames(frames: seq<ServerFrame>, session: SessionId, gapped: bool) {
    && (gapped <==> exists gap :: GapFrame(session, gap) in frames)
    && forall f | f in frames :: if f.EventFrame? then f.event.scope == Some(session) else f.GapFrame? && f.session == session
  }

  ghost predicate PageAhead(batch: EventBatch, last: nat) {
    batch.gap.None? && batch.events != [] ==> batch.events[|batch.events| - 1].sequence > last
  }

  lemma PageBounds(streams: Streams, session: SessionId, after: nat)
    requires AllKeyed(streams)
    ensures Loaded(streams, Some(session), after, PAGE).highWatermark == High(streams, Some(session))
    ensures PageAhead(Loaded(streams, Some(session), after, PAGE), after)
  {
    var b := Loaded(streams, Some(session), after, PAGE);
    PageAscends(streams, Some(session), after, PAGE);
    if b.gap.None? && |b.events| > 1 {
      assert b.events[0].sequence < b.events[|b.events| - 1].sequence;
    }
  }

  /** A gap with this watermark has been reported to the session. */
  ghost predicate Warned(frames: seq<ServerFrame>, session: SessionId, high: nat) {
    exists gap :: GapFrame(session, gap) in frames && gap.highWatermark == high
  }

  lemma WarnedBy(frames: seq<ServerFrame>, session: SessionId, gap: Gap)
    ensures Warned(frames + [GapFrame(session, gap)], session, gap.highWatermark)
  {
    assert GapFrame(session, gap) in frames + [GapFrame(session, gap)];
  }

  lemma WarnedAppend(a: seq<ServerFrame>, b: seq<ServerFrame>, session: SessionId, high: nat)
    requires Warned(a, session, high) || Warned(b, session, high)
    ensures Warned(a + b, session, high)
  {
    if Warned(a, session, high) {
      var gap :| GapFrame(session, gap) in a && gap.highWatermark == high;
      assert GapFrame(session, gap) in a + b;
    } else {
      var gap :| GapFrame(session, gap) in b && gap.highWatermark == high;
      assert GapFrame(session, gap) in a + b;
    }
  }

  lemma GapFirst(last: nat, target: nat, batch: EventBatch)
    ensures batch.gap.Some? ==> OnPage(last, target, batch) == GapSeen(batch.gap.value)
    ensures OnPage(last, target, batch).GapSeen? ==> batch.gap.Some?
  {}

  lemma Progress(last: nat, target: nat, batch: EventBatch)
    requires PageAhead(batch, last) && OnPage(last, target, batch).More?
    ensures last < OnPage(last, target, batch).last < target
  {}

  /** The frames are the run of the stream from `after` to `last`. */
  ghost predicate FramesAreRun(streams: Streams, session: SessionId, after: nat, last: nat, frames: seq<ServerFrame>) {
    var scope := Some(session);
    && after <= last && (last == after || last <= High(streams, scope))
    && (forall k | after < k <= last :: k in StreamOf(streams, scope).rows)
    && frames == EventFrames(Run(streams, scope, after, last))
  }

  /** What catching up means: at least everything stored when it began, exactly once, in order. */
  ghost predicate CaughtUp(before: Streams, streams: Streams, session: SessionId, after: nat, last: nat, frames: seq<ServerFrame>) {
    AllHoleFree(streams) && last >= High(before, Some(session)) && FramesAreRun(streams, session, after, last, frames)
  }

  lemma CaughtUpIs(before: Streams, streams: Streams, session: SessionId, after: nat, last: nat, frames: seq<ServerFrame>)
    requires AllHoleFree(streams) && last >= High(before, Some(session)) && FramesAreRun(streams, session, after, last, frames)
    ensures CaughtUp(before, streams, session, after, last, frames)
  {}

  ghost predicate FrontierReached(streams: Streams, session: SessionId, after: nat, last: nat, target: nat, frames: seq<ServerFrame>) {
    && AllHoleFree(streams) && FramesAreRun(streams, session, after, last, frames)
    && target <= High(streams, Some(session)) && (last == after || last < target)
  }

  lemma FrontierStart(streams: Streams, session: SessionId, after: nat)
    requires AllHoleFree(streams)
    ensures FrontierReached(streams, session, after, after, High(streams, Some(session)), [])
  {}

  lemma FrontierStep(streams: Streams, session: SessionId, after: nat, last: nat, target: nat, frames: seq<ServerFrame>)
    requires FrontierReached(streams, session, after, last, target, frames)
    ensures var batch := Loaded(streams, Some(session), last, PAGE);
      var outcome := OnPage(last, target, batch);
      && !outcome.GapSeen?
      && FramesAreRun(streams, session, after, outcome.last, frames + EventFrames(batch.events))
      && AllHoleFree(streams)
      && (outcome.Complete? ==> outcome.last >= target)
      && (outcome.More? ==> FrontierReached(streams, session, after, outcome.last, target, frames + EventFrames(batch.events)))
  {
    hide Loaded, HoleFree, Run;
    var scope := Some(session);
    var end := Min(last + PAGE, High(streams, scope));
    PageIsRun(streams, scope, last, PAGE);
    var events := Run(streams, scope, last, end);
    if events != [] {
      RunScope(streams, scope, last, end);
      RunAppend(streams, scope, after, last, end);
      EventFramesAppend(Run(streams, scope, after, last), events);
    } else {
      assert frames + EventFrames(events) == frames;
    }
  }

  lemma FrontierGrows(before: Streams, after: Streams, session: SessionId, from: nat, last: nat, target: nat, frames: seq<ServerFrame>)
    requires FrontierReached(before, session, from, last, target, frames)
    requires AllHoleFree(after) && Grows(before, after)
    ensures FrontierReached(after, session, from, last, target, frames)
  {
    RunGrows(before, after, Some(session), from, if last > from then last else 0);
    RunGrows(before, after, Some(session), target, target);
  }
}
