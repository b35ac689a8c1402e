/** Event delivery on one connection as a state machine: publishers append to the store and broadcast
    later and in any order (src/application/service.rs), the bounded broadcast drops its oldest events and
    then reports a lag, and the connection loop (apps/fixtrace-server/src/websocket.rs) handles one thing
    at a time, where every page read by `catch_up` is a step of its own. */
module Delivery {
  import opened Common
  import opened EventLog
  import opened Connection

  const CAPACITY: nat := 4_096

  /** A running `catch_up`: the target is fixed by the first page. */
  datatype Job = Job(id: SubscriptionId, session: SessionId, after: nat, last: nat, target: Option<nat>, frames: seq<ServerFrame>)

  datatype Phase =
    | Idle
    | Live(job: Job)
    | Subscribing(job: Job)
    | Recovering(todo: set<SubscriptionId>, out: seq<ServerFrame>)
    | RecoveringOne(job: Job, todo: set<SubscriptionId>, out: seq<ServerFrame>)

  /** `started` records each subscription's first cursor. */
  datatype Server = Server(
    streams: Streams, inFlight: set<Event>, queue: seq<Event>, lagged: bool,
    subs: map<SubscriptionId, Subscription>, started: map<SubscriptionId, nat>,
    phase: Phase, wire: seq<ServerFrame>)

  datatype Step =
    | Append(scope: Scope, payload: Payload)
    | Broadcast(event: Event)
    | ReceiveEvent
    | ReceiveLag
    | HandleSubscribe(requestId: nat, id: SubscriptionId, session: SessionId, after: nat)
    | HandleUnsubscribe(id: SubscriptionId)
    | PickLagged(id: SubscriptionId)
    | ReadPage
    | FinishRecovery

  // ---- steps ----

  /** The receiver's buffer after one more event: when full, the oldest goes and a lag will be reported. */
  function Pushed(s: Server, event: Event): Server {
    if |s.queue| < CAPACITY then s.(queue := s.queue + [event])
    else s.(queue := s.queue[1..] + [event], lagged := true)
  }

  function Begin(id: SubscriptionId, session: SessionId, after: nat): Job {
    Job(id, session, after, after, None, [])
  }

  predicate Enabled(s: Server, step: Step) {
    match step
    case Append(scope, payload) => Appended(s.streams, scope, payload).Ok?
    case Broadcast(event) => event in s.inFlight
    case ReceiveEvent => s.phase.Idle? && !s.lagged && s.queue != []
    case ReceiveLag => s.phase.Idle? && s.lagged
    case HandleSubscribe(_, id, _, _) => s.phase.Idle? && id !in s.subs
    case HandleUnsubscribe(_) => s.phase.Idle?
    case PickLagged(id) => s.phase.Recovering? && id in s.phase.todo && id in s.subs
    case ReadPage => s.phase.Live? || s.phase.Subscribing? || s.phase.RecoveringOne?
    case FinishRecovery => s.phase.Recovering? && s.phase.todo == {}
  }

  /** The subscription of a session, if any (`find` over the map). */
  function SubscriptionOf(s: Server, session: SessionId): set<SubscriptionId> {
    set id | id in s.subs && s.subs[id].session == session
  }

  function OnEvent(s: Server, event: Event): Server {
    if event.scope.None? || SubscriptionOf(s, event.scope.value) == {} then s
    else
      var id := Least(SubscriptionOf(s, event.scope.value));
      match Verdict(s.subs[id], event.sequence)
      case Ignore => s
      case Deliver =>
        s.(subs := s.subs[id := s.subs[id].(lastSequence := event.sequence)], wire := s.wire + [EventFrame(event)])
      case CatchUp => s.(phase := Live(Begin(id, s.subs[id].session, s.subs[id].lastSequence)))
  }

  /** The end of a `catch_up`: the cursor moves and the frames go out, or wait for the rest of a recovery. */
  function Finished(s: Server, job: Job, last: nat, gapped: bool, frames: seq<ServerFrame>): Server {
    var s' := s.(subs := s.subs[job.id := Subscription(job.session, last, gapped)]);
    match s.phase
    case RecoveringOne(_, todo, out) => s'.(phase := Recovering(todo, out + frames))
    case _ => s'.(phase := Idle, wire := s.wire + frames)
  }

  function WithJob(phase: Phase, job: Job): Phase {
    match phase
    case Live(_) => Live(job)
    case Subscribing(_) => Subscribing(job)
    case RecoveringOne(_, todo, out) => RecoveringOne(job, todo, out)
    case _ => phase
  }

  function OnePage(s: Server, job: Job): Server {
    var batch := Loaded(s.streams, Some(job.session), job.last, PAGE);
    var target := if job.target.Some? then job.target.value else batch.highWatermark;
    match OnPage(job.last, target, batch)
    case GapSeen(gap) => Finished(s, job, gap.highWatermark, true, job.frames + [GapFrame(job.session, gap)])
    case Complete(last) => Finished(s, job, last, false, job.frames + EventFrames(batch.events))
    case More(last) =>
      s.(phase := WithJob(s.phase, job.(last := last, target := Some(target), frames := job.frames + EventFrames(batch.events))))
  }

  function Apply(s: Server, step: Step): Server
    requires Enabled(s, step)
  {
    match step
    case Append(scope, payload) =>
      var (streams, event) := Appended(s.streams, scope, payload).value;
      s.(streams := streams, inFlight := s.inFlight + {event})
    case Broadcast(event) => Pushed(s.(inFlight := s.inFlight - {event}), event)
    case ReceiveEvent => OnEvent(s.(queue := s.queue[1..]), s.queue[0])
    case ReceiveLag =>
      s.(lagged := false, phase := Recovering(set id | id in s.subs && !s.subs[id].gapped, []))
    case HandleSubscribe(requestId, id, session, after) =>
      s.(subs := (map i | i in s.subs && s.subs[i].session != session :: s.subs[i]),
         started := s.started[id := after],
         phase := Subscribing(Begin(id, session, after)),
         wire := s.wire + [Response(requestId)])
    case HandleUnsubscribe(id) => s.(subs := s.subs - {id})
    case PickLagged(id) =>
      s.(phase := RecoveringOne(Begin(id, s.subs[id].session, s.subs[id].lastSequence), s.phase.todo - {id}, s.phase.out))
    case ReadPage => OnePage(s, s.phase.job)
    case FinishRecovery => s.(phase := Idle, wire := s.wire + s.phase.out)
  }

  // ---- the invariant ----

  predicate Working(phase: Phase) { phase.Live? || phase.Subscribing? || phase.RecoveringOne? }

  ghost predicate Todo(phase: Phase, id: SubscriptionId) {
    (phase.Recovering? || phase.RecoveringOne?) && id in phase.todo
  }

  /** The event numbered `q` is on its way: with a publisher, in the receiver's buffer, or covered by a lag. */
  ghost predicate Held(s: Server, session: SessionId, q: nat) {
    s.lagged || exists e :: (e in s.inFlight || e in s.queue) && e.scope == Some(session) && e.sequence == q
  }

  ghost predicate HeldBeyond(s: Server, session: SessionId, cursor: nat) {
    forall q | cursor < q <= High(s.streams, Some(session)) :: Held(s, session, q)
  }

  /** No loss: what a subscription has not been sent is on its way, unless its recovery is still to come. */
  ghost predicate NoLoss(s: Server) {
    forall id | id in s.subs && !Todo(s.phase, id) && !(Working(s.phase) && s.phase.job.id == id) ::
      HeldBeyond(s, s.subs[id].session, s.subs[id].lastSequence)
  }

  ghost predicate AllPublished(s: Server) {
    forall e | e in s.inFlight || e in s.queue :: Published(s.streams, e)
  }

  ghost predicate CursorsSound(s: Server) {
    && (forall i, j | i in s.subs && j in s.subs && i != j :: s.subs[i].session != s.subs[j].session)
    && (forall id | id in s.subs :: !s.subs[id].gapped && id in s.started && s.started[id] <= s.subs[id].lastSequence)
    && (forall id | id in s.subs ::
          s.subs[id].lastSequence == s.started[id] || s.subs[id].lastSequence <= High(s.streams, Some(s.subs[id].session)))
  }

  /** A running job has read a run behind its cursor; what came after its target is on its way. */
  ghost predicate JobSound(s: Server) {
    Working(s.phase) ==>
      var job := s.phase.job;
      && job.id in s.started
      && (if s.phase.Subscribing?
          then job.id !in s.subs && job.after == s.started[job.id] && SubscriptionOf(s, job.session) == {}
          else job.id in s.subs && s.subs[job.id].session == job.session && s.subs[job.id].lastSequence == job.after)
      && !Todo(s.phase, job.id)
      && (job.target.None? ==> job.last == job.after && job.frames == [])
      && (job.target.Some? ==>
            && FrontierReached(s.streams, job.session, job.after, job.last, job.target.value, job.frames)
            && HeldBeyond(s, job.session, job.target.value))
  }

  ghost predicate TodoSound(s: Server) {
    s.phase.Recovering? || s.phase.RecoveringOne? ==> s.phase.todo <= s.subs.Keys
  }

  ghost predicate Inv(s: Server) {
    AllHoleFree(s.streams) && AllPublished(s) && CursorsSound(s) && JobSound(s) && TodoSound(s) && NoLoss(s)
  }

  // ---- every step keeps it ----

  lemma PublishedGrows(before: Streams, after: Streams, e: Event)
    requires AllHoleFree(before) && Grows(before, after) && Published(before, e)
    ensures Published(after, e)
  {}

  lemma AppendHeld(s: Server, scope: Scope, payload: Payload, session: SessionId, cursor: nat)
    requires AllHoleFree(s.streams) && Enabled(s, Append(scope, payload))
    requires HeldBeyond(s, session, cursor)
    ensures HeldBeyond(Apply(s, Append(scope, payload)), session, cursor)
  {
    AppendKeepsHoleFree(s.streams, scope, payload);
    var s' := Apply(s, Append(scope, payload));
    var event := Appended(s.streams, scope, payload).value.1;
    forall q | cursor < q <= High(s'.streams, Some(session)) ensures Held(s', session, q) {
      if q <= High(s.streams, Some(session)) {
        assert Held(s, session, q);
        if !s.lagged {
          var e :| (e in s.inFlight || e in s.queue) && e.scope == Some(session) && e.sequence == q;
          assert e in s'.inFlight || e in s'.queue;
        }
      } else {
        assert event in s'.inFlight;
      }
    }
  }

  lemma AppendKeeps(s: Server, scope: Scope, payload: Payload)
    requires Inv(s) && Enabled(s, Append(scope, payload))
    ensures Inv(Apply(s, Append(scope, payload)))
  {
    hide Published, HoleFree, HeldBeyond, FrontierReached;
    AppendKeepsHoleFree(s.streams, scope, payload);
    var s' := Apply(s, Append(scope, payload));
    var event := Appended(s.streams, scope, payload).value.1;
    assert Published(s'.streams, event) by { NewIsPublished(s.streams, scope, payload); }
    forall e | e in s.inFlight || e in s.queue ensures Published(s'.streams, e) {
      PublishedGrows(s.streams, s'.streams, e);
    }
    forall id | id in s.subs && !Todo(s.phase, id) && !(Working(s.phase) && s.phase.job.id == id)
      ensures HeldBeyond(s', s.subs[id].session, s.subs[id].lastSequence)
    {
      AppendHeld(s, scope, payload, s.subs[id].session, s.subs[id].lastSequence);
    }
    assert CursorsSound(s') by { CursorsGrow(s, s'); }
    if Working(s.phase) && s.phase.job.target.Some? {
      var job := s.phase.job;
      FrontierGrows(s.streams, s'.streams, job.session, job.after, job.last, job.target.value, job.frames);
      AppendHeld(s, scope, payload, job.session, job.target.value);
    }
  }

  lemma NewIsPublished(streams: Streams, scope: Scope, payload: Payload)
    requires AllHoleFree(streams) && Appended(streams, scope, payload).Ok?
    ensures Published(Appended(streams, scope, payload).value.0, Appended(streams, scope, payload).value.1)
  {}

  lemma CursorsGrow(s: Server, s': Server)
    requires AllHoleFree(s.streams) && Grows(s.streams, s'.streams)
    requires CursorsSound(s) && s'.subs == s.subs && s'.started == s.started
    ensures CursorsSound(s')
  {
    forall id | id in s.subs ensures High(s.streams, Some(s.subs[id].session)) <= High(s'.streams, Some(s.subs[id].session)) {
      HighGrows(s.streams, s'.streams, Some(s.subs[id].session));
    }
  }

  /** Steps that keep the store and drop nothing that is on its way keep what is held. */
  lemma HeldStays(s: Server, s': Server, session: SessionId, cursor: nat)
    requires s'.streams == s.streams && HeldBeyond(s, session, cursor)
    requires s'.lagged || (!s.lagged && forall e | e in s.inFlight || e in s.queue :: e in s'.inFlight || e in s'.queue)
    ensures HeldBeyond(s', session, cursor)
  {
    forall q | cursor < q <= High(s'.streams, Some(session)) ensures Held(s', session, q) {
      assert Held(s, session, q);
      if !s'.lagged {
        var e :| (e in s.inFlight || e in s.queue) && e.scope == Some(session) && e.sequence == q;
        assert e in s'.inFlight || e in s'.queue;
      }
    }
  }

  lemma BroadcastKeeps(s: Server, event: Event)
    requires Inv(s) && Enabled(s, Broadcast(event))
    ensures Inv(Apply(s, Broadcast(event)))
  {
    hide Published, HoleFree, HeldBeyond, FrontierReached;
    var s' := Apply(s, Broadcast(event));
    assert s'.streams == s.streams && s'.subs == s.subs && s'.phase == s.phase && s'.started == s.started;
    PushedHolds(s, event);
    forall session, cursor | HeldBeyond(s, session, cursor) ensures HeldBeyond(s', session, cursor) {
      if s'.lagged || !s.lagged { HeldStays(s, s', session, cursor); }
    }
    assert CursorsSound(s');
  }

  lemma PushedHolds(s: Server, event: Event)
    requires event in s.inFlight
    ensures var s' := Apply(s, Broadcast(event));
      && (s.lagged ==> s'.lagged)
      && (s'.lagged || forall e | e in s.inFlight || e in s.queue :: e in s'.inFlight || e in s'.queue)
      && (forall e | e in s'.inFlight || e in s'.queue :: e in s.inFlight || e in s.queue)
  {
    var s' := Apply(s, Broadcast(event));
    if s'.lagged && |s.queue| >= CAPACITY {
      assert forall e | e in s.queue[1..] :: e in s.queue;
    }
  }

  lemma EventHeld(s: Server, session: SessionId, cursor: nat)
    requires s.queue != [] && !s.lagged && HeldBeyond(s, session, cursor)
    ensures var s' := s.(queue := s.queue[1..]); var e := s.queue[0];
      forall q | cursor < q <= High(s.streams, Some(session)) && !(e.scope == Some(session) && e.sequence == q) :: Held(s', session, q)
  {
    var s', first := s.(queue := s.queue[1..]), s.queue[0];
    assert s.queue == [first] + s.queue[1..];
    forall q | cursor < q <= High(s.streams, Some(session)) && !(first.scope == Some(session) && first.sequence == q)
      ensures Held(s', session, q)
    {
      assert Held(s, session, q);
      var e :| (e in s.inFlight || e in s.queue) && e.scope == Some(session) && e.sequence == q;
      assert e in s'.inFlight || e in s'.queue;
    }
  }

  lemma EventKeeps(s: Server)
    requires Inv(s) && Enabled(s, ReceiveEvent)
    ensures Inv(Apply(s, ReceiveEvent))
  {
    hide Published, HoleFree, FrontierReached;
    var event, popped := s.queue[0], s.(queue := s.queue[1..]);
    assert CursorsSound(popped);
    hide CursorsSound, JobSound;
    var s' := Apply(s, ReceiveEvent);
    assert s.queue == [event] + s.queue[1..];
    PublishedBelow(s.streams, event);
    forall id | id in s'.subs && !(Working(s'.phase) && s'.phase.job.id == id)
      ensures HeldBeyond(s', s'.subs[id].session, s'.subs[id].lastSequence)
    {
      EventLoses(s, event, id);
    }
    EventCursors(s);
  }

  lemma EventLoses(s: Server, event: Event, id: SubscriptionId)
    requires Inv(s) && Enabled(s, ReceiveEvent) && event == s.queue[0]
    requires var s' := Apply(s, ReceiveEvent); id in s'.subs && !(Working(s'.phase) && s'.phase.job.id == id)
    ensures var s' := Apply(s, ReceiveEvent); HeldBeyond(s', s'.subs[id].session, s'.subs[id].lastSequence)
  {
    hide Published, HoleFree, FrontierReached;
    var popped, s' := s.(queue := s.queue[1..]), Apply(s, ReceiveEvent);
    assert CursorsSound(popped);
    hide CursorsSound, JobSound;
    EventHeld(s, s.subs[id].session, s.subs[id].lastSequence);
    OnEventMoves(popped, event, id);
    forall q | s'.subs[id].lastSequence < q <= High(s'.streams, Some(s'.subs[id].session))
      ensures Held(s', s'.subs[id].session, q)
    {
      assert Held(popped, s.subs[id].session, q);
    }
  }

  lemma EventCursors(s: Server)
    requires Inv(s) && Enabled(s, ReceiveEvent)
    ensures CursorsSound(Apply(s, ReceiveEvent)) && JobSound(Apply(s, ReceiveEvent))
  {
    hide HoleFree, FrontierReached, HeldBeyond;
    PublishedBelow(s.streams, s.queue[0]);
  }

  lemma PublishedBelow(streams: Streams, e: Event)
    requires AllHoleFree(streams) && Published(streams, e)
    ensures 1 <= e.sequence <= High(streams, e.scope)
  {
    assert e.sequence in Span(0, High(streams, e.scope));
  }

  /** A live event leaves no subscription behind it, unless that one starts to catch up. */
  lemma OnEventMoves(s: Server, event: Event, id: SubscriptionId)
    requires s.phase.Idle? && CursorsSound(s) && id in s.subs
    ensures var s' := OnEvent(s, event);
      && id in s'.subs && s'.subs[id].session == s.subs[id].session && s'.subs[id].lastSequence >= s.subs[id].lastSequence
      && s'.streams == s.streams && s'.queue == s.queue && s'.inFlight == s.inFlight && s'.lagged == s.lagged
      && (event.scope == Some(s.subs[id].session) ==>
            s'.subs[id].lastSequence >= event.sequence || (s'.phase.Live? && s'.phase.job.id == id))
  {
    if event.scope == Some(s.subs[id].session) {
      assert id in SubscriptionOf(s, event.scope.value);
      assert forall i | i in SubscriptionOf(s, event.scope.value) :: i == id;
    }
  }

  lemma LagKeeps(s: Server)
    requires Inv(s) && Enabled(s, ReceiveLag)
    ensures Inv(Apply(s, ReceiveLag))
  {}

  lemma SubscribeKeeps(s: Server, requestId: nat, id: SubscriptionId, session: SessionId, after: nat)
    requires Inv(s) && Enabled(s, HandleSubscribe(requestId, id, session, after))
    ensures Inv(Apply(s, HandleSubscribe(requestId, id, session, after)))
  {
    hide Published, HoleFree, FrontierReached;
    var s' := Apply(s, HandleSubscribe(requestId, id, session, after));
    forall i | i in s'.subs ensures HeldBeyond(s', s'.subs[i].session, s'.subs[i].lastSequence) {
      HeldStays(s, s', s'.subs[i].session, s'.subs[i].lastSequence);
    }
  }

  lemma UnsubscribeKeeps(s: Server, id: SubscriptionId)
    requires Inv(s) && Enabled(s, HandleUnsubscribe(id))
    ensures Inv(Apply(s, HandleUnsubscribe(id)))
  {
    hide Published, HoleFree, FrontierReached;
    var s' := Apply(s, HandleUnsubscribe(id));
    forall i | i in s'.subs ensures HeldBeyond(s', s'.subs[i].session, s'.subs[i].lastSequence) {
      HeldStays(s, s', s'.subs[i].session, s'.subs[i].lastSequence);
    }
  }

  lemma PickKeeps(s: Server, id: SubscriptionId)
    requires Inv(s) && Enabled(s, PickLagged(id))
    ensures Inv(Apply(s, PickLagged(id)))
  {
    hide Published, HoleFree, FrontierReached;
    var s' := Apply(s, PickLagged(id));
    forall i | i in s'.subs && !Todo(s'.phase, i) && i != id
      ensures HeldBeyond(s', s'.subs[i].session, s'.subs[i].lastSequence)
    {
      HeldStays(s, s', s'.subs[i].session, s'.subs[i].lastSequence);
    }
  }

  lemma FinishRecoveryKeeps(s: Server)
    requires Inv(s) && Enabled(s, FinishRecovery)
    ensures Inv(Apply(s, FinishRecovery))
  {
    hide Published, HoleFree, FrontierReached;
    var s' := Apply(s, FinishRecovery);
    forall i | i in s'.subs ensures HeldBeyond(s', s'.subs[i].session, s'.subs[i].lastSequence) {
      HeldStays(s, s', s'.subs[i].session, s'.subs[i].lastSequence);
    }
  }

  /** What the first page fixes: everything up to the target is stored, nothing is stored beyond it. */
  lemma TargetFixed(s: Server, job: Job) returns (target: nat)
    requires Inv(s) && Working(s.phase) && s.phase.job == job
    ensures target == if job.target.Some? then job.target.value else Loaded(s.streams, Some(job.session), job.last, PAGE).highWatermark
    ensures FrontierReached(s.streams, job.session, job.after, job.last, target, job.frames)
    ensures HeldBeyond(s, job.session, target)
  {
    if job.target.Some? {
      target := job.target.value;
    } else {
      PageIsRun(s.streams, Some(job.session), job.last, PAGE);
      target := High(s.streams, Some(job.session));
      FrontierStart(s.streams, job.session, job.after);
    }
  }

  lemma PageKeeps(s: Server)
    requires Inv(s) && Enabled(s, ReadPage)
    ensures Inv(Apply(s, ReadPage))
  {
    hide Published, HoleFree, FrontierReached, FramesAreRun, Loaded;
    var job := s.phase.job;
    var target := TargetFixed(s, job);
    FrontierStep(s.streams, job.session, job.after, job.last, target, job.frames);
    var batch := Loaded(s.streams, Some(job.session), job.last, PAGE);
    var s' := Apply(s, ReadPage);
    match OnPage(job.last, target, batch) {
      case Complete(last) =>
        CompleteKeeps(s, job, target, last, job.frames + EventFrames(batch.events));
      case More(last) =>
        HeldStays(s, s', job.session, target);
        forall i | i in s'.subs && !Todo(s'.phase, i) && i != job.id
          ensures HeldBeyond(s', s'.subs[i].session, s'.subs[i].lastSequence)
        {
          HeldStays(s, s', s'.subs[i].session, s'.subs[i].lastSequence);
        }
    }
  }

  lemma CompleteKeeps(s: Server, job: Job, target: nat, last: nat, frames: seq<ServerFrame>)
    requires Inv(s) && Working(s.phase) && s.phase.job == job
    requires HeldBeyond(s, job.session, target) && last >= target
    requires FramesAreRun(s.streams, job.session, job.after, last, frames)
    ensures Inv(Finished(s, job, last, false, frames))
  {
    CompleteCursors(s, job, last, frames);
    CompleteLoses(s, job, target, last, frames);
    hide Published, HoleFree, FramesAreRun, CursorsSound, HeldBeyond;
  }

  lemma CompleteLoses(s: Server, job: Job, target: nat, last: nat, frames: seq<ServerFrame>)
    requires Inv(s) && Working(s.phase) && s.phase.job == job
    requires HeldBeyond(s, job.session, target) && last >= target
    ensures NoLoss(Finished(s, job, last, false, frames))
  {
    hide Published, HoleFree, FrontierReached, CursorsSound, AllPublished, TodoSound;
    var s' := Finished(s, job, last, false, frames);
    forall i | i in s'.subs && !Todo(s'.phase, i)
      ensures HeldBeyond(s', s'.subs[i].session, s'.subs[i].lastSequence)
    {
      if i == job.id {
        HeldStays(s, s', job.session, target);
      } else {
        HeldStays(s, s', s'.subs[i].session, s'.subs[i].lastSequence);
      }
    }
  }

  lemma CompleteCursors(s: Server, job: Job, last: nat, frames: seq<ServerFrame>)
    requires CursorsSound(s) && JobSound(s) && TodoSound(s) && Working(s.phase) && s.phase.job == job
    requires FramesAreRun(s.streams, job.session, job.after, last, frames)
    ensures CursorsSound(Finished(s, job, last, false, frames)) && TodoSound(Finished(s, job, last, false, frames))
  {
    hide HoleFree, FrontierReached, HeldBeyond;
    if s.phase.Subscribing? {
      forall i | i in s.subs ensures s.subs[i].session != job.session {
        assert i !in SubscriptionOf(s, job.session);
      }
    }
  }

  /** Every step of every publisher, of the broadcast and of the connection keeps the invariant. */
  lemma StepKeeps(s: Server, step: Step)
    requires Inv(s) && Enabled(s, step)
    ensures Inv(Apply(s, step))
  {
    match step {
      case Append(scope, payload) => AppendKeeps(s, scope, payload);
      case Broadcast(event) => BroadcastKeeps(s, event);
      case ReceiveEvent => EventKeeps(s);
      case ReceiveLag => LagKeeps(s);
      case HandleSubscribe(requestId, id, session, after) => SubscribeKeeps(s, requestId, id, session, after);
      case HandleUnsubscribe(id) => UnsubscribeKeeps(s, id);
      case PickLagged(id) => PickKeeps(s, id);
      case ReadPage => PageKeeps(s);
      case FinishRecovery => FinishRecoveryKeeps(s);
    }
  }

  /** Unsubscribing ends the one subscription; and an event of a session without one sends nothing and moves nothing. */
  lemma UnsubscribeEnds(s: Server, id: SubscriptionId)
    requires Enabled(s, HandleUnsubscribe(id)) && !s.lagged
    ensures var t := Apply(s, HandleUnsubscribe(id));
      && t == s.(subs := t.subs) && id !in t.subs
      && forall other | other in s.subs && other != id :: other in t.subs && t.subs[other] == s.subs[other]
    ensures s.queue != [] && (forall i | i in s.subs :: Some(s.subs[i].session) != s.queue[0].scope) ==>
      Apply(s, ReceiveEvent) == s.(queue := s.queue[1..])
  {}

  // ---- runs ----

  /** A fresh connection over a hole-free store. */
  function Fresh(streams: Streams, inFlight: set<Event>): Server {
    Server(streams, inFlight, [], false, map[], map[], Idle, [])
  }

  /** What publishers have appended and not yet broadcast. */
  ghost predicate AllStored(streams: Streams, inFlight: set<Event>) {
    forall e | e in inFlight :: Published(streams, e)
  }

  ghost predicate Runs(s: Server, steps: seq<Step>)
    decreases |steps|
  {
    steps == [] || (Enabled(s, steps[0]) && Runs(Apply(s, steps[0]), steps[1..]))
  }

  function After(s: Server, steps: seq<Step>): Server
    requires Runs(s, steps)
    decreases |steps|
  {
    if steps == [] then s else After(Apply(s, steps[0]), steps[1..])
  }

  lemma {:induction false} RunKeeps(s: Server, steps: seq<Step>)
    requires Inv(s) && Runs(s, steps)
    ensures Inv(After(s, steps))
    decreases |steps|
  {
    if steps != [] {
      StepKeeps(s, steps[0]);
      RunKeeps(Apply(s, steps[0]), steps[1..]);
    }
  }

  ghost predicate Quiescent(s: Server) {
    s.phase.Idle? && s.inFlight == {} && s.queue == [] && !s.lagged
  }

  /** Over every run: no event is lost, and once nothing is on its way each cursor stands at the end of its
      stream, unless the subscription started beyond that end and has not been overtaken. */
  lemma QuiescentCursors(streams: Streams, inFlight: set<Event>, steps: seq<Step>, id: SubscriptionId)
    requires AllHoleFree(streams) && AllStored(streams, inFlight) && Runs(Fresh(streams, inFlight), steps)
    requires Quiescent(After(Fresh(streams, inFlight), steps)) && id in After(Fresh(streams, inFlight), steps).subs
    ensures var s := After(Fresh(streams, inFlight), steps);
      var high := High(s.streams, Some(s.subs[id].session));
      && !s.subs[id].gapped && id in s.started
      && s.subs[id].lastSequence == (if s.started[id] > high then s.started[id] else high)
  {
    RunKeeps(Fresh(streams, inFlight), steps);
    var s := After(Fresh(streams, inFlight), steps);
    var session, last := s.subs[id].session, s.subs[id].lastSequence;
    var high := High(s.streams, Some(session));
    assert HeldBeyond(s, session, last);
    assert !Held(s, session, last + 1);
  }
}
