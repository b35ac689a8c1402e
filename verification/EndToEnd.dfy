/** Publishers, server connection, lossy broadcast and a reconnecting client in one state machine: over a
    hole-free store the client gets every event of its session exactly once, in order, across any number of
    dropped connections, and no gap is ever raised. */
module EndToEnd {
  import opened Common
  import opened EventLog
  import opened Connection
  import opened Delivery
  import opened Client

  /** Awaiting: the subscribe request is out and frames are dropped until its reply. */
  datatype Stage = Offline | Awaiting | Streaming | GaveUp

  /** `asked`: the subscribe request has not been handled by the server yet. */
  datatype System = System(
    server: Server, session: SessionId, start: nat, after: nat, accepted: seq<Event>,
    stage: Stage, requestId: nat, asked: bool)

  datatype Move =
    | Serve(step: Step)
    | Connect(request: nat)
    | HandleRequest(id: SubscriptionId)
    | OtherReply(request: nat)
    | Receive
    | Drop

  predicate Possible(y: System, move: Move) {
    match move
    case Serve(step) => !step.HandleSubscribe? && !step.HandleUnsubscribe? && Enabled(y.server, step)
    case Connect(_) => y.stage.Offline?
    case HandleRequest(id) => y.stage.Awaiting? && y.asked && y.server.phase.Idle? && id !in y.server.subs
    case OtherReply(request) => (y.stage.Awaiting? || y.stage.Streaming?) && request != y.requestId
    case Receive => (y.stage.Awaiting? || y.stage.Streaming?) && y.server.wire != []
    case Drop => y.stage.Awaiting? || y.stage.Streaming?
  }

  function OnReceive(y: System, frame: ServerFrame): System {
    if y.stage.Awaiting? then
      if frame == Response(y.requestId) then y.(stage := Streaming) else y
    else
      match OnFrame(y.session, y.after, frame)
      case Skip => y
      case Fail(_) => y.(stage := GaveUp)
      case Accept(event) => y.(after := event.sequence, accepted := y.accepted + [event])
  }

  function Do(y: System, move: Move): System
    requires Possible(y, move)
  {
    match move
    case Serve(step) => y.(server := Apply(y.server, step))
    case Connect(request) =>
      y.(server := Fresh(y.server.streams, y.server.inFlight), stage := Awaiting, requestId := request, asked := true)
    case HandleRequest(id) =>
      y.(server := Apply(y.server, HandleSubscribe(y.requestId, id, y.session, y.after)), asked := false)
    case OtherReply(request) => y.(server := y.server.(wire := y.server.wire + [Response(request)]))
    case Receive => OnReceive(y.(server := y.server.(wire := y.server.wire[1..])), y.server.wire[0])
    case Drop => y.(server := Fresh(y.server.streams, y.server.inFlight), stage := Offline, asked := false)
  }

  // ---- the invariant ----

  /** Everything sent or about to be sent, oldest first. */
  function Outgoing(s: Server): seq<ServerFrame> {
    s.wire + if s.phase.Recovering? || s.phase.RecoveringOne? then s.phase.out else []
  }

  /** Before the subscribe request nothing but replies is sent. */
  ghost predicate Quiet(s: Server) {
    s.subs == map[] && !Working(s.phase) && forall i | 0 <= i < |Outgoing(s)| :: Outgoing(s)[i].Response?
  }

  /** The connection serves one subscription, to `session`, and has sent everything up to `cursor`. */
  ghost predicate Serves(s: Server, session: SessionId, cursor: nat) {
    if s.phase.Subscribing?
    then s.subs == map[] && s.phase.job.session == session && s.phase.job.after == cursor
    else exists id :: s.subs.Keys == {id} && s.subs[id].session == session && s.subs[id].lastSequence == cursor
  }

  /** What is under way to the client is the run from its cursor to the server's. */
  ghost predicate Connected(s: Server, session: SessionId, after: nat, cursor: nat) {
    Serves(s, session, cursor) && FramesAreRun(s.streams, session, after, cursor, Addressed(Outgoing(s), session))
  }

  /** The reply is under way, and nothing but replies is in front of it. */
  ghost predicate ReplyComing(wire: seq<ServerFrame>, requestId: nat) {
    exists k :: 0 <= k < |wire| && wire[k] == Response(requestId) && forall j | 0 <= j < k :: wire[j].Response?
  }

  ghost predicate Delivered(y: System) {
    FramesAreRun(y.server.streams, y.session, y.start, y.after, EventFrames(y.accepted))
  }

  ghost predicate Linked(y: System) {
    match y.stage
    case Offline => true
    case Awaiting =>
      if y.asked then Quiet(y.server) && Response(y.requestId) !in Outgoing(y.server)
      else ReplyComing(y.server.wire, y.requestId) && exists cursor :: Connected(y.server, y.session, y.after, cursor)
    case Streaming => exists cursor :: Connected(y.server, y.session, y.after, cursor)
    case GaveUp => false
  }

  ghost predicate Sound(y: System) {
    Inv(y.server) && Delivered(y) && Linked(y)
  }

  // ---- frames ----

  lemma FramesJoin(streams: Streams, session: SessionId, a: nat, b: nat, c: nat, x: seq<ServerFrame>, y: seq<ServerFrame>)
    requires AllHoleFree(streams)
    requires FramesAreRun(streams, session, a, b, x) && FramesAreRun(streams, session, b, c, y)
    ensures FramesAreRun(streams, session, a, c, x + y)
  {
    var scope := Some(session);
    RunAppend(streams, scope, a, b, c);
    EventFramesAppend(Run(streams, scope, a, b), Run(streams, scope, b, c));
  }

  lemma FramesGrow(before: Streams, after: Streams, session: SessionId, a: nat, b: nat, frames: seq<ServerFrame>)
    requires AllHoleFree(before) && AllHoleFree(after) && Grows(before, after)
    requires FramesAreRun(before, session, a, b, frames)
    ensures FramesAreRun(after, session, a, b, frames)
  {
    RunGrows(before, after, Some(session), a, if b > a then b else 0);
  }

  lemma RunAddressed(streams: Streams, session: SessionId, a: nat, b: nat, frames: seq<ServerFrame>)
    requires AllHoleFree(streams) && FramesAreRun(streams, session, a, b, frames)
    ensures Addressed(frames, session) == frames
  {
    if a < b {
      RunScope(streams, Some(session), a, b);
    }
    AddressedAll(Run(streams, Some(session), a, b), Some(session), session);
  }

  lemma {:induction false} RepliesNotAddressed(frames: seq<ServerFrame>, session: SessionId)
    requires forall i | 0 <= i < |frames| :: frames[i].Response?
    ensures Addressed(frames, session) == []
  {
    if frames != [] {
      RepliesNotAddressed(frames[..|frames| - 1], session);
    }
  }

  lemma NoFrames(streams: Streams, session: SessionId, a: nat)
    ensures FramesAreRun(streams, session, a, a, [])
  {}

  // ---- server steps ----

  /** One server step moves the cursor by exactly the frames that it adds. */
  ghost predicate Advances(s: Server, s': Server, session: SessionId, cursor: nat, cursor': nat) {
    && Serves(s', session, cursor')
    && exists sent :: Outgoing(s') == Outgoing(s) + sent && FramesAreRun(s'.streams, session, cursor, cursor', sent)
  }

  lemma EventAdvances(s: Server, session: SessionId, cursor: nat) returns (cursor': nat)
    requires Inv(s) && Enabled(s, ReceiveEvent) && Serves(s, session, cursor)
    ensures Advances(s, Apply(s, ReceiveEvent), session, cursor, cursor')
  {
    hide AllHoleFree, JobSound, NoLoss, FramesAreRun, CursorsSound, TodoSound;
    var event, s' := s.queue[0], Apply(s, ReceiveEvent);
    var id :| s.subs.Keys == {id} && s.subs[id].session == session && s.subs[id].lastSequence == cursor;
    cursor' := cursor;
    NoFrames(s.streams, session, cursor);
    assert Outgoing(s) + [] == Outgoing(s);
    if event.scope == Some(session) {
      assert SubscriptionOf(s, session) == {id};
      if Verdict(s.subs[id], event.sequence).Deliver? {
        cursor' := event.sequence;
        assert s'.subs.Keys == {id};
        assert Outgoing(s') == Outgoing(s) + [EventFrame(event)];
        OneEvent(s.streams, session, cursor, event);
      }
    } else if event.scope.Some? {
      assert SubscriptionOf(s, event.scope.value) == {};
    }
  }

  lemma OneEvent(streams: Streams, session: SessionId, cursor: nat, event: Event)
    requires AllHoleFree(streams) && Published(streams, event) && event.scope == Some(session)
    requires cursor < event.sequence == SaturatingIncrement(cursor)
    ensures FramesAreRun(streams, session, cursor, event.sequence, [EventFrame(event)])
  {
    PublishedBelow(streams, event);
    assert Run(streams, Some(session), cursor, event.sequence) == [event];
  }

  /** The end of a catch-up sends what the job read, from the cursor that the connection had. */
  lemma FinishAdvances(s: Server, session: SessionId, cursor: nat, job: Job, last: nat, frames: seq<ServerFrame>)
    requires CursorsSound(s) && JobSound(s) && Working(s.phase) && s.phase.job == job && Serves(s, session, cursor)
    ensures var s' := Finished(s, job, last, false, frames);
      && job.session == session && job.after == cursor
      && Serves(s', session, last) && Outgoing(s') == Outgoing(s) + frames
  {
    hide FrontierReached, HeldBeyond;
    var s' := Finished(s, job, last, false, frames);
    assert s'.subs.Keys == {job.id};
    assert s'.subs[job.id].session == session && s'.subs[job.id].lastSequence == last;
  }

  lemma PageAdvances(s: Server, session: SessionId, cursor: nat) returns (cursor': nat)
    requires Inv(s) && Enabled(s, ReadPage) && Serves(s, session, cursor)
    ensures Advances(s, Apply(s, ReadPage), session, cursor, cursor')
  {
    hide Loaded, FrontierReached, FramesAreRun, AllHoleFree, NoLoss, AllPublished, Serves, Outgoing, HeldBeyond, TodoSound;
    var job := s.phase.job;
    var target := TargetFixed(s, job);
    FrontierStep(s.streams, job.session, job.after, job.last, target, job.frames);
    var batch, s' := Loaded(s.streams, Some(job.session), job.last, PAGE), Apply(s, ReadPage);
    match OnPage(job.last, target, batch) {
      case More(_) =>
        cursor' := cursor;
        NoFrames(s.streams, session, cursor);
        SamePhaseServes(s, s', session, cursor);
        assert Outgoing(s) + [] == Outgoing(s);
      case Complete(last) =>
        cursor' := last;
        FinishAdvances(s, session, cursor, job, last, job.frames + EventFrames(batch.events));
    }
  }

  lemma SamePhaseServes(s: Server, s': Server, session: SessionId, cursor: nat)
    requires Serves(s, session, cursor) && s'.subs == s.subs && s'.wire == s.wire
    requires Working(s.phase)
    requires exists job :: s'.phase == WithJob(s.phase, job) && job.session == s.phase.job.session && job.after == s.phase.job.after
    ensures Serves(s', session, cursor) && Outgoing(s') == Outgoing(s)
  {}

  lemma ServeAdvances(s: Server, step: Step, session: SessionId, cursor: nat) returns (cursor': nat)
    requires Inv(s) && Enabled(s, step) && Serves(s, session, cursor)
    requires !step.HandleSubscribe? && !step.HandleUnsubscribe?
    ensures Advances(s, Apply(s, step), session, cursor, cursor')
  {
    cursor' := cursor;
    var s' := Apply(s, step);
    NoFrames(s'.streams, session, cursor);
    assert Outgoing(s) + [] == Outgoing(s);
    match step {
      case ReceiveEvent => cursor' := EventAdvances(s, session, cursor);
      case ReadPage => cursor' := PageAdvances(s, session, cursor);
      case Append(scope, payload) => assert Outgoing(s') == Outgoing(s);
      case Broadcast(event) => assert Outgoing(s') == Outgoing(s);
      case ReceiveLag => assert Outgoing(s') == Outgoing(s);
      case PickLagged(id) => assert Outgoing(s') == Outgoing(s);
      case FinishRecovery => assert Outgoing(s') == Outgoing(s);
    }
  }

  lemma StoreGrows(s: Server, step: Step)
    requires Inv(s) && Enabled(s, step)
    ensures Grows(s.streams, Apply(s, step).streams)
  {
    GrowsReflexive(s.streams);
    hide Inv, Grows, Loaded, OnPage, Verdict, EventFrames, SubscriptionOf;
    if step.Append? { AppendGrows(s.streams, step.scope, step.payload); }
  }

  lemma ServeKeepsConnected(s: Server, step: Step, session: SessionId, after: nat, cursor: nat) returns (cursor': nat)
    requires Inv(s) && Enabled(s, step) && Connected(s, session, after, cursor)
    requires !step.HandleSubscribe? && !step.HandleUnsubscribe?
    ensures Connected(Apply(s, step), session, after, cursor')
  {
    hide Serves, FramesAreRun, Outgoing, Addressed;
    var s' := Apply(s, step);
    StepKeeps(s, step);
    StoreGrows(s, step);
    cursor' := ServeAdvances(s, step, session, cursor);
    var sent :| Outgoing(s') == Outgoing(s) + sent && FramesAreRun(s'.streams, session, cursor, cursor', sent);
    FramesGrow(s.streams, s'.streams, session, after, cursor, Addressed(Outgoing(s), session));
    AddressedAppend(Outgoing(s), sent, session);
    RunAddressed(s'.streams, session, cursor, cursor', sent);
    FramesJoin(s'.streams, session, after, cursor, cursor', Addressed(Outgoing(s), session), sent);
  }

  lemma ServeKeepsQuiet(s: Server, step: Step)
    requires Inv(s) && Enabled(s, step) && Quiet(s)
    requires !step.HandleSubscribe? && !step.HandleUnsubscribe?
    ensures Quiet(Apply(s, step)) && Outgoing(Apply(s, step)) == Outgoing(s)
  {
    var s' := Apply(s, step);
    if step.ReceiveEvent? && s.queue[0].scope.Some? {
      assert SubscriptionOf(s, s.queue[0].scope.value) == {};
    }
    assert Outgoing(s') == Outgoing(s);
  }

  lemma WireOnlyGrows(s: Server, step: Step)
    requires Enabled(s, step)
    ensures s.wire <= Apply(s, step).wire
  {}

  lemma ReplyStaysFirst(wire: seq<ServerFrame>, longer: seq<ServerFrame>, requestId: nat)
    requires ReplyComing(wire, requestId) && wire <= longer
    ensures ReplyComing(longer, requestId)
  {
    var k :| 0 <= k < |wire| && wire[k] == Response(requestId) && forall j | 0 <= j < k :: wire[j].Response?;
    assert longer[k] == wire[k] && forall j | 0 <= j < k :: longer[j] == wire[j];
  }

  lemma ServeKeeps(y: System, step: Step)
    requires Sound(y) && Possible(y, Serve(step))
    ensures Sound(Do(y, Serve(step)))
  {
    hide Inv, Connected, FramesAreRun, ReplyComing;
    var y' := Do(y, Serve(step));
    StepKeeps(y.server, step);
    StoreGrows(y.server, step);
    InvHoleFree(y.server);
    InvHoleFree(y'.server);
    FramesGrow(y.server.streams, y'.server.streams, y.session, y.start, y.after, EventFrames(y.accepted));
    WireOnlyGrows(y.server, step);
    if y.stage.Awaiting? && y.asked {
      ServeKeepsQuiet(y.server, step);
    } else if y.stage.Awaiting? || y.stage.Streaming? {
      var cursor: nat :| Connected(y.server, y.session, y.after, cursor);
      var cursor' := ServeKeepsConnected(y.server, step, y.session, y.after, cursor);
      if y.stage.Awaiting? {
        ReplyStaysFirst(y.server.wire, y'.server.wire, y.requestId);
      }
    }
  }

  lemma InvHoleFree(s: Server)
    requires Inv(s)
    ensures AllHoleFree(s.streams)
  {}

  // ---- connecting and subscribing ----

  lemma FreshKeeps(s: Server)
    requires Inv(s)
    ensures Inv(Fresh(s.streams, s.inFlight))
  {}

  lemma RequestKeeps(y: System, id: SubscriptionId)
    requires Sound(y) && Possible(y, HandleRequest(id))
    ensures Sound(Do(y, HandleRequest(id)))
  {
    hide FramesAreRun;
    var s, y' := y.server, Do(y, HandleRequest(id));
    StepKeeps(s, HandleSubscribe(y.requestId, id, y.session, y.after));
    var k := |s.wire|;
    assert y'.server.wire == s.wire + [Response(y.requestId)];
    assert Outgoing(s) == s.wire && Outgoing(y'.server) == y'.server.wire;
    assert y'.server.wire[k] == Response(y.requestId) && forall j | 0 <= j < k :: y'.server.wire[j].Response?;
    RepliesNotAddressed(Outgoing(y'.server), y.session);
    NoFrames(s.streams, y.session, y.after);
    assert Serves(y'.server, y.session, y.after);
    assert Connected(y'.server, y.session, y.after, y.after);
  }

  // ---- what the client reads ----

  lemma OutgoingHead(s: Server)
    requires s.wire != []
    ensures var s' := s.(wire := s.wire[1..]);
      Outgoing(s) == [s.wire[0]] + Outgoing(s')
  {}

  lemma InvIgnoresWire(s: Server, wire: seq<ServerFrame>)
    requires Inv(s)
    ensures Inv(s.(wire := wire))
  {
    var s' := s.(wire := wire);
    assert forall session, q :: Held(s, session, q) ==> Held(s', session, q);
    assert forall session, cursor :: HeldBeyond(s, session, cursor) ==> HeldBeyond(s', session, cursor);
  }

  /** A frame that is not for the session is no loss. */
  lemma SkipKeepsConnected(s: Server, session: SessionId, after: nat, cursor: nat)
    requires Connected(s, session, after, cursor) && s.wire != [] && Addressed([s.wire[0]], session) == []
    ensures Connected(s.(wire := s.wire[1..]), session, after, cursor)
  {
    hide FramesAreRun;
    var s' := s.(wire := s.wire[1..]);
    OutgoingHead(s);
    AddressedAppend([s.wire[0]], Outgoing(s'), session);
    assert [] + Addressed(Outgoing(s'), session) == Addressed(Outgoing(s'), session);
  }

  /** A frame for the session is the event that the client is waiting for. */
  lemma AcceptKeepsConnected(s: Server, session: SessionId, after: nat, cursor: nat) returns (event: Event)
    requires AllHoleFree(s.streams)
    requires Connected(s, session, after, cursor) && s.wire != [] && Addressed([s.wire[0]], session) != []
    ensures OnFrame(session, after, s.wire[0]) == Accept(event)
    ensures FramesAreRun(s.streams, session, after, after + 1, [EventFrame(event)])
    ensures Connected(s.(wire := s.wire[1..]), session, after + 1, cursor)
  {
    hide Serves;
    var s', head := s.(wire := s.wire[1..]), s.wire[0];
    OutgoingHead(s);
    AddressedAppend([head], Outgoing(s'), session);
    assert Addressed([head], session) == [head] by { assert [head][..0] == []; }
    event := HeadOfRun(s.streams, session, after, cursor, head, Addressed(Outgoing(s'), session));
    assert Serves(s', session, cursor) by { SameSubscriptions(s, s', session, cursor); }
  }

  lemma SameSubscriptions(s: Server, s': Server, session: SessionId, cursor: nat)
    requires Serves(s, session, cursor) && s'.subs == s.subs && s'.phase == s.phase
    ensures Serves(s', session, cursor)
  {}

  lemma HeadOfRun(streams: Streams, session: SessionId, after: nat, cursor: nat, head: ServerFrame, rest: seq<ServerFrame>)
    returns (event: Event)
    requires AllHoleFree(streams) && FramesAreRun(streams, session, after, cursor, [head] + rest)
    ensures OnFrame(session, after, head) == Accept(event)
    ensures FramesAreRun(streams, session, after, after + 1, [EventFrame(event)])
    ensures FramesAreRun(streams, session, after + 1, cursor, rest)
  {
    var scope := Some(session);
    var run := Run(streams, scope, after, cursor);
    assert |[head] + rest| == |run|;
    RunScope(streams, scope, after, cursor);
    event := run[0];
    assert head == ([head] + rest)[0] == EventFrame(event);
    assert event.sequence <= MAX_SAFE by { assert event.sequence == after + 1; }
    RunAppend(streams, scope, after, after + 1, cursor);
    assert Run(streams, scope, after, after + 1) == [event];
    EventFramesAppend([event], Run(streams, scope, after + 1, cursor));
    assert EventFrames([event]) == [head];
    assert rest == ([head] + rest)[1..];
  }

  lemma AwaitingKeeps(y: System)
    requires Sound(y) && Possible(y, Receive) && y.stage.Awaiting?
    ensures Sound(Do(y, Receive))
  {
    hide Inv, FramesAreRun;
    OutgoingHead(y.server);
    InvIgnoresWire(y.server, y.server.wire[1..]);
    if y.asked { AskedKeeps(y); } else { ReplyKeeps(y); }
  }

  lemma AskedKeeps(y: System)
    requires Linked(y) && Possible(y, Receive) && y.stage.Awaiting? && y.asked
    requires Outgoing(y.server) == [y.server.wire[0]] + Outgoing(y.server.(wire := y.server.wire[1..]))
    ensures Linked(Do(y, Receive)) && Do(y, Receive).accepted == y.accepted && Do(y, Receive).after == y.after
  {
    hide FramesAreRun;
    var s, head := y.server, y.server.wire[0];
    var rest := Outgoing(s.(wire := s.wire[1..]));
    assert head.Response? by { assert Outgoing(s)[0] == head; }
    assert head != Response(y.requestId) by { assert head in Outgoing(s); }
    assert forall i | 0 <= i < |rest| :: rest[i] == Outgoing(s)[i + 1];
    assert forall f | f in rest :: f in Outgoing(s);
  }

  lemma ReplyKeeps(y: System)
    requires Sound(y) && Possible(y, Receive) && y.stage.Awaiting? && !y.asked
    ensures Linked(Do(y, Receive)) && Do(y, Receive).accepted == y.accepted && Do(y, Receive).after == y.after
  {
    hide Inv, FramesAreRun, Serves;
    var s, head := y.server, y.server.wire[0];
    var s' := s.(wire := s.wire[1..]);
    var k :| 0 <= k < |s.wire| && s.wire[k] == Response(y.requestId) && forall j | 0 <= j < k :: s.wire[j].Response?;
    RepliesNotAddressed([head], y.session);
    var cursor: nat :| Connected(s, y.session, y.after, cursor);
    SkipKeepsConnected(s, y.session, y.after, cursor);
    if head != Response(y.requestId) {
      assert s'.wire[k - 1] == s.wire[k] && forall j | 0 <= j < k - 1 :: s'.wire[j] == s.wire[j + 1];
    }
  }

  lemma StreamingKeeps(y: System)
    requires Sound(y) && Possible(y, Receive) && y.stage.Streaming?
    ensures Sound(Do(y, Receive))
  {
    hide Inv, FramesAreRun, Connected;
    var s, head := y.server, y.server.wire[0];
    InvIgnoresWire(s, s.wire[1..]);
    InvHoleFree(s);
    var cursor: nat :| Connected(s, y.session, y.after, cursor);
    if Addressed([head], y.session) == [] {
      SkipKeepsConnected(s, y.session, y.after, cursor);
      NotAddressedSkips(y.session, y.after, head);
    } else {
      var event := AcceptKeepsConnected(s, y.session, y.after, cursor);
      AcceptsNext(y.session, y.after, head);
      FramesJoin(s.streams, y.session, y.start, y.after, y.after + 1, EventFrames(y.accepted), [EventFrame(event)]);
      EventFramesAppend(y.accepted, [event]);
      assert EventFrames([event]) == [EventFrame(event)];
    }
  }

  lemma NotAddressedSkips(session: SessionId, after: nat, frame: ServerFrame)
    requires Addressed([frame], session) == []
    ensures OnFrame(session, after, frame).Skip?
  {
    assert [frame][..0] == [];
  }

  lemma OtherReplyKeeps(y: System, request: nat)
    requires Sound(y) && Possible(y, OtherReply(request))
    ensures Sound(Do(y, OtherReply(request)))
  {
    hide Inv, FramesAreRun, Connected, Quiet, Outgoing;
    var s := y.server;
    var s' := s.(wire := s.wire + [Response(request)]);
    InvIgnoresWire(s, s'.wire);
    if y.stage.Awaiting? && y.asked {
      QuietWithReply(s, request);
    } else {
      var cursor: nat :| Connected(s, y.session, y.after, cursor);
      ReplyNotAddressed(s, request, y.session, y.after, cursor);
      if y.stage.Awaiting? { ReplyStaysFirst(s.wire, s'.wire, y.requestId); }
    }
  }

  lemma ReplyNotAddressed(s: Server, request: nat, session: SessionId, after: nat, cursor: nat)
    requires Connected(s, session, after, cursor)
    ensures Connected(s.(wire := s.wire + [Response(request)]), session, after, cursor)
  {
    hide FramesAreRun;
    var reply := Response(request);
    RepliesNotAddressed([reply], session);
    var out := if s.phase.Recovering? || s.phase.RecoveringOne? then s.phase.out else [];
    AddressedAppend(s.wire, out, session);
    AddressedAppend(s.wire + [reply], out, session);
    AddressedAppend(s.wire, [reply], session);
    assert Addressed(s.wire, session) + [] == Addressed(s.wire, session);
  }

  lemma QuietWithReply(s: Server, request: nat)
    requires Quiet(s)
    ensures var s' := s.(wire := s.wire + [Response(request)]);
      Quiet(s') && forall f | f in Outgoing(s') :: f in Outgoing(s) || f == Response(request)
  {
    var s' := s.(wire := s.wire + [Response(request)]);
    var out := if s.phase.Recovering? || s.phase.RecoveringOne? then s.phase.out else [];
    assert Outgoing(s) == s.wire + out && Outgoing(s') == s.wire + [Response(request)] + out;
    forall i | 0 <= i < |Outgoing(s')| ensures Outgoing(s')[i] in Outgoing(s) || Outgoing(s')[i] == Response(request) {
      if i < |s.wire| {
        assert Outgoing(s')[i] == Outgoing(s)[i];
      } else if i > |s.wire| {
        assert Outgoing(s')[i] == Outgoing(s)[i - 1];
      }
    }
  }

  lemma MoveKeeps(y: System, move: Move)
    requires Sound(y) && Possible(y, move)
    ensures Sound(Do(y, move))
  {
    hide Inv, FramesAreRun, Connected;
    match move {
      case Serve(step) => ServeKeeps(y, step);
      case Connect(request) => FreshKeeps(y.server);
      case HandleRequest(id) => RequestKeeps(y, id);
      case OtherReply(request) => OtherReplyKeeps(y, request);
      case Receive => if y.stage.Awaiting? { AwaitingKeeps(y); } else { StreamingKeeps(y); }
      case Drop => FreshKeeps(y.server);
    }
  }

  // ---- runs ----

  ghost predicate Plays(y: System, moves: seq<Move>)
    decreases |moves|
  {
    moves == [] || (Possible(y, moves[0]) && Plays(Do(y, moves[0]), moves[1..]))
  }

  function Final(y: System, moves: seq<Move>): System
    requires Plays(y, moves)
    decreases |moves|
  {
    if moves == [] then y else Final(Do(y, moves[0]), moves[1..])
  }

  lemma {:induction false} PlayKeeps(y: System, moves: seq<Move>)
    requires Sound(y) && Plays(y, moves)
    ensures Sound(Final(y, moves))
    ensures Final(y, moves).session == y.session && Final(y, moves).start == y.start
    decreases |moves|
  {
    hide Sound;
    if moves != [] {
      MoveKeeps(y, moves[0]);
      PlayKeeps(Do(y, moves[0]), moves[1..]);
    }
  }

  /** The client starts while publishers may be anywhere between append and broadcast. */
  function Initial(streams: Streams, inFlight: set<Event>, session: SessionId, start: nat): System {
    System(Fresh(streams, inFlight), session, start, start, [], Offline, 0, false)
  }

  /** Over every run, however often the connection drops: the client has accepted exactly the stored events
      start + 1 .. after, once each and in order, and never raised a gap. */
  lemma ExactlyOnceInOrder(streams: Streams, inFlight: set<Event>, session: SessionId, start: nat, moves: seq<Move>)
    requires AllHoleFree(streams) && AllStored(streams, inFlight) && Plays(Initial(streams, inFlight, session, start), moves)
    ensures var y := Final(Initial(streams, inFlight, session, start), moves);
      && y.after >= start && !y.stage.GaveUp?
      && (forall k | start < k <= y.after :: k in StreamOf(y.server.streams, Some(session)).rows)
      && y.accepted == Run(y.server.streams, Some(session), start, y.after)
  {
    var y0 := Initial(streams, inFlight, session, start);
    InitialSound(streams, inFlight, session, start);
    PlayKeeps(y0, moves);
    var y := Final(y0, moves);
    var run := Run(y.server.streams, Some(session), start, y.after);
    assert forall i | 0 <= i < |run| :: EventFrames(run)[i].event == run[i] && EventFrames(y.accepted)[i].event == y.accepted[i];
  }

  lemma NothingUnderWay(streams: Streams, session: SessionId, after: nat, cursor: nat)
    requires FramesAreRun(streams, session, after, cursor, [])
    ensures after == cursor
  {
    assert |EventFrames(Run(streams, Some(session), after, cursor))| == 0;
  }

  lemma QuiescentComplete(y: System)
    requires Sound(y) && y.stage.Streaming? && Quiescent(y.server) && y.server.wire == []
    ensures y.after >= High(y.server.streams, Some(y.session))
    ensures y.after == y.start || y.after <= High(y.server.streams, Some(y.session))
  {
    hide FramesAreRun, AllHoleFree, JobSound, TodoSound, CursorsSound, AllPublished;
    var s := y.server;
    var cursor: nat :| Connected(s, y.session, y.after, cursor);
    AddressedNone();
    NothingUnderWay(s.streams, y.session, y.after, cursor);
    assert HeldBeyond(s, y.session, cursor);
    assert !Held(s, y.session, cursor + 1);
    DeliveredBound(y);
  }

  lemma DeliveredBound(y: System)
    requires Delivered(y)
    ensures y.after == y.start || y.after <= High(y.server.streams, Some(y.session))
  {}

  /** Once the connection is up and nothing is on its way, the client has everything. */
  lemma QuiescentClientComplete(streams: Streams, inFlight: set<Event>, session: SessionId, start: nat, moves: seq<Move>)
    requires AllHoleFree(streams) && AllStored(streams, inFlight) && Plays(Initial(streams, inFlight, session, start), moves)
    requires var y := Final(Initial(streams, inFlight, session, start), moves);
      y.stage.Streaming? && Quiescent(y.server) && y.server.wire == []
    ensures var y := Final(Initial(streams, inFlight, session, start), moves);
      var high := High(y.server.streams, Some(session));
      y.after == if start > high then start else high
  {
    hide Quiescent, AllHoleFree, High;
    InitialSound(streams, inFlight, session, start);
    hide Inv, Linked;
    PlayKeeps(Initial(streams, inFlight, session, start), moves);
    var y := Final(Initial(streams, inFlight, session, start), moves);
    DeliveredForward(y);
    QuiescentComplete(y);
  }

  lemma DeliveredForward(y: System)
    requires Delivered(y)
    ensures y.after >= y.start
  {}

  lemma InitialSound(streams: Streams, inFlight: set<Event>, session: SessionId, start: nat)
    requires AllHoleFree(streams) && AllStored(streams, inFlight)
    ensures Sound(Initial(streams, inFlight, session, start))
  {
    assert Run(streams, Some(session), start, start) == [];
  }
}
