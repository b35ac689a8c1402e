/** The clients' receiving side: the reconnecting WebSocket subscription
    (crates/fixtrace-client/src/websocket.rs) and the event subscription that applications read from
    (crates/fixtrace-client/src/lib.rs). Whatever frames arrive, what is handed on is contiguous. */
module Client {
  import opened Common
  import opened EventLog
  import opened Connection

  /** What a socket read yields; a reply may carry an error. */
  datatype Message =
    | Text(frame: ServerFrame)
    | ErrorReply(requestId: nat)
    | Unreadable
    | Ping
    | Binary
    | Closed

  datatype ClientError = EventGap(gap: Gap) | EventStreamClosed | Transport

  type Item = Result<Event, ClientError>

  /** What the receive loop of a subscription does with a frame. */
  datatype FrameVerdict = Skip | Accept(event: Event) | Fail(gap: Gap)

  function OnFrame(session: SessionId, after: nat, frame: ServerFrame): FrameVerdict {
    match frame
    case Response(_) => Skip
    case EventFrame(event) =>
      if event.scope != Some(session) || event.sequence <= after then Skip
      else if event.sequence != SaturatingIncrement(after) then
        Fail(Gap(SaturatingIncrement(after), event.sequence, event.sequence))
      else Accept(event)
    case GapFrame(s, gap) => if s != session || gap.expected <= after then Skip else Fail(gap)
  }

  /** What a frame is to a reader that has come to `after`: the next event of its session is accepted; a later one,
      and a gap that is reported from beyond the cursor, fail it; everything else is passed over. */
  lemma FramesJudged(session: SessionId, after: nat, frame: ServerFrame)
    ensures OnFrame(session, after, frame).Accept? <==>
      frame.EventFrame? && frame.event.scope == Some(session) && frame.event.sequence > after
      && frame.event.sequence == SaturatingIncrement(after)
    ensures OnFrame(session, after, frame).Accept? ==> OnFrame(session, after, frame).event == frame.event
    ensures OnFrame(session, after, frame).Fail? <==>
      || (frame.GapFrame? && frame.session == session && frame.gap.expected > after)
      || (frame.EventFrame? && frame.event.scope == Some(session) && frame.event.sequence > after
          && frame.event.sequence != SaturatingIncrement(after))
    ensures OnFrame(session, after, frame).Fail? ==>
      OnFrame(session, after, frame).gap
        == (if frame.GapFrame? then frame.gap else Gap(SaturatingIncrement(after), frame.event.sequence, frame.event.sequence))
  {}

  lemma AcceptsNext(session: SessionId, after: nat, frame: ServerFrame)
    requires OnFrame(session, after, frame).Accept?
    ensures OnFrame(session, after, frame).event.sequence == after + 1
    ensures OnFrame(session, after, frame).event.scope == Some(session)
  {}

  /** Exactly the events numbered start + 1 .. end of the session, in order. */
  ghost predicate Contiguous(events: seq<Event>, session: SessionId, start: nat, end: nat) {
    && start <= end && |events| == end - start
    && forall i | 0 <= i < |events| :: events[i].scope == Some(session) && events[i].sequence == start + 1 + i
  }

  lemma ContiguousSnoc(events: seq<Event>, session: SessionId, start: nat, end: nat, next: Event)
    requires Contiguous(events, session, start, end)
    requires next.scope == Some(session) && next.sequence == end + 1
    ensures Contiguous(events + [next], session, start, end + 1)
  {}

  // ---- the reconnecting subscription ----

  predicate Droppable(m: Message, requestId: nat) {
    || (m.Text? && m.frame != Response(requestId))
    || (m.ErrorReply? && m.requestId != requestId)
    || m.Ping?
  }

  /** What is left behind the reply, if it comes before anything that ends the connection. */
  function AfterReply(messages: seq<Message>, requestId: nat): Option<seq<Message>> {
    if messages == [] then None
    else if messages[0] == Text(Response(requestId)) then Some(messages[1..])
    else if Droppable(messages[0], requestId) then AfterReply(messages[1..], requestId)
    else None
  }

  /** Message `k` is the reply to the request, the first that is, and what came before it could be read past: text
      that is no reply to it, or a ping. */
  ghost predicate ReplyAt(messages: seq<Message>, requestId: nat, k: nat) {
    && k < |messages| && messages[k] == Text(Response(requestId))
    && forall i | 0 <= i < k ::
         match messages[i] {
           case Text(frame) => frame != Response(requestId)
           case ErrorReply(id) => id != requestId
           case Ping => true
           case _ => false
         }
  }

  /** The reply is found exactly where it is, and everything behind it is left. */
  lemma {:induction false} ReplyExactly(messages: seq<Message>, requestId: nat)
    ensures AfterReply(messages, requestId).Some? <==> exists k: nat :: ReplyAt(messages, requestId, k)
    ensures forall k: nat | ReplyAt(messages, requestId, k) :: AfterReply(messages, requestId) == Some(messages[k + 1..])
  {
    if messages != [] {
      var rest := messages[1..];
      ReplyExactly(rest, requestId);
      if messages[0] == Text(Response(requestId)) {
        assert ReplyAt(messages, requestId, 0);
      } else {
        forall k: nat | ReplyAt(messages, requestId, k) ensures k > 0 && ReplyAt(rest, requestId, k - 1) && rest[k - 1 + 1..] == messages[k + 1..] {}
        if Droppable(messages[0], requestId) {
          forall k: nat | ReplyAt(rest, requestId, k) ensures ReplyAt(messages, requestId, k + 1) {}
        }
      }
    }
  }

  /** How the receive loop stands: going on, cut off by a message that is no text, or ended by a gap. */
  datatype Ending = Going | Cut | GapFound(gap: Gap)

  function Ended(session: SessionId, after: nat, message: Message): Ending {
    match message
    case Text(frame) =>
      (match OnFrame(session, after, frame)
       case Fail(gap) => GapFound(gap)
       case _ => Going)
    case ErrorReply(_) => Going
    case Unreadable => Going
    case _ => Cut
  }

  function Taken(session: SessionId, after: nat, message: Message): seq<Event> {
    match message
    case Text(frame) =>
      (match OnFrame(session, after, frame)
       case Accept(event) => [event]
       case _ => [])
    case _ => []
  }

  /** What the loop makes of a message: an accepted event is taken and a failing frame ends the subscription; replies
      and text that cannot be read are passed over; anything that is no text ends the connection. */
  lemma MessagesJudged(session: SessionId, after: nat, m: Message)
    ensures Taken(session, after, m) == if m.Text? && OnFrame(session, after, m.frame).Accept? then [m.frame.event] else []
    ensures Ended(session, after, m) == Cut <==> m in {Ping, Binary, Closed}
    ensures Ended(session, after, m).GapFound? <==> m.Text? && OnFrame(session, after, m.frame).Fail?
    ensures Ended(session, after, m).GapFound? ==> Ended(session, after, m).gap == OnFrame(session, after, m.frame).gap
  {}

  /** The events that the receive loop takes from these messages, and how it ends. */
  function Received(session: SessionId, after: nat, messages: seq<Message>): (seq<Event>, Ending) {
    if messages == [] then ([], Going)
    else
      var last := messages[|messages| - 1];
      var (events, ending) := Received(session, after, messages[..|messages| - 1]);
      if !ending.Going? then (events, ending)
      else (events + Taken(session, after + |events|, last), Ended(session, after + |events|, last))
  }

  lemma {:induction false} EndingStays(session: SessionId, after: nat, messages: seq<Message>, i: nat)
    requires i <= |messages| && !Received(session, after, messages[..i]).1.Going?
    ensures Received(session, after, messages) == Received(session, after, messages[..i])
    decreases |messages|
  {
    if i < |messages| {
      var front := messages[..|messages| - 1];
      assert front[..i] == messages[..i];
      EndingStays(session, after, front, i);
    } else {
      assert messages[..i] == messages;
    }
  }

  lemma {:induction false} ReceivedPrefix(session: SessionId, after: nat, messages: seq<Message>, i: nat)
    requires i <= |messages|
    ensures Received(session, after, messages[..i]).0 <= Received(session, after, messages).0
    decreases |messages|
  {
    if i < |messages| {
      var front := messages[..|messages| - 1];
      assert front[..i] == messages[..i];
      ReceivedPrefix(session, after, front, i);
    } else {
      assert messages[..i] == messages;
    }
  }

  lemma ReceivedStep(session: SessionId, after: nat, messages: seq<Message>, i: nat)
    requires i < |messages| && Received(session, after, messages[..i]).1.Going?
    ensures var (events, _) := Received(session, after, messages[..i]);
      Received(session, after, messages[..i + 1])
        == (events + Taken(session, after + |events|, messages[i]), Ended(session, after + |events|, messages[i]))
  {
    assert messages[..i + 1][..i] == messages[..i];
  }

  /** Over several connections, each behind its reply, until a gap ends the subscription. */
  function Gathered(session: SessionId, after: nat, connections: seq<seq<Message>>, requestIds: seq<nat>): (seq<Event>, Option<Gap>)
    requires |requestIds| == |connections|
  {
    if connections == [] then ([], None)
    else
      var n := |connections| - 1;
      var (events, gap) := Gathered(session, after, connections[..n], requestIds[..n]);
      if gap.Some? then (events, gap)
      else
        match AfterReply(connections[n], requestIds[n])
        case None => (events, None)
        case Some(rest) =>
          var (more, ending) := Received(session, after + |events|, rest);
          (events + more, if ending.GapFound? then Some(ending.gap) else None)
  }

  lemma {:induction false} GapStays(session: SessionId, after: nat, connections: seq<seq<Message>>, requestIds: seq<nat>, i: nat)
    requires |requestIds| == |connections| && i <= |connections|
    requires Gathered(session, after, connections[..i], requestIds[..i]).1.Some?
    ensures Gathered(session, after, connections, requestIds) == Gathered(session, after, connections[..i], requestIds[..i])
    decreases |connections|
  {
    var n := |connections| - 1;
    if i < |connections| {
      assert connections[..n][..i] == connections[..i] && requestIds[..n][..i] == requestIds[..i];
      GapStays(session, after, connections[..n], requestIds[..n], i);
    } else {
      assert connections[..i] == connections && requestIds[..i] == requestIds;
    }
  }

  lemma {:induction false} GatheredPrefix(session: SessionId, after: nat, connections: seq<seq<Message>>, requestIds: seq<nat>, i: nat)
    requires |requestIds| == |connections| && i <= |connections|
    ensures Gathered(session, after, connections[..i], requestIds[..i]).0 <= Gathered(session, after, connections, requestIds).0
    decreases |connections|
  {
    var n := |connections| - 1;
    if i < |connections| {
      assert connections[..n][..i] == connections[..i] && requestIds[..n][..i] == requestIds[..i];
      GatheredPrefix(session, after, connections[..n], requestIds[..n], i);
    } else {
      assert connections[..i] == connections && requestIds[..i] == requestIds;
    }
  }

  lemma GatheredNone(session: SessionId, after: nat)
    ensures Gathered(session, after, [], []) == ([], None)
  {}

  lemma GatheredNext(session: SessionId, after: nat, connections: seq<seq<Message>>, requestIds: seq<nat>, i: nat)
    requires |requestIds| == |connections| && i < |connections|
    requires Gathered(session, after, connections[..i], requestIds[..i]).1.None?
    ensures var (events, _) := Gathered(session, after, connections[..i], requestIds[..i]);
      Gathered(session, after, connections[..i + 1], requestIds[..i + 1]) ==
        match AfterReply(connections[i], requestIds[i])
        case None => (events, None)
        case Some(rest) =>
          var (more, ending) := Received(session, after + |events|, rest);
          (events + more, if ending.GapFound? then Some(ending.gap) else None)
  {
    assert connections[..i + 1][..i] == connections[..i] && requestIds[..i + 1][..i] == requestIds[..i];
    hide Received, AfterReply;
  }

  datatype SubscriptionExit = Disconnected | ReceiverClosed | Terminal

  const INITIAL_DELAY_MS: nat := 100
  const MAX_DELAY_MS: nat := 5_000

  class SubscriptionWorker {
    const session: SessionId
    const initialAfter: nat
    var after: nat
    /** What went into the channel: events, then at most one gap. */
    var events: seq<Event>
    var gaps: seq<Gap>
    var receiverClosed: bool

    ghost predicate Valid()
      reads this
    {
      if receiverClosed
      then initialAfter <= after && Contiguous(events, session, initialAfter, initialAfter + |events|) && initialAfter + |events| <= after <= initialAfter + |events| + 1
      else Contiguous(events, session, initialAfter, after) && |gaps| <= 1
    }

    constructor (session: SessionId, initialAfter: nat)
      ensures Valid() && after == initialAfter && events == [] && gaps == [] && !receiverClosed
      ensures this.session == session && this.initialAfter == initialAfter
    {
      this.session, this.initialAfter, after := session, initialAfter, initialAfter;
      events, gaps, receiverClosed := [], [], false;
    }

    /** The loop of `send_request`: other frames are read and dropped until the reply is there. */
    static method AwaitReply(messages: seq<Message>, requestId: nat) returns (r: Result<seq<Message>, ClientError>)
      ensures r.Ok? <==> AfterReply(messages, requestId).Some?
      ensures r.Ok? ==> Some(r.value) == AfterReply(messages, requestId)
      ensures r.Ok? <==> exists k: nat :: ReplyAt(messages, requestId, k)
      ensures r.Ok? ==> exists k: nat :: ReplyAt(messages, requestId, k) && r.value == messages[k + 1..]
    {
      ReplyExactly(messages, requestId);
      hide ReplyAt;
      assert messages[0..] == messages;
      for k := 0 to |messages|
        invariant AfterReply(messages, requestId) == AfterReply(messages[k..], requestId)
      {
        assert messages[k..][0] == messages[k] && messages[k..][1..] == messages[k + 1..];
        match messages[k] {
          case Text(frame) => if frame == Response(requestId) { return Ok(messages[k + 1..]); }
          case ErrorReply(id) => if id == requestId { return Err(Transport); }
          case Ping =>
          case Unreadable => return Err(Transport);
          case Binary => return Err(Transport);
          case Closed => return Err(EventStreamClosed);
        }
      }
      r := Err(EventStreamClosed);
    }

    /** One connection, with anything whatsoever arriving on it after the subscribe request: the receiver gets
        exactly the events that continue its run, and the gap that ends it; all but the receiver's own end is
        decided by the messages. */
    method SubscriptionConnection(messages: seq<Message>, requestId: nat) returns (exit: SubscriptionExit)
      requires Valid() && gaps == [] && !receiverClosed
      modifies this
      ensures Valid() && after >= old(after) && old(events) <= events
      ensures exit.Disconnected? ==> gaps == [] && !receiverClosed
      ensures exit.Terminal? ==> |gaps| == 1 && !receiverClosed
      ensures exit.ReceiverClosed? ==> receiverClosed && gaps == []
      ensures match AfterReply(messages, requestId) {
        case None => exit.Disconnected? && events == old(events) && after == old(after)
        case Some(rest) =>
          var (got, ending) := Received(session, old(after), rest);
          if exit.ReceiverClosed? then events <= old(events) + got
          else
            && events == old(events) + got && after == old(after) + |got|
            && gaps == (if ending.GapFound? then [ending.gap] else [])
      }
    {
      var reply := AwaitReply(messages, requestId);
      var rest: seq<Message>;
      match reply {
        case Err(_) => return Disconnected;
        case Ok(value) => rest := value;
      }
      exit := Receive(rest);
    }

    /** The receive loop. */
    method Receive(rest: seq<Message>) returns (exit: SubscriptionExit)
      requires Valid() && gaps == [] && !receiverClosed
      modifies this
      ensures Valid() && after >= old(after) && old(events) <= events
      ensures exit.Disconnected? ==> gaps == [] && !receiverClosed
      ensures exit.Terminal? ==> |gaps| == 1 && !receiverClosed
      ensures exit.ReceiverClosed? ==> receiverClosed && gaps == []
      ensures var (got, ending) := Received(session, old(after), rest);
        if exit.ReceiverClosed? then events <= old(events) + got
        else
          && events == old(events) + got && after == old(after) + |got|
          && gaps == (if ending.GapFound? then [ending.gap] else [])
    {
      ghost var from, had := after, events;
      hide Received;
      NothingReceived(session, from);
      assert rest[..0] == [];
      for i := 0 to |rest|
        invariant Valid() && gaps == [] && !receiverClosed && after >= old(after) && old(events) <= events
        invariant Received(session, from, rest[..i]).1.Going?
        invariant events == had + Received(session, from, rest[..i]).0 && after == from + |Received(session, from, rest[..i]).0|
      {
        ReceivedStep(session, from, rest, i);
        ReceivedPrefix(session, from, rest, i);
        ReceivedPrefix(session, from, rest, i + 1);
        match rest[i] {
          case Unreadable =>
          case ErrorReply(_) =>
          case Text(frame) =>
            match OnFrame(session, after, frame) {
              case Skip =>
              case Fail(gap) =>
                EndingStays(session, from, rest, i + 1);
                if * { receiverClosed := true; return ReceiverClosed; }
                gaps := gaps + [gap];
                return Terminal;
              case Accept(event) =>
                AcceptsNext(session, after, frame);
                after := event.sequence;
                if * { receiverClosed := true; return ReceiverClosed; }
                ContiguousSnoc(events, session, initialAfter, after - 1, event);
                events := events + [event];
            }
          case _ =>
            EndingStays(session, from, rest, i + 1);
            return Disconnected;
        }
      }
      assert rest[..|rest|] == rest;
      exit := Disconnected;
    }

    /** Any number of connections, each delivering anything: over all of them the receiver gets exactly the
        events initialAfter + 1, + 2, ... once each and in order, and at the end at most one gap; and it gets all
        that arrive, as long as it listens. */
    method ReconnectingSubscription(connections: seq<seq<Message>>, requestIds: seq<nat>) returns (delays: seq<nat>)
      requires Valid() && gaps == [] && !receiverClosed && events == [] && |requestIds| == |connections|
      modifies this
      ensures Valid() && Contiguous(events, session, initialAfter, initialAfter + |events|) && |gaps| <= 1
      ensures var (got, gap) := Gathered(session, initialAfter, connections, requestIds);
        if receiverClosed then events <= got else events == got && gaps == (if gap.Some? then [gap.value] else [])
      ensures (delays != [] ==> delays[0] == INITIAL_DELAY_MS) && forall i | 0 <= i < |delays| :: delays[i] <= MAX_DELAY_MS
      ensures forall i | 0 < i < |delays| :: delays[i] == Min(2 * delays[i - 1], MAX_DELAY_MS)
    {
      hide Received, AfterReply, Gathered;
      GatheredNone(session, initialAfter);
      var delay := INITIAL_DELAY_MS;
      delays := [];
      assert connections[..0] == [] && requestIds[..0] == [];
      for i := 0 to |connections|
        invariant Valid() && gaps == [] && !receiverClosed
        invariant (events, None) == Gathered(session, initialAfter, connections[..i], requestIds[..i])
        invariant INITIAL_DELAY_MS <= delay <= MAX_DELAY_MS
        invariant if delays == [] then delay == INITIAL_DELAY_MS else delays[0] == INITIAL_DELAY_MS
        invariant forall j | 0 <= j < |delays| :: delays[j] <= MAX_DELAY_MS
        invariant forall j | 0 < j < |delays| :: delays[j] == Min(2 * delays[j - 1], MAX_DELAY_MS)
        invariant delays != [] ==> delay == Min(2 * delays[|delays| - 1], MAX_DELAY_MS)
      {
        GatheredNext(session, initialAfter, connections, requestIds, i);
        GatheredPrefix(session, initialAfter, connections, requestIds, i);
        GatheredPrefix(session, initialAfter, connections, requestIds, i + 1);
        if * { receiverClosed := true; return; }
        var exit := SubscriptionConnection(connections[i], requestIds[i]);
        match exit {
          case ReceiverClosed => return;
          case Terminal =>
            GapStays(session, initialAfter, connections, requestIds, i + 1);
            return;
          case Disconnected =>
            delays := delays + [delay];
            delay := Min(2 * delay, MAX_DELAY_MS);
        }
      }
      assert connections[..|connections|] == connections && requestIds[..|connections|] == requestIds;
    }
  }

  lemma NothingReceived(session: SessionId, after: nat)
    ensures Received(session, after, []) == ([], Going)
  {}

  // ---- the application's end ----

  /** What the live source yields next: an event, an error handed on by the worker, or a broadcast lag. */
  datatype LiveItem = Arrived(event: Event) | Failed(error: ClientError) | Lagged

  /** Events as the store returns them: the session's, under 64-bit column numbers. */
  predicate Stored(events: seq<Event>, session: SessionId) {
    forall i | 0 <= i < |events| :: events[i].scope == Some(session) && events[i].sequence < U64_MAX
  }

  /** The first thing the source yields that is not an old event or one of another session. */
  function NextLive(live: seq<LiveItem>, session: SessionId, last: nat): Option<(LiveItem, seq<LiveItem>)> {
    if live == [] then None
    else if live[0].Arrived? && (live[0].event.scope != Some(session) || live[0].event.sequence <= last)
    then NextLive(live[1..], session, last)
    else Some((live[0], live[1..]))
  }

  /** It is passed over: an event of another session, or one that was seen before. */
  ghost predicate Stale(item: LiveItem, session: SessionId, last: nat) {
    item.Arrived? && !(item.event.scope == Some(session) && item.event.sequence > last)
  }

  /** The first that is not stale is yielded, and what is behind it is left. */
  lemma {:induction false} NextLiveExactly(live: seq<LiveItem>, session: SessionId, last: nat)
    ensures NextLive(live, session, last).None? <==> forall i | 0 <= i < |live| :: Stale(live[i], session, last)
    ensures forall k | 0 <= k < |live| && !Stale(live[k], session, last) && (forall i | 0 <= i < k :: Stale(live[i], session, last)) ::
      NextLive(live, session, last) == Some((live[k], live[k + 1..]))
  {
    if live != [] {
      var rest := live[1..];
      NextLiveExactly(rest, session, last);
      assert forall i | 0 <= i < |rest| :: rest[i] == live[i + 1];
      if Stale(live[0], session, last) {
        assert forall i | 0 < i < |live| :: live[i] == rest[i - 1];
        forall k | 0 <= k < |live| && !Stale(live[k], session, last) && (forall i | 0 <= i < k :: Stale(live[i], session, last))
          ensures k > 0 && rest[k - 1..][0] == live[k] && rest[k - 1 + 1..] == live[k + 1..]
        {}
      }
    }
  }

  class EventSubscription {
    const session: SessionId
    var pending: seq<Event>
    var initialGap: Option<Gap>
    var lastSequence: nat
    /** What the source will yield, as far as the model looks; then it is closed. */
    var live: seq<LiveItem>
    /** All events handed to the application so far, from the first cursor on. */
    ghost const started: nat
    ghost var accepted: seq<Event>

    ghost predicate Valid()
      reads this
    {
      && Contiguous(accepted, session, started, lastSequence)
      && Stored(pending, session)
    }

    constructor (session: SessionId, after: nat, pending: seq<Event>, initialGap: Option<Gap>, live: seq<LiveItem>)
      requires Stored(pending, session)
      ensures Valid() && lastSequence == started == after && accepted == []
      ensures this.session == session && this.pending == pending && this.initialGap == initialGap && this.live == live
    {
      this.session, this.pending, this.initialGap, this.live := session, pending, initialGap, live;
      lastSequence, started, accepted := after, after, [];
    }

    method AcceptEvent(event: Event) returns (r: Result<Event, ClientError>)
      requires Valid() && event.scope == Some(session) && (event.sequence < U64_MAX || event.sequence > lastSequence)
      modifies this`lastSequence, this`accepted
      ensures Valid()
      ensures r.Ok? <==> event.sequence == SaturatingIncrement(old(lastSequence))
      ensures r.Ok? ==> r.value == event && lastSequence == event.sequence && accepted == old(accepted) + [event]
      ensures r.Err? ==> lastSequence == old(lastSequence) && accepted == old(accepted)
      ensures r.Err? ==> r.error == EventGap(Gap(SaturatingIncrement(old(lastSequence)), event.sequence, event.sequence))
    {
      var expected := SaturatingIncrement(lastSequence);
      if event.sequence != expected {
        return Err(EventGap(Gap(expected, event.sequence, event.sequence)));
      }
      ContiguousSnoc(accepted, session, started, lastSequence, event);
      lastSequence := event.sequence;
      accepted := accepted + [event];
      r := Ok(event);
    }

    /** Over any sequence of calls the application sees started + 1, + 2, ... without a repetition or a hole. */
    method Recv() returns (r: Result<Event, ClientError>)
      requires Valid()
      modifies this
      ensures Valid()
      ensures r.Ok? ==> accepted == old(accepted) + [r.value] && lastSequence == old(lastSequence) + 1
      ensures r.Err? ==> accepted == old(accepted) && lastSequence == old(lastSequence)
      ensures old(initialGap).Some? ==> r == Err(EventGap(old(initialGap).value)) && initialGap == None && pending == old(pending)
      ensures old(initialGap).None? && old(pending) != [] ==>
        && pending == old(pending)[1..] && live == old(live)
        && (r.Ok? <==> old(pending)[0].sequence == SaturatingIncrement(old(lastSequence)))
        && (r.Ok? ==> r.value == old(pending)[0])
      ensures old(initialGap).None? && old(pending) == [] ==>
        match NextLive(old(live), session, old(lastSequence)) {
          case None => live == [] && r == Err(EventStreamClosed)
          case Some((Arrived(event), rest)) =>
            live == rest && (r.Ok? <==> event.sequence == SaturatingIncrement(old(lastSequence))) && (r.Ok? ==> r.value == event)
          case Some((Failed(error), rest)) => live == rest && r == Err(error)
          case Some((Lagged, rest)) =>
            var next := SaturatingIncrement(old(lastSequence));
            live == rest && r == Err(EventGap(Gap(next, next, old(lastSequence))))
        }
    {
      if initialGap.Some? {
        r := Err(EventGap(initialGap.value));
        initialGap := None;
        return;
      }
      if pending != [] {
        var event := pending[0];
        pending := pending[1..];
        r := AcceptEvent(event);
        return;
      }
      while live != []
        invariant Valid() && initialGap.None? && pending == []
        invariant accepted == old(accepted) && lastSequence == old(lastSequence)
        invariant NextLive(live, session, lastSequence) == NextLive(old(live), session, old(lastSequence))
        decreases |live|
      {
        var item := live[0];
        live := live[1..];
        match item {
          case Lagged =>
            return Err(EventGap(Gap(SaturatingIncrement(lastSequence), SaturatingIncrement(lastSequence), lastSequence)));
          case Failed(error) => return Err(error);
          case Arrived(event) =>
            if event.scope != Some(session) || event.sequence <= lastSequence { continue; }
            r := AcceptEvent(event);
            return;
        }
      }
      r := Err(EventStreamClosed);
    }
  }

  /** `InProcessClient::subscribe`: page up to the end of the stream as it was at the first read. */
  method SubscribeInProcess(store: EventStore, session: SessionId, afterSequence: nat, live: seq<LiveItem>)
    returns (subscription: EventSubscription)
    requires AllKeyed(store.streams)
    modifies store
    ensures subscription.Valid() && fresh(subscription) && subscription.lastSequence == afterSequence
    ensures old(AllHoleFree(store.streams)) ==>
      && subscription.initialGap.None?
      && CaughtUp(old(store.streams), store.streams, session, afterSequence, afterSequence + |subscription.pending|, EventFrames(subscription.pending))
  {
    assert Stored([], session);
    hide *;
    ghost var before, holeFree := store.streams, AllHoleFree(store.streams);
    GrowsReflexive(before);
    var first := store.LoadAfter(Some(session), afterSequence, PAGE);
    var after, pending := Absorb(afterSequence, [], first, session, before);
    PagesBegin(before, holeFree, session, afterSequence, after, pending);
    var gap;
    after, pending, gap := ReadOn(store, session, first.highWatermark, after, pending, first.gap, before, holeFree, afterSequence);
    PagesEnd(before, store.streams, holeFree, session, afterSequence, after, pending, gap);
    subscription := new EventSubscription(session, afterSequence, pending, gap, live);
  }

  /** The `while` of `subscribe`. */
  method ReadOn(store: EventStore, session: SessionId, target: nat, from: nat, held: seq<Event>, first: Option<Gap>,
                ghost before: Streams, ghost holeFree: bool, ghost start: nat)
    returns (after: nat, pending: seq<Event>, gap: Option<Gap>)
    requires AllKeyed(store.streams) && Grows(before, store.streams) && Stored(held, session) && target == High(before, Some(session))
    requires (holeFree ==> AllHoleFree(store.streams)) && PagesStand(before, store.streams, holeFree, session, start, from, held, first)
    modifies store
    ensures AllKeyed(store.streams) && Stored(pending, session)
    ensures PagesStand(before, store.streams, holeFree, session, start, after, pending, gap)
    ensures holeFree ==> gap.Some? || after >= target
  {
    hide *;
    after, pending, gap := from, held, first;
    while gap.None? && after < target
      invariant AllKeyed(store.streams) && Grows(before, store.streams) && Stored(pending, session)
      invariant holeFree ==> AllHoleFree(store.streams)
      invariant PagesStand(before, store.streams, holeFree, session, start, after, pending, gap)
      decreases gap.None?, if after < target then target - after else 0
    {
      ghost var read := store.streams;
      store.Interfere();
      GrowsTransitive(before, read, store.streams);
      PagesWait(before, read, store.streams, holeFree, session, start, after, pending, gap);
      var batch := store.LoadAfter(Some(session), after, PAGE);
      PagesMove(before, store.streams, holeFree, session, start, after, pending);
      if batch.events == [] { return; }
      gap := batch.gap;
      ghost var cursor := after;
      after, pending := Absorb(after, pending, batch, session, store.streams);
      Ahead(batch, cursor, after);
    }
  }

  /** What has been read so far, if the store has no holes. */
  ghost predicate PagesStand(before: Streams, now: Streams, holeFree: bool, session: SessionId, from: nat, after: nat,
                             pending: seq<Event>, gap: Option<Gap>)
  {
    holeFree ==>
      AllHoleFree(before) && AllHoleFree(now) && Grows(before, now) && gap.None? && FramesAreRun(now, session, from, after, EventFrames(pending))
  }

  lemma PagesBegin(before: Streams, holeFree: bool, session: SessionId, from: nat, after: nat, pending: seq<Event>)
    requires AllKeyed(before) && Grows(before, before) && (holeFree ==> AllHoleFree(before))
    requires var b := Loaded(before, Some(session), from, PAGE);
      pending == [] + b.events && after == if b.events == [] then from else Max(from, b.events[|b.events| - 1].sequence)
    ensures var b := Loaded(before, Some(session), from, PAGE);
      b.highWatermark == High(before, Some(session)) && PagesStand(before, before, holeFree, session, from, after, pending, b.gap)
  {
    PageBounds(before, session, from);
    hide Loaded, Grows, AllKeyed;
    if holeFree {
      assert EventFrames([]) == [];
      FrontierStart(before, session, from);
      AbsorbedPage(before, before, session, from, from, [], after, pending);
    }
  }

  lemma PagesWait(before: Streams, read: Streams, now: Streams, holeFree: bool, session: SessionId, from: nat, after: nat,
                  pending: seq<Event>, gap: Option<Gap>)
    requires PagesStand(before, read, holeFree, session, from, after, pending, gap)
    requires Grows(read, now) && Grows(before, now) && (holeFree ==> AllHoleFree(now))
    ensures PagesStand(before, now, holeFree, session, from, after, pending, gap)
  {
    hide Grows, AllHoleFree, FramesAreRun;
    if holeFree { RunStaysBelow(read, now, session, from, after, EventFrames(pending)); }
  }

  /** Below the target the next page brings it on; on a hole-free store it is not empty. */
  lemma PagesMove(before: Streams, now: Streams, holeFree: bool, session: SessionId, from: nat, after: nat, pending: seq<Event>)
    requires AllKeyed(now) && PagesStand(before, now, holeFree, session, from, after, pending, None) && after < High(before, Some(session))
    ensures var b := Loaded(now, Some(session), after, PAGE);
      var reached := if b.events == [] then after else Max(after, b.events[|b.events| - 1].sequence);
      && PageAhead(b, after) && (holeFree ==> b.events != [])
      && (b.events != [] ==> PagesStand(before, now, holeFree, session, from, reached, pending + b.events, b.gap))
  {
    PageBounds(now, session, after);
    hide Loaded, Grows, AllKeyed, PageAhead, AllHoleFree, FramesAreRun;
    if holeFree {
      var b := Loaded(now, Some(session), after, PAGE);
      var reached := if b.events == [] then after else Max(after, b.events[|b.events| - 1].sequence);
      AbsorbedPage(before, now, session, from, after, pending, reached, pending + b.events);
    }
  }

  lemma PagesEnd(before: Streams, now: Streams, holeFree: bool, session: SessionId, from: nat, after: nat, pending: seq<Event>, gap: Option<Gap>)
    requires PagesStand(before, now, holeFree, session, from, after, pending, gap)
    requires holeFree ==> gap.Some? || after >= High(before, Some(session))
    ensures holeFree ==> gap.None? && CaughtUp(before, now, session, from, from + |pending|, EventFrames(pending))
  {
    hide FramesAreRun, CaughtUp, AllHoleFree, Grows;
    if holeFree { InProcessCaughtUp(before, now, session, from, after, pending); }
  }

  /** The `for` over a batch. */
  method Absorb(after: nat, pending: seq<Event>, batch: EventBatch, session: SessionId, ghost streams: Streams)
    returns (reached: nat, queued: seq<Event>)
    requires AllKeyed(streams) && batch == Loaded(streams, Some(session), after, PAGE)
    requires Stored(pending, session)
    ensures queued == pending + batch.events
    ensures reached == if batch.events == [] then after else Max(after, batch.events[|batch.events| - 1].sequence)
    ensures Stored(queued, session)
  {
    hide AllKeyed, Loaded;
    PageAscends(streams, Some(session), after, PAGE);
    reached, queued := after, pending;
    for i := 0 to |batch.events|
      invariant queued == pending + batch.events[..i]
      invariant reached == if i == 0 then after else Max(after, batch.events[i - 1].sequence)
    {
      reached := Max(reached, batch.events[i].sequence);
      queued := queued + [batch.events[i]];
    }
  }

  lemma Ahead(batch: EventBatch, last: nat, reached: nat)
    requires PageAhead(batch, last) && batch.events != []
    requires reached == Max(last, batch.events[|batch.events| - 1].sequence)
    ensures batch.gap.None? ==> reached > last
  {}

  lemma RunStaysBelow(read: Streams, after: Streams, session: SessionId, from: nat, last: nat, frames: seq<ServerFrame>)
    requires AllHoleFree(read) && AllHoleFree(after) && Grows(read, after)
    requires FramesAreRun(read, session, from, last, frames)
    ensures FramesAreRun(after, session, from, last, frames)
  {
    RunGrows(read, after, Some(session), from, if last > from then last else 0);
  }

  /** A page absorbed below the target continues the run. */
  lemma AbsorbedPage(before: Streams, read: Streams, session: SessionId, from: nat, last: nat, pending: seq<Event>, reached: nat, queued: seq<Event>)
    requires AllHoleFree(before) && AllHoleFree(read) && Grows(before, read)
    requires last == from || last < High(before, Some(session))
    requires FramesAreRun(read, session, from, last, EventFrames(pending))
    requires var b := Loaded(read, Some(session), last, PAGE);
      queued == pending + b.events && reached == if b.events == [] then last else Max(last, b.events[|b.events| - 1].sequence)
    ensures FramesAreRun(read, session, from, reached, EventFrames(queued))
    ensures Loaded(read, Some(session), last, PAGE).gap.None?
    ensures last < High(before, Some(session)) ==> Loaded(read, Some(session), last, PAGE).events != []
    ensures reached >= last
  {
    hide Loaded, FramesAreRun;
    var target := High(before, Some(session));
    HighGrows(before, read, Some(session));
    FrontierStep(read, session, from, last, target, EventFrames(pending));
    EventFramesAppend(pending, Loaded(read, Some(session), last, PAGE).events);
    PageIsRun(read, Some(session), last, PAGE);
    PageBounds(read, session, last);
  }

  lemma InProcessCaughtUp(before: Streams, read: Streams, session: SessionId, from: nat, last: nat, pending: seq<Event>)
    requires AllHoleFree(read) && FramesAreRun(read, session, from, last, EventFrames(pending))
    requires last >= High(before, Some(session))
    ensures CaughtUp(before, read, session, from, from + |pending|, EventFrames(pending))
  {}
}
