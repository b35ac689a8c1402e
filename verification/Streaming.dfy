/** A streamed agent message on its way to the client: cut into chunks (src/agent/loop_runner.rs), coalesced
    into fewer events (src/application/service.rs), appended again by the client's timeline. */
module Streaming {
  import opened Common
  import opened Timeline

  const CHUNK_SIZE: nat := 128
  const MIN_PERSISTED_BYTES: nat := 256

  /** The length of a character in UTF-8. */
  function Width(c: char): (w: nat)
    ensures 1 <= w <= 4
    ensures (w == 1 <==> c < 0x80 as char) && (w <= 2 <==> c < 0x800 as char) && (w == 4 <==> c as int >= 0x1_0000)
  {
    if c as int < 0x80 then 1 else if c as int < 0x800 then 2 else if c as int < 0x1_0000 then 3 else 4
  }

  function ByteLength(text: string): nat {
    if text == "" then 0 else ByteLength(text[..|text| - 1]) + Width(text[|text| - 1])
  }

  datatype Progress =
    | AgentTextDelta(id: nat, text: string)
    | AgentMessageStarted(id: nat)
    | AgentMessageCompleted(id: nat, text: string)
    | SessionCreated
    | OtherProgress(payload: AppEvent)

  datatype Pending = Pending(id: nat, text: string)

  // ---- chunks ----

  function Joined(chunks: seq<string>): string {
    if chunks == [] then "" else Joined(chunks[..|chunks| - 1]) + chunks[|chunks| - 1]
  }

  /** The chunks are full except the last, which is not empty. */
  ghost predicate Even(chunks: seq<string>, size: nat) {
    && (forall i | 0 <= i < |chunks| - 1 :: |chunks[i]| == Max(size, 1))
    && (chunks != [] ==> 0 < |chunks[|chunks| - 1]| <= Max(size, 1))
  }

  lemma JoinedSnoc(chunks: seq<string>, last: string)
    ensures Joined(chunks + [last]) == Joined(chunks) + last
  {
    assert (chunks + [last])[..|chunks|] == chunks;
  }

  method TextChunks(text: string, size: nat) returns (chunks: seq<string>)
    ensures Joined(chunks) == text && Even(chunks, size)
  {
    chunks := [];
    var current, count := "", 0;
    for i := 0 to |text|
      invariant Joined(chunks) + current == text[..i]
      invariant forall j | 0 <= j < |chunks| :: |chunks[j]| == Max(size, 1)
      invariant |current| == count < Max(size, 1)
    {
      ghost var taken := current;
      current := current + [text[i]];
      count := count + 1;
      assert Joined(chunks) + current == text[..i + 1] by {
        assert text[..i + 1] == text[..i] + [text[i]];
        assert Joined(chunks) + (taken + [text[i]]) == (Joined(chunks) + taken) + [text[i]];
      }
      if count >= size {
        JoinedSnoc(chunks, current);
        chunks := chunks + [current];
        current, count := "", 0;
      }
    }
    assert text[..|text|] == text;
    if current != "" {
      JoinedSnoc(chunks, current);
      chunks := chunks + [current];
    } else {
      assert Joined(chunks) + "" == Joined(chunks);
    }
  }

  // ---- coalescing ----

  function PayloadOf(progress: Progress): Option<AppEvent> {
    match progress
    case AgentTextDelta(id, text) => Some(AgentDelta(id, text))
    case AgentMessageStarted(id) => Some(ItemStarted(AgentMessage(id, "", false)))
    case AgentMessageCompleted(id, text) => Some(ItemCompleted(AgentMessage(id, text, true)))
    case SessionCreated => None
    case OtherProgress(payload) => Some(payload)
  }

  function Payloads(progress: Progress): seq<AppEvent> {
    match PayloadOf(progress)
    case Some(payload) => [payload]
    case None => []
  }

  function PayloadsOf(progress: seq<Progress>): seq<AppEvent> {
    if progress == [] then [] else PayloadsOf(progress[..|progress| - 1]) + Payloads(progress[|progress| - 1])
  }

  function Held(pending: Option<Pending>): seq<AppEvent> {
    match pending
    case Some(p) => [AgentDelta(p.id, p.text)]
    case None => []
  }

  predicate Small(pending: Option<Pending>) { pending.Some? ==> ByteLength(pending.value.text) < MIN_PERSISTED_BYTES }

  /** What one call emits, and what it keeps back. */
  function Coalesced(pending: Option<Pending>, progress: Progress): (seq<AppEvent>, Option<Pending>) {
    match progress
    case AgentTextDelta(id, text) =>
      var flushed := if pending.Some? && pending.value.id != id then Held(pending) else [];
      var slot := Pending(id, if pending.Some? && pending.value.id == id then pending.value.text + text else text);
      if ByteLength(slot.text) >= MIN_PERSISTED_BYTES then (flushed + Held(Some(slot)), None) else (flushed, Some(slot))
    case _ => (Held(pending) + Payloads(progress), None)
  }

  function Stream(pending: Option<Pending>, progress: seq<Progress>): (seq<AppEvent>, Option<Pending>) {
    if progress == [] then ([], pending)
    else
      var (emitted, slot) := Stream(pending, progress[..|progress| - 1]);
      var (more, next) := Coalesced(slot, progress[|progress| - 1]);
      (emitted + more, next)
  }

  class Coalescer {
    var pending: Option<Pending>

    constructor ()
      ensures pending == None
    {
      pending := None;
    }

    /** Between calls less than 256 bytes are kept back. */
    method CoalescedProgressPayloads(progress: Progress) returns (payloads: seq<AppEvent>)
      requires Small(pending)
      modifies this
      ensures Small(pending) && (payloads, pending) == Coalesced(old(pending), progress)
    {
      payloads := [];
      match progress {
        case AgentTextDelta(id, text) =>
          if pending.Some? && pending.value.id != id {
            payloads := payloads + [AgentDelta(pending.value.id, pending.value.text)];
            pending := None;
          }
          var current := if pending.Some? then pending.value else Pending(id, "");
          assert "" + text == text && [] + Held(old(pending)) == Held(old(pending));
          current := current.(text := current.text + text);
          pending := Some(current);
          if ByteLength(current.text) >= MIN_PERSISTED_BYTES {
            pending := None;
            payloads := payloads + [AgentDelta(current.id, current.text)];
          }
          assert payloads == Coalesced(old(pending), progress).0;
          return;
        case _ =>
      }
      if pending.Some? {
        payloads := payloads + [AgentDelta(pending.value.id, pending.value.text)];
        pending := None;
      }
      match PayloadOf(progress) {
        case Some(payload) => payloads := payloads + [payload];
        case None =>
      }
      assert payloads == Held(old(pending)) + Payloads(progress);
    }
  }

  // ---- what coalescing conserves ----

  predicate Fuses(a: AppEvent, b: AppEvent) { a.AgentDelta? && b.AgentDelta? && a.id == b.id }

  /** The stream with adjacent deltas of one message put together. */
  function Fused(events: seq<AppEvent>): seq<AppEvent> {
    if events == [] then [] else FusedStep(Fused(events[..|events| - 1]), events[|events| - 1])
  }

  function FusedStep(fused: seq<AppEvent>, event: AppEvent): seq<AppEvent> {
    if fused != [] && Fuses(fused[|fused| - 1], event)
    then fused[..|fused| - 1] + [AgentDelta(event.id, fused[|fused| - 1].text + event.text)]
    else fused + [event]
  }

  lemma FusedSnoc(events: seq<AppEvent>, event: AppEvent)
    ensures Fused(events + [event]) == FusedStep(Fused(events), event)
  {
    assert (events + [event])[..|events|] == events;
  }

  /** Streams that fuse alike stay alike, whatever comes behind. */
  lemma {:induction false} FusedBehind(a: seq<AppEvent>, b: seq<AppEvent>, more: seq<AppEvent>)
    requires Fused(a) == Fused(b)
    ensures Fused(a + more) == Fused(b + more)
  {
    hide Fused;
    if more == [] {
      assert a + more == a && b + more == b;
    } else {
      var front, last := more[..|more| - 1], more[|more| - 1];
      FusedBehind(a, b, front);
      assert a + more == (a + front) + [last] && b + more == (b + front) + [last];
      FusedSnoc(a + front, last);
      FusedSnoc(b + front, last);
    }
  }

  /** Two deltas in a row fuse to their concatenation. */
  lemma FusedPair(events: seq<AppEvent>, id: nat, x: string, y: string)
    ensures Fused(events + [AgentDelta(id, x)] + [AgentDelta(id, y)]) == Fused(events + [AgentDelta(id, x + y)])
  {
    hide Fused, FusedStep;
    FusedSnoc(events, AgentDelta(id, x));
    FusedSnoc(events + [AgentDelta(id, x)], AgentDelta(id, y));
    FusedSnoc(events, AgentDelta(id, x + y));
    StepPair(Fused(events), id, x, y);
  }

  lemma StepPair(fused: seq<AppEvent>, id: nat, x: string, y: string)
    ensures FusedStep(FusedStep(fused, AgentDelta(id, x)), AgentDelta(id, y)) == FusedStep(fused, AgentDelta(id, x + y))
  {
    if fused != [] && Fuses(fused[|fused| - 1], AgentDelta(id, x)) {
      var front, text := fused[..|fused| - 1], fused[|fused| - 1].text;
      assert (front + [AgentDelta(id, text + x)])[..|front|] == front;
      assert (text + x) + y == text + (x + y);
    } else {
      assert (fused + [AgentDelta(id, x)])[..|fused|] == fused;
    }
  }

  /** One call: emitted and kept back together are, fused, what was kept back before and the new event. */
  lemma CoalescedConserves(before: seq<AppEvent>, pending: Option<Pending>, progress: Progress)
    ensures var (emitted, next) := Coalesced(pending, progress);
      Fused(before + (emitted + Held(next))) == Fused(before + (Held(pending) + Payloads(progress)))
  {
    hide Fused;
    var (emitted, next) := Coalesced(pending, progress);
    if progress.AgentTextDelta? && pending.Some? && pending.value.id == progress.id {
      var id, x, y := progress.id, pending.value.text, progress.text;
      FusedPair(before, id, x, y);
      assert emitted + Held(next) == [AgentDelta(id, x + y)];
      assert Held(pending) + Payloads(progress) == [AgentDelta(id, x), AgentDelta(id, y)];
      assert before + [AgentDelta(id, x), AgentDelta(id, y)] == before + [AgentDelta(id, x)] + [AgentDelta(id, y)];
    } else {
      assert emitted + Held(next) == Held(pending) + Payloads(progress);
    }
  }

  /** Text is kept back as long as it is short and nothing else comes: a delta goes out when it has reached 256 bytes,
      or in front of the next event that it must not fall behind. */
  lemma KeptBack(pending: Option<Pending>, id: nat, text: string)
    ensures var (emitted, next) := Coalesced(pending, AgentTextDelta(id, text));
      var flushed := if pending.Some? && pending.value.id != id then [AgentDelta(pending.value.id, pending.value.text)] else [];
      var joined := if pending.Some? && pending.value.id == id then pending.value.text + text else text;
      if ByteLength(joined) < 256 then emitted == flushed && next == Some(Pending(id, joined))
      else emitted == flushed + [AgentDelta(id, joined)] && next == None
  {}

  /** Over any sequence of calls no text is lost, added, reordered or moved past another event; and what is kept
      back stays small. */
  lemma {:induction false} StreamConserves(pending: Option<Pending>, progress: seq<Progress>)
    ensures var (emitted, slot) := Stream(pending, progress);
      Fused(emitted + Held(slot)) == Fused(Held(pending) + PayloadsOf(progress))
    ensures Small(pending) ==> Small(Stream(pending, progress).1)
  {
    hide Stream, PayloadsOf, Fused, Coalesced, Held, Payloads;
    if progress == [] {
      StreamNothing(pending);
    } else {
      var front, last := progress[..|progress| - 1], progress[|progress| - 1];
      assert progress == front + [last];
      StreamConserves(pending, front);
      StreamSnoc(pending, front, last);
      PayloadsSnoc(front, last);
      var (emitted, slot) := Stream(pending, front);
      ConservesStep(emitted, slot, last, Held(pending) + PayloadsOf(front));
      CoalescedSmall(slot, last);
      assert Held(pending) + PayloadsOf(progress) == (Held(pending) + PayloadsOf(front)) + Payloads(last);
    }
  }

  lemma StreamSnoc(pending: Option<Pending>, progress: seq<Progress>, next: Progress)
    ensures var (emitted, slot) := Stream(pending, progress);
      var (more, after) := Coalesced(slot, next);
      Stream(pending, progress + [next]) == (emitted + more, after)
  {
    assert (progress + [next])[..|progress|] == progress;
  }

  lemma StreamNothing(pending: Option<Pending>)
    ensures Stream(pending, []) == ([], pending) && [] + Held(pending) == Held(pending) + PayloadsOf([])
  {}

  lemma PayloadsSnoc(progress: seq<Progress>, last: Progress)
    ensures PayloadsOf(progress + [last]) == PayloadsOf(progress) + Payloads(last)
  {
    assert (progress + [last])[..|progress|] == progress;
  }

  lemma CoalescedSmall(pending: Option<Pending>, progress: Progress)
    ensures Small(Coalesced(pending, progress).1)
  {}

  lemma ConservesStep(emitted: seq<AppEvent>, slot: Option<Pending>, progress: Progress, input: seq<AppEvent>)
    requires Fused(emitted + Held(slot)) == Fused(input)
    ensures var (more, next) := Coalesced(slot, progress);
      Fused((emitted + more) + Held(next)) == Fused(input + Payloads(progress))
  {
    hide Fused, Coalesced, Held, Payloads;
    var (more, next) := Coalesced(slot, progress);
    CoalescedConserves(emitted, slot, progress);
    FusedBehind(emitted + Held(slot), input, Payloads(progress));
    assert emitted + (Held(slot) + Payloads(progress)) == (emitted + Held(slot)) + Payloads(progress);
    assert (emitted + more) + Held(next) == emitted + (more + Held(next));
  }

  // ---- nothing else is held back, dropped or changed ----

  /** The events that are no streamed text. */
  function Announcements(events: seq<AppEvent>): seq<AppEvent> {
    if events == [] then []
    else Announcements(events[..|events| - 1]) + if events[|events| - 1].AgentDelta? then [] else [events[|events| - 1]]
  }

  /** The streamed text of one message. */
  function Spoken(events: seq<AppEvent>, id: nat): string {
    if events == [] then ""
    else
      var last := events[|events| - 1];
      Spoken(events[..|events| - 1], id) + if last.AgentDelta? && last.id == id then last.text else ""
  }

  /** What the progress announces: a message begun or completed, and everything else that has an event of its own. */
  function Announced(progress: seq<Progress>): seq<AppEvent> {
    if progress == [] then []
    else
      Announced(progress[..|progress| - 1]) +
      match progress[|progress| - 1] {
        case AgentTextDelta(_, _) => []
        case AgentMessageStarted(id) => [ItemStarted(AgentMessage(id, "", false))]
        case AgentMessageCompleted(id, text) => [ItemCompleted(AgentMessage(id, text, true))]
        case SessionCreated => []
        case OtherProgress(payload) => if payload.AgentDelta? then [] else [payload]
      }
  }

  /** The text that the progress reports for one message. */
  function Said(progress: seq<Progress>, id: nat): string {
    if progress == [] then ""
    else
      Said(progress[..|progress| - 1], id) +
      match progress[|progress| - 1] {
        case AgentTextDelta(i, text) => if i == id then text else ""
        case OtherProgress(AgentDelta(i, text)) => if i == id then text else ""
        case _ => ""
      }
  }

  lemma {:induction false} AnnouncementsAppend(a: seq<AppEvent>, b: seq<AppEvent>)
    ensures Announcements(a + b) == Announcements(a) + Announcements(b)
  {
    if b == [] {
      assert a + b == a;
    } else {
      assert (a + b)[..|a + b| - 1] == a + b[..|b| - 1];
      AnnouncementsAppend(a, b[..|b| - 1]);
    }
  }

  lemma {:induction false} SpokenAppend(a: seq<AppEvent>, b: seq<AppEvent>, id: nat)
    ensures Spoken(a + b, id) == Spoken(a, id) + Spoken(b, id)
  {
    if b == [] {
      assert a + b == a;
    } else {
      var front, last := b[..|b| - 1], b[|b| - 1];
      assert b == front + [last] && a + b == (a + front) + [last];
      SpokenAppend(a, front, id);
      SpokenSnoc(a + front, last, id);
      SpokenSnoc(front, last, id);
      hide Spoken;
      assert (Spoken(a, id) + Spoken(front, id)) + Spoken([last], id) == Spoken(a, id) + (Spoken(front, id) + Spoken([last], id));
    }
  }

  lemma SpokenSnoc(front: seq<AppEvent>, last: AppEvent, id: nat)
    ensures Spoken(front + [last], id) == Spoken(front, id) + Spoken([last], id)
  {
    assert (front + [last])[..|front|] == front && [last][..0] == [] && Spoken([], id) == "";
    assert "" + Spoken([last], id) == Spoken([last], id);
  }

  lemma AloneTold(event: AppEvent, id: nat)
    ensures Announcements([event]) == if event.AgentDelta? then [] else [event]
    ensures Spoken([event], id) == if event.AgentDelta? && event.id == id then event.text else ""
  {
    assert [event][..0] == [];
  }

  lemma HeldTold(pending: Option<Pending>, id: nat)
    ensures Announcements(Held(pending)) == []
    ensures Spoken(Held(pending), id) == if pending.Some? && pending.value.id == id then pending.value.text else ""
  {
    if pending.Some? { AloneTold(AgentDelta(pending.value.id, pending.value.text), id); }
  }

  lemma ProgressTold(progress: Progress, id: nat)
    ensures Announcements(Payloads(progress)) == Announced([progress]) && Spoken(Payloads(progress), id) == Said([progress], id)
  {
    assert [progress][..0] == [] && Announced([]) == [] && Said([], id) == "";
    if PayloadOf(progress).Some? { AloneTold(PayloadOf(progress).value, id); }
  }

  lemma CallAnnounces(pending: Option<Pending>, progress: Progress)
    ensures Announcements(Coalesced(pending, progress).0) == Announced([progress])
  {
    var next := Coalesced(pending, progress).1;
    NothingTold(0);
    HeldTold(pending, 0);
    ProgressTold(progress, 0);
    match progress {
      case AgentTextDelta(i, text) =>
        var same := pending.Some? && pending.value.id == i;
        var flushed := if pending.Some? && !same then Held(pending) else [];
        var slot := Some(Pending(i, if same then pending.value.text + text else text));
        HeldTold(slot, 0);
        assert Announced([progress]) == [];
        hide Announcements, Announced;
        AnnouncementsAppend(flushed, Held(slot));
      case _ =>
        hide Announcements, Announced;
        AnnouncementsAppend(Held(pending), Payloads(progress));
    }
  }

  lemma CallSpeaks(pending: Option<Pending>, progress: Progress, id: nat)
    ensures var (emitted, next) := Coalesced(pending, progress);
      Spoken(emitted, id) + Spoken(Held(next), id) == Spoken(Held(pending), id) + Said([progress], id)
  {
    NothingTold(id);
    if progress.AgentTextDelta? {
      DeltaSpeaks(pending, progress.id, progress.text, id);
    } else {
      ProgressTold(progress, id);
      hide Spoken, Said;
      SpokenAppend(Held(pending), Payloads(progress), id);
    }
  }

  lemma DeltaSpeaks(pending: Option<Pending>, i: nat, text: string, id: nat)
    ensures var (emitted, next) := Coalesced(pending, AgentTextDelta(i, text));
      Spoken(emitted, id) + Spoken(Held(next), id) == Spoken(Held(pending), id) + Said([AgentTextDelta(i, text)], id)
  {
    var same := pending.Some? && pending.value.id == i;
    var flushed := if pending.Some? && !same then Held(pending) else [];
    var slot := Some(Pending(i, if same then pending.value.text + text else text));
    var (emitted, next) := Coalesced(pending, AgentTextDelta(i, text));
    assert emitted + Held(next) == flushed + Held(slot);
    ProgressTold(AgentTextDelta(i, text), id);
    AloneTold(AgentDelta(i, text), id);
    NothingTold(id);
    HeldTold(pending, id);
    HeldTold(slot, id);
    hide Spoken, Said, Coalesced, Held;
    SpokenAppend(emitted, Held(next), id);
    SpokenAppend(flushed, Held(slot), id);
  }

  /** Over any sequence of calls: every announcement goes out, in order and as it is, and nothing else does. */
  lemma {:induction false} StreamAnnounces(pending: Option<Pending>, progress: seq<Progress>)
    ensures Announcements(Stream(pending, progress).0) == Announced(progress)
  {
    if progress == [] {
      NothingTold(0);
    } else {
      hide Coalesced, Announcements, Announced, Stream;
      var front, last := progress[..|progress| - 1], progress[|progress| - 1];
      StreamAnnounces(pending, front);
      assert progress == front + [last];
      StreamSnoc(pending, front, last);
      var (emitted, slot) := Stream(pending, front);
      CallAnnounces(slot, last);
      AnnouncementsAppend(emitted, Coalesced(slot, last).0);
      AnnouncedSnoc(front, last);
    }
  }

  /** And of each message exactly the reported text has gone out, up to what is still kept back. */
  lemma {:induction false} StreamSpeaks(pending: Option<Pending>, progress: seq<Progress>, id: nat)
    ensures var (emitted, slot) := Stream(pending, progress);
      Spoken(emitted, id) + Spoken(Held(slot), id) == Spoken(Held(pending), id) + Said(progress, id)
  {
    hide Coalesced, Held, Spoken, Said, Stream;
    if progress == [] {
      SpeaksNothing(pending, id);
    } else {
      var front, last := progress[..|progress| - 1], progress[|progress| - 1];
      StreamSpeaks(pending, front, id);
      assert progress == front + [last];
      StreamSnoc(pending, front, last);
      SaidSnoc(front, last, id);
      SpeaksNext(Stream(pending, front).0, Stream(pending, front).1, last, Spoken(Held(pending), id), Said(front, id), id);
    }
  }

  lemma SpeaksNothing(pending: Option<Pending>, id: nat)
    ensures Stream(pending, []) == ([], pending)
    ensures Spoken([], id) + Spoken(Held(pending), id) == Spoken(Held(pending), id) + Said([], id)
  {
    hide Held;
    var held := Spoken(Held(pending), id);
    assert "" + held == held + "";
  }

  lemma SpeaksNext(emitted: seq<AppEvent>, slot: Option<Pending>, last: Progress, had: string, said: string, id: nat)
    requires Spoken(emitted, id) + Spoken(Held(slot), id) == had + said
    ensures var (more, next) := Coalesced(slot, last);
      Spoken(emitted + more, id) + Spoken(Held(next), id) == had + (said + Said([last], id))
  {
    hide Coalesced, Held, Spoken, Said;
    var (more, next) := Coalesced(slot, last);
    CallSpeaks(slot, last, id);
    SpokenAppend(emitted, more, id);
    Rearrange(Spoken(emitted, id), Spoken(more, id), Spoken(Held(next), id), Spoken(Held(slot), id), Said([last], id), had, said);
  }

  lemma Rearrange(a: string, b: string, c: string, d: string, e: string, f: string, g: string)
    requires b + c == d + e && a + d == f + g
    ensures (a + b) + c == f + (g + e)
  {
    assert (a + b) + c == a + (b + c);
    assert a + (d + e) == (a + d) + e;
    assert (f + g) + e == f + (g + e);
  }

  lemma NothingTold(id: nat)
    ensures Announcements([]) == [] && Spoken([], id) == ""
  {}

  lemma AnnouncedSnoc(front: seq<Progress>, last: Progress)
    ensures Announced(front + [last]) == Announced(front) + Announced([last])
  {
    assert (front + [last])[..|front|] == front && [last][..0] == [];
  }

  lemma SaidSnoc(front: seq<Progress>, last: Progress, id: nat)
    ensures Said(front + [last], id) == Said(front, id) + Said([last], id)
  {
    assert (front + [last])[..|front|] == front && [last][..0] == [];
  }

  // ---- what the client makes of it ----

  /** An item's story depends on the fused stream only. */
  lemma {:induction false} StoryFused(item: Option<Item>, id: nat, events: seq<AppEvent>)
    ensures Story(item, id, Fused(events)) == Story(item, id, events)
  {
    if events != [] {
      var front, last := events[..|events| - 1], events[|events| - 1];
      var fused := Fused(front);
      StoryFused(item, id, front);
      if fused != [] && Fuses(fused[|fused| - 1], last) {
        var rest, text := fused[..|fused| - 1], fused[|fused| - 1].text;
        StorySnoc(item, id, rest, AgentDelta(last.id, text + last.text));
        GrownTwice(Story(item, id, rest), text, last.text);
      } else {
        StorySnoc(item, id, fused, last);
      }
    }
  }

  lemma StorySnoc(item: Option<Item>, id: nat, events: seq<AppEvent>, event: AppEvent)
    ensures Story(item, id, events + [event]) == Seen(Story(item, id, events), id, event)
  {
    assert (events + [event])[..|events|] == events;
  }

  lemma GrownTwice(item: Option<Item>, x: string, y: string)
    ensures Grown(Grown(item, x), y) == Grown(item, x + y)
  {
    if IsMessage(item) { assert (item.value.text + x) + y == item.value.text + (x + y); }
  }

  function Deltas(id: nat, chunks: seq<string>): (r: seq<Progress>)
    ensures |r| == |chunks|
  {
    seq(|chunks|, i requires 0 <= i < |chunks| => AgentTextDelta(id, chunks[i]))
  }

  /** The progress an agent message reports, up to its completion. */
  function MessageProgress(id: nat, chunks: seq<string>): seq<Progress> {
    [AgentMessageStarted(id)] + Deltas(id, chunks)
  }

  lemma {:induction false} MessageStory(item: Option<Item>, id: nat, held: seq<AppEvent>, chunks: seq<string>)
    ensures Story(item, id, held + PayloadsOf(MessageProgress(id, chunks))) == Some(AgentMessage(id, Joined(chunks), false))
  {
    var progress := MessageProgress(id, chunks);
    var last := progress[|progress| - 1];
    var front := progress[..|progress| - 1];
    assert held + PayloadsOf(progress) == (held + PayloadsOf(front)) + [PayloadOf(last).value];
    StorySnoc(item, id, held + PayloadsOf(front), PayloadOf(last).value);
    if chunks == [] {
      assert last == AgentMessageStarted(id);
    } else {
      var rest := chunks[..|chunks| - 1];
      assert front == MessageProgress(id, rest);
      MessageStory(item, id, held, rest);
    }
  }

  /** Whatever was pending before and however the chunks were merged: the deltas that the client receives before
      a message completes rebuild exactly the text with which it then completes. */
  lemma DeltasRebuildMessage(items: seq<Item>, pending: Option<Pending>, id: nat, content: string, chunks: seq<string>)
    requires DistinctIds(items) && Joined(chunks) == content
    ensures var (emitted, slot) := Stream(pending, MessageProgress(id, chunks) + [AgentMessageCompleted(id, content)]);
      && slot == None && emitted != []
      && emitted[|emitted| - 1] == ItemCompleted(AgentMessage(id, content, true))
      && Lookup(Replayed(items, emitted[..|emitted| - 1]), id) == Some(AgentMessage(id, content, false))
      && Lookup(Replayed(items, emitted), id) == Some(AgentMessage(id, content, true))
  {
    hide Stream, Lookup, Replayed, Story, PayloadsOf, Fused, MessageProgress, DistinctIds;
    var progress := MessageProgress(id, chunks);
    var (emitted, slot) := Stream(pending, progress);
    var front, last := emitted + Held(slot), ItemCompleted(AgentMessage(id, content, true));
    var all := Stream(pending, progress + [AgentMessageCompleted(id, content)]).0;
    StreamSnoc(pending, progress, AgentMessageCompleted(id, content));
    assert all == front + [last] by { assert emitted + (Held(slot) + [last]) == front + [last]; }
    assert all[..|all| - 1] == front;
    StreamConserves(pending, progress);
    FrontRebuilds(items, front, Held(pending), id, content, chunks);
    ReplayedShows(items, all, id);
    StorySnoc(Lookup(items, id), id, front, last);
  }

  /** Whatever fuses to the message's progress rebuilds its text. */
  lemma FrontRebuilds(items: seq<Item>, front: seq<AppEvent>, held: seq<AppEvent>, id: nat, content: string, chunks: seq<string>)
    requires DistinctIds(items) && Joined(chunks) == content
    requires Fused(front) == Fused(held + PayloadsOf(MessageProgress(id, chunks)))
    ensures Lookup(Replayed(items, front), id) == Some(AgentMessage(id, content, false))
  {
    hide Lookup, Replayed, Story, PayloadsOf, Fused, MessageProgress, DistinctIds;
    StoryFused(Lookup(items, id), id, front);
    StoryFused(Lookup(items, id), id, held + PayloadsOf(MessageProgress(id, chunks)));
    MessageStory(Lookup(items, id), id, held, chunks);
    ReplayedShows(items, front, id);
  }

  ghost predicate Rebuilds(emitted: seq<AppEvent>, id: nat, content: string) {
    emitted != [] && forall items | DistinctIds(items) ::
      && Lookup(Replayed(items, emitted[..|emitted| - 1]), id) == Some(AgentMessage(id, content, false))
      && Lookup(Replayed(items, emitted), id) == Some(AgentMessage(id, content, true))
  }

  lemma MessageRebuilds(pending: Option<Pending>, id: nat, content: string, chunks: seq<string>)
    requires Joined(chunks) == content
    ensures var (emitted, slot) := Stream(pending, MessageProgress(id, chunks) + [AgentMessageCompleted(id, content)]);
      slot == None && Rebuilds(emitted, id, content)
  {
    hide Stream, Lookup, Replayed, MessageProgress, DistinctIds;
    var emitted := Stream(pending, MessageProgress(id, chunks) + [AgentMessageCompleted(id, content)]).0;
    assert DistinctIds([]) by { NoIds(); }
    DeltasRebuildMessage([], pending, id, content, chunks);
    forall items | DistinctIds(items)
      ensures Lookup(Replayed(items, emitted[..|emitted| - 1]), id) == Some(AgentMessage(id, content, false))
      ensures Lookup(Replayed(items, emitted), id) == Some(AgentMessage(id, content, true))
    {
      DeltasRebuildMessage(items, pending, id, content, chunks);
    }
  }

  lemma NoIds()
    ensures DistinctIds([])
  {}

  /** The block of the agent loop that reports a final message, through the coalescer of its task. */
  method EmitMessage(coalescer: Coalescer, id: nat, content: string) returns (emitted: seq<AppEvent>)
    requires Small(coalescer.pending)
    modifies coalescer
    ensures coalescer.pending == None && Rebuilds(emitted, id, content)
  {
    hide Stream, Coalesced, Small, Rebuilds, Joined, Even;
    ghost var pending := coalescer.pending;
    var chunks := TextChunks(content, CHUNK_SIZE);
    ghost var progress := MessageProgress(id, chunks);
    emitted := coalescer.CoalescedProgressPayloads(AgentMessageStarted(id));
    StreamFirst(pending, AgentMessageStarted(id));
    assert progress[..1] == [AgentMessageStarted(id)];
    for i := 0 to |chunks|
      invariant Small(coalescer.pending) && (emitted, coalescer.pending) == Stream(pending, progress[..i + 1])
    {
      var more := coalescer.CoalescedProgressPayloads(AgentTextDelta(id, chunks[i]));
      emitted := emitted + more;
      StreamSnoc(pending, progress[..i + 1], AgentTextDelta(id, chunks[i]));
      assert progress[..i + 2] == progress[..i + 1] + [AgentTextDelta(id, chunks[i])];
    }
    assert progress[..|progress|] == progress;
    var last := coalescer.CoalescedProgressPayloads(AgentMessageCompleted(id, content));
    emitted := emitted + last;
    StreamSnoc(pending, progress, AgentMessageCompleted(id, content));
    MessageRebuilds(pending, id, content, chunks);
  }

  lemma StreamFirst(pending: Option<Pending>, first: Progress)
    ensures Stream(pending, [first]) == Coalesced(pending, first)
  {
    assert [first][..0] == [] && [] + Coalesced(pending, first).0 == Coalesced(pending, first).0;
  }
}
