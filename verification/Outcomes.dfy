/** What a task's final status says about its command, and what the supervisor's memory holds for its workers, over
    every run of the task supervisor. */
module Outcomes {
  import opened Common
  import opened Tasks
  import opened Lifecycle

  // ---- Completed and Failed ----

  ghost predicate Reported(d: Database, id: TaskId, status: TaskStatus) { id in d.history && status in d.history[id] }

  /** Completed was only ever written for a command that succeeded, Failed only where none did. */
  ghost predicate ReportSound(d: Database, id: TaskId) {
    && (Reported(d, id, Completed) ==> id in d.succeeded)
    && (Reported(d, id, TaskStatus.Failed) ==> id !in d.succeeded)
    && (id in d.succeeded ==> Executions(d, id) > 0)
  }

  /** On the way to Completed, or to Failed. */
  predicate Claims(place: Place, success: bool) {
    match place
    case Loading(move) => move == if success then ToCompleted else ToFailed
    case Saving(move, _, _) => move == if success then ToCompleted else ToFailed
    case Responded(ok) => ok == success
    case _ => false
  }

  /** A worker has reported nothing before its end, and knows what it claims. */
  ghost predicate PlaceHonest(d: Database, id: TaskId, place: Place) {
    && (!place.CleaningUp? ==> !Reported(d, id, Completed) && !Reported(d, id, TaskStatus.Failed))
    && (BeforeExecution(place) || place.InCommand? || Claims(place, false) ==> id !in d.succeeded)
    && (Claims(place, true) ==> id in d.succeeded)
    && (place.InCommand? ==> Executions(d, id) > 0)
  }

  ghost predicate Honest(s: State) {
    && (forall id :: ReportSound(s.db, id))
    && (forall id | id in s.workers :: PlaceHonest(s.db, id, s.workers[id].place))
  }

  /** What a worker's step writes into the past of its own task, and that it leaves the others' alone. */
  ghost predicate OwnPast(d: Database, d': Database, id: TaskId) {
    forall other | other != id ::
      && (other in d'.history <==> other in d.history) && (other in d.history ==> d'.history[other] == d.history[other])
      && Executions(d', other) == Executions(d, other) && (other in d'.succeeded <==> other in d.succeeded)
  }

  lemma OthersHonest(s: State, s': State, id: TaskId)
    requires Honest(s) && OneWorker(s, s', id) && OwnPast(s.db, s'.db, id)
    requires ReportSound(s'.db, id) && (id in s'.workers ==> PlaceHonest(s'.db, id, s'.workers[id].place))
    ensures Honest(s')
  {
    forall other ensures ReportSound(s'.db, other) { assert ReportSound(s.db, other); }
  }

  lemma SavedPast(d: Database, draft: TaskSummary)
    requires Sound(d) && Draft(d.tasks, draft.id, draft)
    ensures var d' := AfterSave(d, draft);
      && OwnPast(d, d', draft.id) && d'.succeeded == d.succeeded && d'.executions == d.executions
      && (forall status | status != draft.status :: Reported(d', draft.id, status) <==> Reported(d, draft.id, status))
      && (Reported(d', draft.id, draft.status) ==> Reported(d, draft.id, draft.status) || Saved(d.tasks, draft).Ok?)
  {
    WrittenSaves(d, draft);
    hide Sound, Written, Saved, Draft;
    if Written(d, draft).Some? { WrittenKeeps(d, draft); }
  }

  /** From the one place the worker may go to the other without having learned or done anything. */
  predicate GoesOn(place: Place, next: Place) {
    && !place.CleaningUp? && !next.InCommand?
    && (BeforeExecution(next) ==> BeforeExecution(place))
    && (Claims(next, true) ==> Claims(place, true))
    && (Claims(next, false) ==> Claims(place, false) || BeforeExecution(place))
  }

  lemma GoesOnHonest(d: Database, id: TaskId, place: Place, next: Place)
    requires PlaceHonest(d, id, place) && GoesOn(place, next)
    ensures PlaceHonest(d, id, next)
  {
    hide Reported;
  }

  predicate Plain(place: Place) { !place.Reserved? && !place.Saving? && !place.Executing? && !place.InCommand? && !place.CleaningUp? }

  /** A step that leaves the past alone. */
  lemma WorkerGoesOn(s: State, id: TaskId, ok: bool, now: nat)
    requires WorkEnabled(s, id) && Plain(s.workers[id].place)
    ensures var s' := Worked(s, id, ok, now); id in s'.workers ==> GoesOn(s.workers[id].place, s'.workers[id].place)
  {
    var w := s.workers[id];
    match w.place {
      case Loading(move) => LoadGoesOn(s, id, move, now);
      case Filing => FilingGoesOn(s, id);
      case Decided(resolution) => assert GoesOn(w.place, AfterDecision(s.db, id, resolution));
      case Responded(success) => assert GoesOn(w.place, AfterResponse(s.db, id in s.signalled, id, success));
      case _ => EasyGoesOn(s, id, ok, now);
    }
    hide GoesOn, LoadStep, FilingStep, AfterSpawn, AfterGate, AfterDecision, AfterResponse, TokenStep, WaiterStep, SelectStep;
  }

  lemma LoadGoesOn(s: State, id: TaskId, move: Move, now: nat)
    requires id in s.workers
    ensures GoesOn(Loading(move), LoadStep(s, id, move, now).workers[id].place)
  {
    MoveGoesOn(move);
    hide Drafted, GoesOn, AfterRefusal;
  }

  lemma MoveGoesOn(move: Move)
    ensures GoesOn(Loading(move), AfterRefusal(move))
    ensures forall draft, seen :: GoesOn(Loading(move), Saving(move, draft, seen))
  {}

  lemma FilingGoesOn(s: State, id: TaskId)
    requires id in s.workers
    ensures GoesOn(Filing, FilingStep(s, id).workers[id].place)
  {
    hide Filed;
  }

  lemma EasyGoesOn(s: State, id: TaskId, ok: bool, now: nat)
    requires WorkEnabled(s, id)
    requires var place := s.workers[id].place;
      place.Stored? || place.Spawned? || place.Gated? || place.Registering? || place.AwaitingDecision? || place.Refused?
    ensures var s' := Worked(s, id, ok, now); id in s'.workers ==> GoesOn(s.workers[id].place, s'.workers[id].place)
  {}

  /** Then the histories and counts are as before. */
  lemma PastUntouched(s: State, id: TaskId, ok: bool, now: nat)
    requires WorkEnabled(s, id) && (Plain(s.workers[id].place) || s.workers[id].place.CleaningUp?)
    ensures var d, d' := s.db, Worked(s, id, ok, now).db; d'.history == d.history && d'.executions == d.executions && d'.succeeded == d.succeeded
  {
    hide At, LoadStep, Released, TokenStep, WaiterStep, SelectStep, FilingStep, AfterSpawn, AfterGate, AfterDecision, AfterResponse;
  }

  lemma StoreHonest(s: State, id: TaskId)
    requires Inv(s) && Honest(s) && id in s.workers && s.workers[id].place.Reserved?
    ensures Honest(StoreStep(s, id))
  {
    hide Inv, Saved;
    var s' := StoreStep(s, id);
    assert ReportSound(s.db, id) && PlaceHonest(s.db, id, s.workers[id].place);
    OthersHonest(s, s', id);
  }

  lemma SaveHonest(s: State, id: TaskId, move: Move, draft: TaskSummary, ok: bool)
    requires Inv(s) && Honest(s) && id in s.workers && s.workers[id].place.Saving?
    requires s.workers[id].place.move == move && s.workers[id].place.draft == draft
    ensures Honest(SaveStep(s, id, move, draft, ok))
  {
    var w, s' := s.workers[id], SaveStep(s, id, move, draft, ok);
    WorkerParts(s, id);
    SavingIs(s.db, id, w.gate, w.place);
    SavedPast(s.db, draft);
    SavePlace(s, id, move, draft, ok);
    assert ReportSound(s.db, id) && PlaceHonest(s.db, id, w.place);
    hide Inv, Sound, Fits, Draft, Saved, SaveStep, AfterSave, Reported, OwnPast, OneWorker, Honest;
    SaveClaims(s.db, s'.db, id, move, draft, w.place.seen, ok, Saved(s.db.tasks, draft).Ok?);
    OthersHonest(s, s', id);
  }

  lemma SaveClaims(d: Database, d': Database, id: TaskId, move: Move, draft: TaskSummary, seen: TaskStatus, ok: bool, saved: bool)
    requires ReportSound(d, id) && PlaceHonest(d, id, Saving(move, draft, seen)) && draft.status == Target(move)
    requires d'.succeeded == d.succeeded && d'.executions == d.executions
    requires forall status | status != draft.status :: Reported(d', id, status) <==> Reported(d, id, status)
    requires Reported(d', id, draft.status) ==> Reported(d, id, draft.status) || saved
    ensures ReportSound(d', id) && PlaceHonest(d', id, if saved then AfterMove(move, ok) else AfterRefusal(move))
  {
    hide Reported;
  }

  lemma WorkHonest(s: State, id: TaskId, ok: bool, now: nat)
    requires Inv(s) && Honest(s) && WorkEnabled(s, id)
    ensures Honest(Worked(s, id, ok, now))
  {
    var w, s' := s.workers[id], Worked(s, id, ok, now);
    WorkWorkers(s, id, ok, now);
    assert ReportSound(s.db, id) && PlaceHonest(s.db, id, w.place);
    hide Inv, Honest, ReportSound, PlaceHonest, StoreStep, SaveStep, ExecuteStep, ReturnStep, OneWorker, OwnPast;
    match w.place {
      case Reserved => StoreHonest(s, id);
      case Saving(move, draft, _) => SaveHonest(s, id, move, draft, ok);
      case Executing => ExecuteHonest(s, id);
      case InCommand => ReturnHonest(s, id, ok);
      case CleaningUp => PlainHonest(s, id, ok, now);
      case _ => PlainHonest(s, id, ok, now);
    }
  }

  lemma ExecuteHonest(s: State, id: TaskId)
    requires Honest(s) && id in s.workers && s.workers[id].place.Executing?
    ensures Honest(ExecuteStep(s, id))
  {
    var s' := ExecuteStep(s, id);
    assert ReportSound(s.db, id) && PlaceHonest(s.db, id, s.workers[id].place);
    assert forall status :: Reported(s'.db, id, status) <==> Reported(s.db, id, status);
    hide Reported;
    OthersHonest(s, s', id);
  }

  lemma ReturnHonest(s: State, id: TaskId, ok: bool)
    requires Honest(s) && id in s.workers && s.workers[id].place.InCommand?
    ensures Honest(ReturnStep(s, id, ok))
  {
    var s' := ReturnStep(s, id, ok);
    assert ReportSound(s.db, id) && PlaceHonest(s.db, id, s.workers[id].place);
    assert forall status :: Reported(s'.db, id, status) <==> Reported(s.db, id, status);
    hide Reported;
    OthersHonest(s, s', id);
  }

  lemma PlainHonest(s: State, id: TaskId, ok: bool, now: nat)
    requires Honest(s) && WorkEnabled(s, id) && (Plain(s.workers[id].place) || s.workers[id].place.CleaningUp?)
    ensures Honest(Worked(s, id, ok, now))
  {
    var w, s' := s.workers[id], Worked(s, id, ok, now);
    PastUntouched(s, id, ok, now);
    WorkWorkers(s, id, ok, now);
    SameDatabase(s.db, s'.db, id);
    if !w.place.CleaningUp? { WorkerGoesOn(s, id, ok, now); } else { assert id !in s'.workers; }
    hide Worked, Reported, OneWorker, OwnPast, GoesOn;
    assert ReportSound(s.db, id) && PlaceHonest(s.db, id, w.place);
    if id in s'.workers { GoesOnHonest(s.db, id, w.place, s'.workers[id].place); }
    OthersHonest(s, s', id);
  }

  lemma SameDatabase(d: Database, d': Database, id: TaskId)
    requires d'.history == d.history && d'.executions == d.executions && d'.succeeded == d.succeeded
    ensures OwnPast(d, d', id)
    ensures forall place :: PlaceHonest(d, id, place) ==> PlaceHonest(d', id, place)
    ensures ReportSound(d, id) ==> ReportSound(d', id)
  {}

  /** No worker moved, and no outcome was written. */
  lemma SameOutcomes(s: State, s': State)
    requires Honest(s) && s'.workers == s.workers
    requires s'.db.executions == s.db.executions && s'.db.succeeded == s.db.succeeded
    requires forall id, status | status in {Completed, TaskStatus.Failed} :: Reported(s'.db, id, status) <==> Reported(s.db, id, status)
    ensures Honest(s')
  {
    hide Reported;
    forall id ensures ReportSound(s'.db, id) { assert ReportSound(s.db, id); }
  }

  lemma CancelHonest(s: State, call: nat, now: nat)
    requires Inv(s) && Honest(s) && call in s.cancellers
    ensures Honest(CancelStep(s, call, now))
  {
    var c, s' := s.cancellers[call], CancelStep(s, call, now);
    InvParts(s);
    assert CancellerSound(s.db, c);
    CancelPast(s, call, now);
    hide Inv, Sound, CancelStep, AfterSave, Draft, Honest;
    if c.place.Writing? { SavedPast(s.db, c.place.draft); }
    SameOutcomes(s, s');
  }

  lemma CancelPast(s: State, call: nat, now: nat)
    requires call in s.cancellers
    ensures var d, s', place := s.db, CancelStep(s, call, now), s.cancellers[call].place;
      && s'.workers == s.workers && (place.Writing? ==> s'.db == AfterSave(d, place.draft))
      && (!place.Writing? ==> s'.db.history == d.history && s'.db.executions == d.executions && s'.db.succeeded == d.succeeded)
  {
    hide Written, Drafted, Resolved, PendingFor;
  }

  lemma StartHonest(s: State, task: TaskId, session: Option<SessionId>, operation: nat, gate: Gate)
    requires Inv(s) && Honest(s) && Enabled(s, Start(task, session, operation, gate))
    ensures Honest(StartStep(s, task, session, operation, gate))
  {
    InvParts(s);
    SoundParts(s.db);
    hide Inv, Sound, SoundTasks, ApprovalsSound, Chronicle;
    assert ReportSound(s.db, task);
    OthersHonest(s, StartStep(s, task, session, operation, gate), task);
  }

  lemma RestartHonest(s: State, now: nat)
    requires Inv(s) && Honest(s)
    ensures Honest(Booted(Recovered(s.db, now)))
  {
    InvParts(s);
    SoundParts(s.db);
    hide Inv, Sound, Honest;
    forall id ensures ReportSound(Recovered(s.db, now), id) {
      assert ReportSound(s.db, id) by { assert Honest(s); HonestAt(s, id); }
      hide ReportSound;
      RecoveredReport(s.db, now, id);
    }
    BootedHonest(Recovered(s.db, now));
  }

  lemma HonestAt(s: State, id: TaskId)
    requires Honest(s)
    ensures ReportSound(s.db, id)
  {}

  lemma RecoveredReport(d: Database, now: nat, id: TaskId)
    requires HistoriesSound(d) && ReportSound(d, id)
    ensures ReportSound(Recovered(d, now), id)
  {
    if id in d.history { RecoveredHistory(d, now, id); }
  }

  lemma BootedHonest(d: Database)
    requires forall id :: ReportSound(d, id)
    ensures Honest(Booted(d))
  {}

  lemma StepHonest(s: State, step: Step)
    requires Inv(s) && Honest(s) && Enabled(s, step)
    ensures Honest(Apply(s, step))
  {
    hide Inv, Honest, Worked, CancelStep, StartStep, Recovered, Booted;
    match step {
      case Work(id, ok, now) => WorkHonest(s, id, ok, now);
      case Cancel(call, now) => CancelHonest(s, call, now);
      case Start(task, session, operation, gate) => StartHonest(s, task, session, operation, gate);
      case Restart(now) => RestartHonest(s, now);
      case _ => OtherHonest(s, step);
    }
  }

  lemma OtherHonest(s: State, step: Step)
    requires Honest(s) && Enabled(s, step) && !step.Work? && !step.Cancel? && !step.Start? && !step.Restart?
    ensures Honest(Apply(s, step))
  {
    assert var s' := Apply(s, step);
      s'.workers == s.workers && s'.db.history == s.db.history && s'.db.executions == s.db.executions && s'.db.succeeded == s.db.succeeded;
    hide Apply, Honest;
    SameOutcomes(s, Apply(s, step));
  }

  lemma {:induction false} RunHonest(s: State, steps: seq<Step>)
    requires Inv(s) && Honest(s) && Runs(s, steps)
    ensures Honest(After(s, steps))
    decreases |steps|
  {
    hide Inv, Honest, Apply, Enabled;
    if steps != [] {
      StepKeeps(s, steps[0]);
      StepHonest(s, steps[0]);
      RunHonest(Apply(s, steps[0]), steps[1..]);
    }
  }

  /** Over every run: a task that was ever Completed had its command started once, with its gate's approval, and the
      command succeeded; a task that was ever Failed had none that did. So none was both. */
  lemma FinalStatusIsTrue(steps: seq<Step>, id: TaskId)
    requires Runs(Empty(), steps) && id in After(Empty(), steps).db.tasks
    ensures var d := After(Empty(), steps).db;
      && id in d.history
      && (Completed in d.history[id] ==>
            && id in d.succeeded && Executions(d, id) == 1
            && id in d.gates && !d.gates[id].Deny? && (d.gates[id].Require? ==> ApprovedBy(d, d.gates[id].request)))
      && (TaskStatus.Failed in d.history[id] ==> id !in d.succeeded)
  {
    var d := After(Empty(), steps).db;
    hide Runs, After, Inv, Honest, ApprovedBy;
    EmptySound();
    assert Honest(Empty()) by { assert Empty().workers == map[]; }
    RunHonest(Empty(), steps);
    TaskHistory(steps, id);
    ExecutedOnceAndApproved(steps, id);
    assert ReportSound(d, id) by { assert Honest(After(Empty(), steps)); }
  }

  // ---- the sessions in memory ----

  /** Every worker with a session has its slot. */
  ghost predicate SlotsSound(s: State) {
    forall id | id in s.workers && s.workers[id].session.Some? ::
      s.workers[id].session.value in s.sessions && s.sessions[s.workers[id].session.value] == id
  }

  /** The slots are left alone, or the worker gives its own up as it goes. */
  ghost predicate OwnSlot(s: State, t: State, id: TaskId)
    requires id in s.workers
  {
    var session := s.workers[id].session;
    if id in t.workers then t.workers[id].session == session && t.sessions == s.sessions
    else t.sessions == s.sessions || (session.Some? && t.sessions == s.sessions - {session.value})
  }

  lemma WorkSlots(s: State, id: TaskId, ok: bool, now: nat)
    requires WorkEnabled(s, id)
    ensures OwnSlot(s, Worked(s, id, ok, now), id)
  {
    match s.workers[id].place {
      case Loading(move) => LoadSlots(s, id, move, now);
      case Saving(move, draft, _) => SaveSlots(s, id, move, draft, ok);
      case Filing => FilingSlots(s, id);
      case _ =>
    }
    hide LoadStep, SaveStep, FilingStep, Saved, AfterSpawn, AfterGate, AfterDecision, AfterResponse, Executions;
  }

  lemma LoadSlots(s: State, id: TaskId, move: Move, now: nat)
    requires id in s.workers
    ensures OwnSlot(s, LoadStep(s, id, move, now), id)
  {
    hide Drafted, AfterRefusal;
  }

  lemma SaveSlots(s: State, id: TaskId, move: Move, draft: TaskSummary, ok: bool)
    requires id in s.workers
    ensures OwnSlot(s, SaveStep(s, id, move, draft, ok), id)
  {
    hide Written, AfterMove, AfterRefusal;
  }

  lemma FilingSlots(s: State, id: TaskId)
    requires id in s.workers
    ensures OwnSlot(s, FilingStep(s, id), id)
  {
    hide Filed;
  }

  lemma StepSlots(s: State, step: Step)
    requires SlotsSound(s) && Enabled(s, step)
    ensures SlotsSound(Apply(s, step))
  {
    hide Worked, Drafted, Written, Resolved, PendingFor, Recovered;
    if step.Work? {
      WorkWorkers(s, step.task, step.ok, step.now);
      WorkSlots(s, step.task, step.ok, step.now);
    }
  }

  lemma {:induction false} RunSlots(s: State, steps: seq<Step>)
    requires SlotsSound(s) && Runs(s, steps)
    ensures SlotsSound(After(s, steps))
    decreases |steps|
  {
    hide SlotsSound, Apply, Enabled;
    if steps != [] {
      StepSlots(s, steps[0]);
      RunSlots(Apply(s, steps[0]), steps[1..]);
    }
  }

  /** Over every run: no two workers are at the same session at a time. */
  lemma OneWorkerPerSession(steps: seq<Step>, id: TaskId, other: TaskId)
    requires Runs(Empty(), steps) && id != other
    requires id in After(Empty(), steps).workers && other in After(Empty(), steps).workers
    ensures var workers := After(Empty(), steps).workers;
      workers[id].session.Some? ==> workers[id].session != workers[other].session
  {
    assert SlotsSound(Empty());
    hide Runs, After;
    RunSlots(Empty(), steps);
  }
}
