/** What becomes of a task that nothing disturbs: from any state that a run may be in, with any other tasks under
    way, where the supervisor takes a task according to its gate, its command and the decision about it. */
module Courses {
  import opened Common
  import opened Tasks
  import opened Lifecycle

  /** These steps lead from the one state to the other. */
  ghost predicate Comes(s: State, steps: seq<Step>, t: State) { Runs(s, steps) && After(s, steps) == t }

  /** Only the task's own worker, row, history and command are different. */
  ghost predicate Alone(s: State, t: State, id: TaskId) {
    && t == s.(workers := t.workers, db := s.db.(tasks := t.db.tasks, history := t.db.history, executions := t.db.executions,
                                                 succeeded := t.db.succeeded))
    && (id in s.workers && id in t.workers ==> t.workers[id] == s.workers[id].(place := t.workers[id].place))
  }

  ghost predicate Stands(s: State, id: TaskId, place: Place, status: TaskStatus) {
    Inv(s) && id in s.workers && s.workers[id].place == place && id in s.db.tasks && StatusOf(s.db, id) == status
  }

  /** How often the command was started, and whether it succeeded. */
  function Account(d: Database, id: TaskId): (nat, bool) { (Executions(d, id), id in d.succeeded) }

  lemma {:induction false} Onward(s: State, a: seq<Step>, t: State, b: seq<Step>, u: State)
    requires Comes(s, a, t) && Comes(t, b, u)
    ensures Comes(s, a + b, u)
    decreases |a|
  {
    if a == [] {
      assert a + b == b;
    } else {
      assert (a + b)[1..] == a[1..] + b;
      Onward(Apply(s, a[0]), a[1..], t, b, u);
    }
  }

  lemma One(s: State, step: Step)
    requires Enabled(s, step)
    ensures Comes(s, [step], Apply(s, step))
  {
    assert [step][1..] == [];
  }

  // ---- stretches of the way ----

  /** A worker's step to a place of which the step functions say what it is. */
  lemma Steps(s: State, id: TaskId, ok: bool, now: nat)
    requires Inv(s) && WorkEnabled(s, id)
    ensures Inv(Worked(s, id, ok, now)) && Comes(s, [Work(id, ok, now)], Worked(s, id, ok, now))
  {
    One(s, Work(id, ok, now));
    StepKeeps(s, Work(id, ok, now));
    hide Inv, Worked;
  }

  lemma Loads(s: State, id: TaskId, move: Move, status: TaskStatus, now: nat) returns (t: State, draft: TaskSummary)
    requires Stands(s, id, Loading(move), status) && status.CanTransitionTo(Target(move))
    ensures Comes(s, [Work(id, true, now)], t) && Alone(s, t, id) && t.db == s.db
    ensures Stands(t, id, Saving(move, draft, status), status)
    ensures Draft(t.db.tasks, id, draft) && draft.id == id && draft.status == Target(move)
  {
    WorkerParts(s, id);
    SoundParts(s.db);
    LoadDrafts(s.db.tasks, id, Target(move), now);
    draft := Drafted(s.db.tasks, id, Target(move), now).value;
    t := At(s, id, Saving(move, draft, status));
    hide Inv, Fits, Drafted, Draft, Sound, SoundTasks, Comes;
    Steps(s, id, true, now);
  }

  lemma Saves(s: State, id: TaskId, move: Move, draft: TaskSummary, status: TaskStatus, ok: bool, now: nat) returns (t: State)
    requires Stands(s, id, Saving(move, draft, status), status) && status.CanTransitionTo(Target(move))
    requires Draft(s.db.tasks, id, draft) && draft.id == id && draft.status == Target(move)
    ensures Comes(s, [Work(id, ok, now)], t) && Alone(s, t, id)
    ensures Stands(t, id, AfterMove(move, ok), Target(move)) && Account(t.db, id) == Account(s.db, id)
  {
    WorkerParts(s, id);
    StoredRow(s.db, id, draft, status);
    hide Inv, Fits, Written, Saved, Draft, Sound, SoundTasks, AfterMove, Target, ApprovalsSound, Worked, WorkEnabled, Comes;
    t := At(s.(db := Written(s.db, draft).value), id, AfterMove(move, ok));
    SaveIs(s, id, move, draft);
    Steps(s, id, ok, now);
  }

  /** The row of an active task takes any draft. */
  lemma StoredRow(d: Database, id: TaskId, draft: TaskSummary, status: TaskStatus)
    requires Sound(d) && Draft(d.tasks, id, draft) && draft.id == id && StatusOf(d, id) == status && id in d.tasks
    requires exists next :: status.CanTransitionTo(next)
    ensures Written(d, draft).Some?
    ensures var d' := Written(d, draft).value;
      d' == d.(tasks := d'.tasks, history := d'.history) && id in d'.tasks && StatusOf(d', id) == draft.status
  {
    SoundParts(d);
    ActiveIsNotTerminal(status);
    SaveGoesThrough(d, id, draft);
    WrittenSaves(d, draft);
    hide Sound, SoundTasks, Written, Saved, Draft, Kept;
    WrittenKeeps(d, draft);
    DraftRow(d.tasks, draft);
  }

  /** A transition that the state machine has goes through. */
  lemma Transits(s: State, id: TaskId, move: Move, status: TaskStatus, ok: bool, now: nat) returns (t: State)
    requires Stands(s, id, Loading(move), status) && status.CanTransitionTo(Target(move))
    ensures Comes(s, [Work(id, true, now), Work(id, ok, now)], t) && Alone(s, t, id)
    ensures Stands(t, id, AfterMove(move, ok), Target(move)) && Account(t.db, id) == Account(s.db, id)
  {
    hide Stands, AfterMove, Draft, Runs, After;
    var middle, draft := Loads(s, id, move, status, now);
    StandsBy(middle, id);
    t := Saves(middle, id, move, draft, status, ok, now);
    Onward(s, [Work(id, true, now)], middle, [Work(id, ok, now)], t);
    assert [Work(id, true, now)] + [Work(id, ok, now)] == [Work(id, true, now), Work(id, ok, now)];
    StandsBy(s, id);
    StandsBy(t, id);
  }

  lemma StandsBy(s: State, id: TaskId)
    ensures forall place, status :: Stands(s, id, place, status) ==> id in s.workers && s.workers[id].place == place
  {}

  lemma SaveIs(s: State, id: TaskId, move: Move, draft: TaskSummary)
    requires id in s.workers && Written(s.db, draft).Some? && s.workers[id].place.Saving?
    requires s.workers[id].place.move == move && s.workers[id].place.draft == draft
    ensures WorkEnabled(s, id)
    ensures forall ok, now :: Worked(s, id, ok, now) == At(s.(db := Written(s.db, draft).value), id, AfterMove(move, ok))
  {
    hide Written;
  }

  /** Nothing but steps of the one worker. */
  ghost predicate Own(steps: seq<Step>, id: TaskId) { forall k | 0 <= k < |steps| :: steps[k].Work? && steps[k].task == id }

  /** The worker's own steps lead from the one state to the other, and disturb nothing. */
  ghost predicate Walks(s: State, steps: seq<Step>, t: State, id: TaskId) { Own(steps, id) && Comes(s, steps, t) && Alone(s, t, id) }

  lemma WalksOn(s: State, a: seq<Step>, t: State, b: seq<Step>, u: State, id: TaskId)
    requires Walks(s, a, t, id) && Walks(t, b, u, id) && id in s.workers && id in t.workers && id in u.workers
    ensures Walks(s, a + b, u, id)
  {
    hide Comes;
    Onward(s, a, t, b, u);
  }

  lemma AtAlone(s: State, id: TaskId, next: Place)
    requires id in s.workers
    ensures var t := At(s, id, next); Alone(s, t, id) && t.db == s.db && id in t.workers && t.workers[id].place == next
  {}

  /** A step that only moves the worker. */
  lemma Moves(s: State, id: TaskId, ok: bool, now: nat, place: Place, status: TaskStatus, next: Place) returns (t: State)
    requires Stands(s, id, place, status) && WorkEnabled(s, id) && Worked(s, id, ok, now) == At(s, id, next)
    ensures Walks(s, [Work(id, ok, now)], t, id) && Stands(t, id, next, status) && Account(t.db, id) == Account(s.db, id)
  {
    hide Inv, Worked, WorkEnabled, Comes, Alone, At;
    t := At(s, id, next);
    AtAlone(s, id, next);
    Steps(s, id, ok, now);
  }

  /** Two steps, for a transition whose event may get lost. */
  lemma Tries(s: State, id: TaskId, move: Move, status: TaskStatus, ok: bool, now: nat) returns (t: State, steps: seq<Step>)
    requires Stands(s, id, Loading(move), status) && status.CanTransitionTo(Target(move))
    ensures Walks(s, steps, t, id) && Stands(t, id, AfterMove(move, ok), Target(move)) && Account(t.db, id) == Account(s.db, id)
  {
    hide Stands, Comes, AfterMove;
    t := Transits(s, id, move, status, ok, now);
    steps := [Work(id, true, now), Work(id, ok, now)];
  }

  /** Two steps, for a transition. */
  lemma Passes(s: State, id: TaskId, move: Move, status: TaskStatus, now: nat) returns (t: State, steps: seq<Step>)
    requires Stands(s, id, Loading(move), status) && status.CanTransitionTo(Target(move))
    ensures Walks(s, steps, t, id) && Stands(t, id, AfterMove(move, true), Target(move)) && Account(t.db, id) == Account(s.db, id)
  {
    hide Stands, Walks, AfterMove;
    t, steps := Tries(s, id, move, status, true, now);
  }

  /** A spawned worker comes to its gate with its task Running. */
  lemma Begins(s: State, id: TaskId, now: nat) returns (t: State, steps: seq<Step>)
    requires Stands(s, id, Spawned, Queued)
    ensures Walks(s, steps, t, id) && Stands(t, id, Gated, Running) && Account(t.db, id) == Account(s.db, id)
  {
    var loading := Moves(s, id, true, now, Spawned, Queued, Loading(ToRunning));
    var rest;
    hide Inv, Walks, Worked;
    t, rest := Passes(loading, id, ToRunning, Queued, now);
    steps := [Work(id, true, now)] + rest;
    WalksOn(s, [Work(id, true, now)], loading, rest, t, id);
  }

  /** The worker is gone, its session is free again, and the task is left in this status. */
  ghost predicate Finished(s: State, t: State, id: TaskId, status: TaskStatus) {
    && Inv(t) && id in s.workers && id !in t.workers && id !in t.registered
    && (s.workers[id].session.Some? ==> s.workers[id].session.value !in t.sessions)
    && id in t.db.tasks && StatusOf(t.db, id) == status
  }

  lemma Cleans(s: State, id: TaskId, status: TaskStatus, now: nat) returns (t: State)
    requires Stands(s, id, CleaningUp, status)
    ensures Comes(s, [Work(id, true, now)], t) && Finished(s, t, id, status) && t.db == s.db
  {
    t := Released(s, id);
    hide Inv, Comes;
    Steps(s, id, true, now);
  }

  lemma AloneFinishes(s: State, t: State, id: TaskId)
    requires Alone(s, t, id) && id in s.workers && id in t.workers
    ensures t.db.approvals == s.db.approvals
    ensures forall u, status :: Finished(t, u, id, status) ==> Finished(s, u, id, status)
  {
    hide Inv;
  }

  /** The last transition, and cleaning up. */
  lemma Closes(s: State, id: TaskId, move: Move, status: TaskStatus, now: nat) returns (t: State, steps: seq<Step>)
    requires Stands(s, id, Loading(move), status) && status.CanTransitionTo(Target(move)) && move in {ToCompleted, ToFailed, ToCancelled}
    ensures Own(steps, id) && Comes(s, steps, t) && Finished(s, t, id, Target(move)) && Account(t.db, id) == Account(s.db, id)
    ensures t.db.approvals == s.db.approvals
  {
    hide Inv, Comes, Alone, Finished;
    var done, most := Passes(s, id, move, status, now);
    assert AfterMove(move, true) == CleaningUp;
    AloneFinishes(s, done, id);
    t := Cleans(done, id, Target(move), now);
    steps := most + [Work(id, true, now)];
    Onward(s, most, done, [Work(id, true, now)], t);
  }

  // ---- the command ----

  lemma Starts(s: State, id: TaskId, status: TaskStatus, now: nat) returns (t: State)
    requires Stands(s, id, Executing, status)
    ensures Walks(s, [Work(id, true, now)], t, id) && Stands(t, id, InCommand, status)
    ensures Account(t.db, id) == (Account(s.db, id).0 + 1, Account(s.db, id).1)
  {
    hide Inv, Comes;
    t := ExecuteStep(s, id);
    Steps(s, id, true, now);
  }

  lemma Returns(s: State, id: TaskId, ok: bool, status: TaskStatus, now: nat) returns (t: State)
    requires Stands(s, id, InCommand, status)
    ensures Walks(s, [Work(id, ok, now)], t, id) && Stands(t, id, Responded(ok), status)
    ensures Account(t.db, id) == (Account(s.db, id).0, Account(s.db, id).1 || ok)
  {
    hide Inv, Comes;
    t := ReturnStep(s, id, ok);
    Steps(s, id, ok, now);
  }

  /** From the response to the end of the worker, with nothing cancelled. */
  lemma Reports(s: State, id: TaskId, success: bool, status: TaskStatus, now: nat) returns (t: State, steps: seq<Step>)
    requires Stands(s, id, Responded(success), status) && status.CanTransitionTo(if success then Completed else TaskStatus.Failed) && id !in s.signalled
    ensures Own(steps, id) && Comes(s, steps, t) && Finished(s, t, id, if success then Completed else TaskStatus.Failed)
    ensures Account(t.db, id) == Account(s.db, id) && t.db.approvals == s.db.approvals
  {
    hide Inv, Comes, Finished;
    var move := if success then ToCompleted else ToFailed;
    var loading := Moves(s, id, true, now, Responded(success), status, Loading(move));
    AloneFinishes(s, loading, id);
    hide Alone;
    var rest;
    t, rest := Closes(loading, id, move, status, now);
    steps := [Work(id, true, now)] + rest;
    Onward(s, [Work(id, true, now)], loading, rest, t);
  }

  /** A cleared worker runs its command once, and its task ends as the command does. */
  lemma Performs(s: State, id: TaskId, ok: bool, now: nat) returns (t: State, steps: seq<Step>)
    requires Stands(s, id, Executing, Running) && id !in s.signalled && Account(s.db, id) == (0, false)
    ensures Own(steps, id) && Comes(s, steps, t) && Finished(s, t, id, if ok then Completed else TaskStatus.Failed)
    ensures Account(t.db, id) == (1, ok) && t.db.approvals == s.db.approvals
  {
    hide Inv, Comes, Finished, Worked;
    var started := Starts(s, id, Running, now);
    var returned := Returns(started, id, ok, Running, now);
    var first, rest := [Work(id, true, now)], [];
    WalksOn(s, first, started, [Work(id, ok, now)], returned, id);
    first := first + [Work(id, ok, now)];
    AloneFinishes(s, returned, id);
    t, rest := Reports(returned, id, ok, Running, now);
    steps := first + rest;
    Onward(s, first, returned, rest, t);
  }

  // ---- the start ----

  /** Another task has the operation, or is active in the session. */
  ghost predicate Taken(d: Database, session: Option<SessionId>, operation: nat) {
    exists other | other in d.tasks ::
      || d.tasks[other].operation == operation
      || (session.Some? && d.tasks[other].session == session && !d.tasks[other].summary.status.IsTerminal())
  }

  lemma Reserves(s: State, task: TaskId, session: Option<SessionId>, operation: nat, gate: Gate) returns (t: State)
    requires Inv(s) && Enabled(s, Start(task, session, operation, gate))
    ensures Comes(s, [Start(task, session, operation, gate)], t) && Inv(t) && task !in s.db.tasks
    ensures t.db == s.db.(gates := s.db.gates[task := gate])
    ensures task in t.workers && t.workers[task] == Worker(session, operation, gate, Reserved)
    ensures session.Some? ==> session.value in t.sessions && t.sessions[session.value] == task
  {
    UnknownTask(s, task);
    hide Inv, Comes;
    t := StartStep(s, task, session, operation, gate);
    One(s, Start(task, session, operation, gate));
    StepKeeps(s, Start(task, session, operation, gate));
  }

  /** A start that finds another task in the way leaves no trace but the gate that was worked out for it; the session
      is free again. */
  lemma StartRefused(s: State, task: TaskId, session: Option<SessionId>, operation: nat, gate: Gate, now: nat) returns (t: State)
    requires Inv(s) && Enabled(s, Start(task, session, operation, gate)) && Taken(s.db, session, operation)
    ensures Comes(s, [Start(task, session, operation, gate), Work(task, true, now)], t)
    ensures Inv(t) && t.db == s.db.(gates := s.db.gates[task := gate])
    ensures task !in t.workers && (session.Some? ==> session.value !in t.sessions)
  {
    hide Inv, Comes, Taken, Saved, Enabled;
    var reserved := Reserves(s, task, session, operation, gate);
    SavesUnlessTaken(reserved, task);
    t := StoreStep(reserved, task);
    Steps(reserved, task, true, now);
    Onward(s, [Start(task, session, operation, gate)], reserved, [Work(task, true, now)], t);
    assert [Start(task, session, operation, gate)] + [Work(task, true, now)] == [Start(task, session, operation, gate), Work(task, true, now)];
    SameTaken(s.db, reserved.db, session, operation);
  }

  /** Any other start is stored as a queued task, with its session reserved and its token at hand. */
  lemma StartCourse(s: State, task: TaskId, session: Option<SessionId>, operation: nat, gate: Gate, now: nat) returns (t: State)
    requires Inv(s) && Enabled(s, Start(task, session, operation, gate)) && !Taken(s.db, session, operation)
    ensures Comes(s, [Start(task, session, operation, gate)] + ([Work(task, true, now)] + [Work(task, true, now)]), t)
    ensures Stands(t, task, Spawned, Queued) && t.workers[task] == Worker(session, operation, gate, Spawned)
    ensures task in t.registered && (session.Some? ==> session.value in t.sessions && t.sessions[session.value] == task)
    ensures t.db.tasks == s.db.tasks[task := TaskRow(session, operation, TaskSummary(task, session, operation, Queued, None, None, true))]
    ensures Account(t.db, task) == Account(s.db, task)
  {
    hide Inv, Comes, Taken, Saved, Enabled;
    var reserved := Reserves(s, task, session, operation, gate);
    SameTaken(s.db, reserved.db, session, operation);
    var stored := StoresTask(reserved, task, now);
    t := TakesToken(stored, task, now);
    Onward(reserved, [Work(task, true, now)], stored, [Work(task, true, now)], t);
    Onward(s, [Start(task, session, operation, gate)], reserved, [Work(task, true, now)] + [Work(task, true, now)], t);
  }

  lemma StoresTask(s: State, task: TaskId, now: nat) returns (t: State)
    requires Inv(s) && task in s.workers && s.workers[task].place.Reserved? && task !in s.db.tasks
    requires !Taken(s.db, s.workers[task].session, s.workers[task].operation)
    ensures Comes(s, [Work(task, true, now)], t) && Stands(t, task, Stored, Queued) && t == s.(db := t.db, workers := t.workers)
    ensures t.workers[task] == s.workers[task].(place := Stored) && t.db == s.db.(tasks := t.db.tasks, history := t.db.history)
    ensures var w := s.workers[task];
      t.db.tasks == s.db.tasks[task := TaskRow(w.session, w.operation, TaskSummary(task, w.session, w.operation, Queued, None, None, true))]
  {
    hide Inv, Comes, Taken, Saved;
    SavesUnlessTaken(s, task);
    t := StoreStep(s, task);
    Steps(s, task, true, now);
  }

  lemma TakesToken(s: State, task: TaskId, now: nat) returns (t: State)
    requires Stands(s, task, Stored, Queued)
    ensures Comes(s, [Work(task, true, now)], t) && Stands(t, task, Spawned, Queued)
    ensures t == s.(registered := s.registered + {task}, workers := t.workers) && t.workers[task] == s.workers[task].(place := Spawned)
  {
    hide Inv, Comes;
    t := TokenStep(s, task, true);
    Steps(s, task, true, now);
  }

  lemma SameTaken(d: Database, d': Database, session: Option<SessionId>, operation: nat)
    requires d'.tasks == d.tasks
    ensures Taken(d', session, operation) <==> Taken(d, session, operation)
  {}

  lemma UnknownTask(s: State, task: TaskId)
    requires Inv(s) && task !in s.db.gates
    ensures task !in s.db.tasks && Sound(s.db)
  {
    InvParts(s);
    SoundParts(s.db);
  }

  lemma SavesUnlessTaken(s: State, task: TaskId)
    requires Inv(s) && task in s.workers && task !in s.db.tasks
    ensures var w := s.workers[task];
      && (Saved(s.db.tasks, NewTask(task, w)).Ok? <==> !Taken(s.db, w.session, w.operation))
      && (!Taken(s.db, w.session, w.operation) ==>
            Saved(s.db.tasks, NewTask(task, w)) == Ok(s.db.tasks[task := TaskRow(w.session, w.operation,
              TaskSummary(task, w.session, w.operation, Queued, None, None, true))]))
  {
    InvParts(s);
    SoundParts(s.db);
    SaveNew(s.db.tasks, NewTask(task, s.workers[task]));
    forall other | other in s.db.tasks { ActiveIsNotTerminal(s.db.tasks[other].summary.status); }
    hide Inv, Sound, SoundTasks;
  }

  // ---- the three gates ----

  /** Nothing to approve: the command runs once, and the task is Completed if it succeeds and Failed if it does not. */
  lemma AllowedCourse(s: State, id: TaskId, ok: bool, now: nat) returns (t: State, steps: seq<Step>)
    requires Stands(s, id, Spawned, Queued) && s.workers[id].gate == Allow && id !in s.signalled && Account(s.db, id) == (0, false)
    ensures Own(steps, id) && Comes(s, steps, t) && Finished(s, t, id, if ok then Completed else TaskStatus.Failed)
    ensures Account(t.db, id) == (1, ok)
  {
    hide Inv, Comes, Finished, Worked;
    var gated, first := Begins(s, id, now);
    var executing := Moves(gated, id, true, now, Gated, Running, Executing) by { assert AfterGate(Allow) == Executing; GateStep(gated, id, now); }
    WalksOn(s, first, gated, [Work(id, true, now)], executing, id);
    first := first + [Work(id, true, now)];
    AloneFinishes(s, executing, id);
    var rest;
    t, rest := Performs(executing, id, ok, now);
    steps := first + rest;
    Onward(s, first, executing, rest, t);
  }

  lemma GateStep(s: State, id: TaskId, now: nat)
    requires id in s.workers && s.workers[id].place == Gated
    ensures WorkEnabled(s, id) && Worked(s, id, true, now) == At(s, id, AfterGate(s.workers[id].gate))
  {}

  /** What the policy forbids fails, and its command is never started. */
  lemma DeniedCourse(s: State, id: TaskId, now: nat) returns (t: State, steps: seq<Step>)
    requires Stands(s, id, Spawned, Queued) && s.workers[id].gate == Deny && id !in s.signalled
    ensures Own(steps, id) && Comes(s, steps, t) && Finished(s, t, id, TaskStatus.Failed) && Account(t.db, id) == Account(s.db, id)
  {
    hide Inv, Comes, Finished, Worked;
    var gated, first := Begins(s, id, now);
    var refused := Moves(gated, id, true, now, Gated, Running, Responded(false)) by { GateStep(gated, id, now); }
    WalksOn(s, first, gated, [Work(id, true, now)], refused, id);
    first := first + [Work(id, true, now)];
    AloneFinishes(s, refused, id);
    var rest;
    t, rest := Reports(refused, id, false, Running, now);
    steps := first + rest;
    Onward(s, first, refused, rest, t);
  }

  /** The task waits for its approval, which is pending, and its worker for the decision. */
  ghost predicate Waiting(s: State, id: TaskId, request: ApprovalRequest) {
    && Stands(s, id, AwaitingDecision, WaitingForApproval) && s.workers[id].gate == Require(request)
    && request.id in s.db.approvals && s.db.approvals[request.id] == Approval(request, Pending, None)
    && id in s.waiters
  }

  /** What needs an approval comes to wait for it, with nothing started. */
  lemma AskingCourse(s: State, id: TaskId, request: ApprovalRequest, now: nat) returns (t: State, steps: seq<Step>)
    requires Stands(s, id, Spawned, Queued) && s.workers[id].gate == Require(request) && request.id !in s.db.approvals
    ensures Own(steps, id) && Comes(s, steps, t) && Waiting(t, id, request) && Account(t.db, id) == Account(s.db, id)
    ensures t.signalled == s.signalled && t.registered == s.registered && t.workers[id].session == s.workers[id].session
  {
    hide Inv, Comes, Worked, AfterMove;
    var filing, first := FilingCourse(s, id, now);
    var filed := Files(filing, id, request, now);
    Onward(s, first, filing, [Work(id, true, now)], filed);
    first := first + [Work(id, true, now)];
    t := Registers(filed, id, request, now);
    Onward(s, first, filed, [Work(id, true, now)], t);
    steps := first + [Work(id, true, now)];
  }

  lemma FilingCourse(s: State, id: TaskId, now: nat) returns (t: State, steps: seq<Step>)
    requires Stands(s, id, Spawned, Queued) && s.workers[id].gate.Require?
    ensures Walks(s, steps, t, id) && Stands(t, id, Filing, WaitingForApproval) && Account(t.db, id) == Account(s.db, id)
  {
    hide Inv, Comes, Worked, AfterMove;
    var gated, first := Begins(s, id, now);
    var loading := Moves(gated, id, true, now, Gated, Running, Loading(ToWaiting)) by { GateStep(gated, id, now); }
    WalksOn(s, first, gated, [Work(id, true, now)], loading, id);
    var rest;
    t, rest := Passes(loading, id, ToWaiting, Running, now);
    MoveIs();
    WalksOn(s, first + [Work(id, true, now)], loading, rest, t, id);
    steps := first + [Work(id, true, now)] + rest;
  }

  lemma MoveIs()
    ensures AfterMove(ToWaiting, true) == Filing && AfterMove(ToResumed, true) == Executing && AfterMove(ToRefused, true) == Refused
  {}

  lemma Files(s: State, id: TaskId, request: ApprovalRequest, now: nat) returns (t: State)
    requires Stands(s, id, Filing, WaitingForApproval) && s.workers[id].gate == Require(request) && request.id !in s.db.approvals
    ensures Comes(s, [Work(id, true, now)], t) && Stands(t, id, Registering, WaitingForApproval)
    ensures t.db == s.db.(approvals := s.db.approvals[request.id := Approval(request, Pending, None)])
    ensures t == s.(db := t.db, workers := t.workers) && t.workers[id] == s.workers[id].(place := Registering)
  {
    hide Inv, Comes;
    t := FilingStep(s, id);
    Steps(s, id, true, now);
  }

  lemma Registers(s: State, id: TaskId, request: ApprovalRequest, now: nat) returns (t: State)
    requires Stands(s, id, Registering, WaitingForApproval)
    ensures Comes(s, [Work(id, true, now)], t) && Stands(t, id, AwaitingDecision, WaitingForApproval) && id in t.waiters
    ensures t == s.(waiters := t.waiters, workers := t.workers) && t.workers[id] == s.workers[id].(place := AwaitingDecision)
  {
    hide Inv, Comes;
    t := WaiterStep(s, id, true);
    Steps(s, id, true, now);
  }

  // ---- the decision ----

  /** A decision is stored, and sent. */
  function Deciding(resolution: Resolution): seq<Step> {
    [Respond(resolution.approval, resolution.choice, resolution.client), Send(resolution)]
  }

  /** The waiting worker has been handed the decision, which is in the store. */
  ghost predicate Handed(s: State, t: State, id: TaskId, request: ApprovalRequest, resolution: Resolution) {
    && Stands(t, id, AwaitingDecision, WaitingForApproval) && t.workers == s.workers && id in t.inbox && t.inbox[id] == resolution
    && t.db == s.db.(approvals := s.db.approvals[request.id := Approval(request, resolution.status, Some(resolution))])
    && t.signalled == s.signalled && t.registered == s.registered && t.sessions == s.sessions
  }

  lemma Decides(s: State, id: TaskId, request: ApprovalRequest, resolution: Resolution) returns (t: State)
    requires Waiting(s, id, request) && resolution.approval == request.id && resolution.choice in request.choices
    requires resolution.status == StatusFor(resolution.choice)
    ensures Comes(s, Deciding(resolution), t) && Handed(s, t, id, request, resolution)
  {
    hide Inv, Comes;
    RequestsOwnTask(s, id);
    var stored := Stores(s, id, request, resolution);
    t := Sends(stored, id, resolution);
    hide Waiting;
    Onward(s, [Respond(request.id, resolution.choice, resolution.client)], stored, [Send(resolution)], t);
    assert [Respond(request.id, resolution.choice, resolution.client)] + [Send(resolution)] == Deciding(resolution);
  }

  lemma Sends(s: State, id: TaskId, resolution: Resolution) returns (t: State)
    requires Inv(s) && resolution in s.sending && resolution.approval in s.db.approvals
    requires s.db.approvals[resolution.approval].request.task == id && id in s.waiters
    ensures Comes(s, [Send(resolution)], t) && Inv(t) && id in t.inbox && t.inbox[id] == resolution
    ensures t == s.(sending := t.sending, waiters := t.waiters, inbox := t.inbox)
  {
    hide Inv, Comes;
    t := SendStep(s, resolution);
    StepKeeps(s, Send(resolution));
    One(s, Send(resolution));
  }

  lemma Stores(s: State, id: TaskId, request: ApprovalRequest, resolution: Resolution) returns (t: State)
    requires Waiting(s, id, request) && resolution.approval == request.id && resolution.choice in request.choices
    requires resolution.status == StatusFor(resolution.choice)
    ensures Comes(s, [Respond(request.id, resolution.choice, resolution.client)], t) && Inv(t)
    ensures t == s.(db := t.db, sending := s.sending + {resolution})
    ensures t.db == s.db.(approvals := s.db.approvals[request.id := Approval(request, resolution.status, Some(resolution))])
  {
    hide Inv;
    var respond := Respond(request.id, resolution.choice, resolution.client);
    t := Apply(s, respond);
    StepKeeps(s, respond);
    One(s, respond);
  }

  lemma Selects(s: State, id: TaskId, now: nat) returns (t: State)
    requires Stands(s, id, AwaitingDecision, WaitingForApproval) && id in s.inbox
    ensures Comes(s, [Work(id, true, now)], t) && Stands(t, id, Decided(s.inbox[id]), WaitingForApproval)
    ensures t == s.(waiters := t.waiters, workers := t.workers) && t.workers[id] == s.workers[id].(place := Decided(s.inbox[id]))
  {
    hide Inv, Comes;
    t := SelectStep(s, id, true);
    Steps(s, id, true, now);
  }

  lemma RequestsOwnTask(s: State, id: TaskId)
    requires Inv(s) && id in s.workers && s.workers[id].gate.Require?
    ensures s.workers[id].gate.request.task == id
  {
    WorkerParts(s, id);
    SoundParts(s.db);
  }

  /** An approving decision: the command runs once, and the task ends as the command does. */
  lemma ApprovedCourse(s: State, id: TaskId, request: ApprovalRequest, choice: ApprovalChoice, client: nat, ok: bool, now: nat)
    returns (t: State, steps: seq<Step>)
    requires Waiting(s, id, request) && id !in s.signalled && Account(s.db, id) == (0, false)
    requires choice in request.choices && choice in {ApproveOnce, ApproveForTask, ApproveEquivalentForSession}
    ensures var resolution := Resolution(request.id, choice, Approved, client);
      && Comes(s, Deciding(resolution) + steps, t) && Own(steps, id)
      && Finished(s, t, id, if ok then Completed else TaskStatus.Failed) && Account(t.db, id) == (1, ok)
      && request.id in t.db.approvals && t.db.approvals[request.id] == Approval(request, Approved, Some(resolution))
  {
    var resolution := Resolution(request.id, choice, Approved, client);
    hide Inv, Comes, Finished, Stands;
    WaitingIs(s, id, request);
    var handed := Decides(s, id, request, resolution);
    HandedIs(s, handed, id, request, resolution);
    hide Waiting, Handed;
    t, steps := ApprovedRest(handed, id, ok, now);
    Onward(s, Deciding(resolution), handed, steps, t);
    SameSlot(s, handed, t, id);
  }

  lemma WaitingIs(s: State, id: TaskId, request: ApprovalRequest)
    requires Waiting(s, id, request)
    ensures id in s.workers
  {}

  lemma HandedIs(s: State, t: State, id: TaskId, request: ApprovalRequest, resolution: Resolution)
    requires Handed(s, t, id, request, resolution) && id in s.workers
    ensures Stands(t, id, AwaitingDecision, WaitingForApproval) && id in t.inbox && t.inbox[id] == resolution
    ensures Account(t.db, id) == Account(s.db, id) && t.signalled == s.signalled && id in t.workers && t.workers[id] == s.workers[id]
    ensures request.id in t.db.approvals && t.db.approvals[request.id] == Approval(request, resolution.status, Some(resolution))
  {
    hide Inv;
  }

  lemma ApprovedRest(s: State, id: TaskId, ok: bool, now: nat) returns (t: State, steps: seq<Step>)
    requires Stands(s, id, AwaitingDecision, WaitingForApproval) && id in s.inbox && s.inbox[id].status == Approved
    requires id !in s.signalled && Account(s.db, id) == (0, false)
    ensures Own(steps, id) && Comes(s, steps, t) && Finished(s, t, id, if ok then Completed else TaskStatus.Failed)
    ensures Account(t.db, id) == (1, ok) && t.db.approvals == s.db.approvals
  {
    hide Inv, Comes, Finished;
    var decided := Selects(s, id, now);
    var executing, rest := Resumes(decided, id, s.inbox[id], now);
    AloneFinishes(decided, executing, id);
    hide Stands;
    Onward(s, [Work(id, true, now)], decided, rest, executing);
    var first := [Work(id, true, now)] + rest;
    var last;
    t, last := Performs(executing, id, ok, now);
    Onward(s, first, executing, last, t);
    steps := first + last;
    SameSlot(s, decided, t, id);
  }

  lemma SameSlot(s: State, middle: State, t: State, id: TaskId)
    requires id in s.workers && id in middle.workers && middle.workers[id].session == s.workers[id].session
    ensures forall status :: Finished(middle, t, id, status) ==> Finished(s, t, id, status)
  {
    hide Inv;
  }

  lemma Resumes(s: State, id: TaskId, resolution: Resolution, now: nat) returns (t: State, steps: seq<Step>)
    requires Stands(s, id, Decided(resolution), WaitingForApproval) && resolution.status == Approved
    ensures Walks(s, steps, t, id) && Stands(t, id, Executing, Running) && Account(t.db, id) == Account(s.db, id)
  {
    hide Inv, Comes, AfterMove;
    var loading := Moves(s, id, true, now, Decided(resolution), WaitingForApproval, Loading(ToResumed));
    hide Worked;
    var rest;
    t, rest := Passes(loading, id, ToResumed, WaitingForApproval, now);
    MoveIs();
    WalksOn(s, [Work(id, true, now)], loading, rest, t, id);
    steps := [Work(id, true, now)] + rest;
  }

  /** A denial, or a withdrawal: the task is Cancelled, and its command is never started. */
  lemma RefusedCourse(s: State, id: TaskId, request: ApprovalRequest, choice: ApprovalChoice, client: nat, now: nat)
    returns (t: State, steps: seq<Step>)
    requires Waiting(s, id, request) && choice in request.choices && choice in {DenyIt, CancelTask}
    ensures var resolution := Resolution(request.id, choice, if choice == DenyIt then Denied else Withdrawn, client);
      && Comes(s, Deciding(resolution) + steps, t) && Own(steps, id)
      && Finished(s, t, id, TaskStatus.Cancelled) && Account(t.db, id) == Account(s.db, id)
      && request.id in t.db.approvals && t.db.approvals[request.id] == Approval(request, resolution.status, Some(resolution))
  {
    var resolution := Resolution(request.id, choice, if choice == DenyIt then Denied else Withdrawn, client);
    hide Inv, Comes, Finished, Stands;
    WaitingIs(s, id, request);
    var handed := Decides(s, id, request, resolution);
    HandedIs(s, handed, id, request, resolution);
    hide Waiting, Handed;
    t, steps := RefusedRest(handed, id, now);
    Onward(s, Deciding(resolution), handed, steps, t);
    SameSlot(s, handed, t, id);
  }

  lemma RefusedRest(s: State, id: TaskId, now: nat) returns (t: State, steps: seq<Step>)
    requires Stands(s, id, AwaitingDecision, WaitingForApproval) && id in s.inbox && s.inbox[id].status != Approved
    ensures Own(steps, id) && Comes(s, steps, t) && Finished(s, t, id, TaskStatus.Cancelled)
    ensures Account(t.db, id) == Account(s.db, id) && t.db.approvals == s.db.approvals
  {
    hide Inv, Comes, Finished;
    var decided := Selects(s, id, now);
    var rest;
    t, rest := GivesUp(decided, id, s.inbox[id], now);
    hide Stands;
    Onward(s, [Work(id, true, now)], decided, rest, t);
    steps := [Work(id, true, now)] + rest;
    SameSlot(s, decided, t, id);
  }

  lemma GivesUp(s: State, id: TaskId, resolution: Resolution, now: nat) returns (t: State, steps: seq<Step>)
    requires Stands(s, id, Decided(resolution), WaitingForApproval) && resolution.status != Approved
    ensures Own(steps, id) && Comes(s, steps, t) && Finished(s, t, id, TaskStatus.Cancelled)
    ensures Account(t.db, id) == Account(s.db, id) && t.db.approvals == s.db.approvals
  {
    hide Inv, Comes, AfterMove, Finished;
    var loading := Moves(s, id, true, now, Decided(resolution), WaitingForApproval, Loading(ToRefused));
    var refused, rest := Passes(loading, id, ToRefused, WaitingForApproval, now);
    MoveIs();
    WalksOn(s, [Work(id, true, now)], loading, rest, refused, id);
    AloneFinishes(s, refused, id);
    var told := Signals(refused, id, now);
    var last;
    t, last := EndsCancelled(told, id, false, Cancelling, now);
    SameSlot(refused, told, t, id);
    Onward(refused, [Work(id, true, now)], told, last, t);
    Onward(s, [Work(id, true, now)] + rest, refused, [Work(id, true, now)] + last, t);
    steps := [Work(id, true, now)] + rest + ([Work(id, true, now)] + last);
  }

  lemma Signals(s: State, id: TaskId, now: nat) returns (t: State)
    requires Stands(s, id, Refused, Cancelling)
    ensures Comes(s, [Work(id, true, now)], t) && Stands(t, id, Responded(false), Cancelling) && id in t.signalled
    ensures t.db == s.db && t.workers[id] == s.workers[id].(place := Responded(false))
  {
    hide Inv, Comes;
    t := At(s.(signalled := s.signalled + {id}), id, Responded(false));
    Steps(s, id, true, now);
  }

  /** From the response on, once the token is set. */
  lemma EndsCancelled(s: State, id: TaskId, success: bool, status: TaskStatus, now: nat) returns (t: State, steps: seq<Step>)
    requires Stands(s, id, Responded(success), Cancelling) && id in s.signalled
    ensures Own(steps, id) && Comes(s, steps, t) && Finished(s, t, id, TaskStatus.Cancelled)
    ensures Account(t.db, id) == Account(s.db, id) && t.db.approvals == s.db.approvals
  {
    hide Inv, Comes, Finished;
    var loading := Moves(s, id, true, now, Responded(success), Cancelling, Loading(ToCancelled));
    AloneFinishes(s, loading, id);
    hide Alone, Worked;
    var rest;
    t, rest := Closes(loading, id, ToCancelled, Cancelling, now);
    steps := [Work(id, true, now)] + rest;
    Onward(s, [Work(id, true, now)], loading, rest, t);
  }

  // ---- cancellation ----

  /** Asking, writing and signalling: the row is moved on, and the token set. */
  lemma Cancels(s: State, call: nat, id: TaskId, client: nat, status: TaskStatus, now: nat) returns (t: State)
    requires Inv(s) && call !in s.cancellers && id in s.db.tasks && id in s.registered
    requires StatusOf(s.db, id) == status && status in {Queued, Running, WaitingForApproval}
    ensures Comes(s, [BeginCancel(call, id, client), Cancel(call, now), Cancel(call, now), Cancel(call, now)], t) && Inv(t)
    ensures t == s.(db := t.db, signalled := s.signalled + {id}, cancellers := s.cancellers[call := Canceller(id, client, Withdrawing)])
    ensures t.db == s.db.(tasks := t.db.tasks, history := t.db.history) && id in t.db.tasks
    ensures StatusOf(t.db, id) == if status == Queued then TaskStatus.Cancelled else Cancelling
  {
    hide Inv, Comes;
    var next := if status == Queued then TaskStatus.Cancelled else Cancelling;
    var begun := s.(cancellers := s.cancellers[call := Canceller(id, client, Asking(next))]);
    One(s, BeginCancel(call, id, client));
    StepKeeps(s, BeginCancel(call, id, client));
    var asked, draft := Asks(begun, call, id, client, status, next, now);
    Onward(s, [BeginCancel(call, id, client)], begun, [Cancel(call, now)], asked);
    var written := Writes(asked, call, id, client, status, draft, now);
    Onward(s, [BeginCancel(call, id, client)] + [Cancel(call, now)], asked, [Cancel(call, now)], written);
    t := written.(signalled := written.signalled + {id}, cancellers := written.cancellers[call := Canceller(id, client, Withdrawing)]);
    CallSteps(written, call, now);
    assert t == CancelStep(written, call, now);
    Onward(s, [BeginCancel(call, id, client)] + [Cancel(call, now)] + [Cancel(call, now)], written, [Cancel(call, now)], t);
    assert [BeginCancel(call, id, client)] + [Cancel(call, now)] + [Cancel(call, now)] + [Cancel(call, now)]
      == [BeginCancel(call, id, client), Cancel(call, now), Cancel(call, now), Cancel(call, now)];
  }

  lemma CallSteps(s: State, call: nat, now: nat)
    requires Inv(s) && call in s.cancellers
    ensures Inv(CancelStep(s, call, now)) && Comes(s, [Cancel(call, now)], CancelStep(s, call, now))
  {
    One(s, Cancel(call, now));
    StepKeeps(s, Cancel(call, now));
    hide Inv, CancelStep;
  }

  lemma Asks(s: State, call: nat, id: TaskId, client: nat, status: TaskStatus, next: TaskStatus, now: nat) returns (t: State, draft: TaskSummary)
    requires Inv(s) && call in s.cancellers && s.cancellers[call] == Canceller(id, client, Asking(next)) && id in s.db.tasks
    requires StatusOf(s.db, id) == status && status.CanTransitionTo(next)
    ensures t == s.(cancellers := s.cancellers[call := Canceller(id, client, Writing(draft, status))])
    ensures Comes(s, [Cancel(call, now)], t) && Inv(t) && Draft(s.db.tasks, id, draft) && draft.id == id && draft.status == next
  {
    InvParts(s);
    SoundParts(s.db);
    LoadDrafts(s.db.tasks, id, next, now);
    hide Inv, Comes, Sound, SoundTasks, Drafted, Draft;
    draft := Drafted(s.db.tasks, id, next, now).value;
    t := s.(cancellers := s.cancellers[call := Canceller(id, client, Writing(draft, status))]);
    CallSteps(s, call, now);
    assert t == CancelStep(s, call, now);
  }

  lemma Writes(s: State, call: nat, id: TaskId, client: nat, status: TaskStatus, draft: TaskSummary, now: nat) returns (t: State)
    requires Inv(s) && call in s.cancellers && s.cancellers[call] == Canceller(id, client, Writing(draft, status)) && id in s.db.tasks
    requires StatusOf(s.db, id) == status && status.CanTransitionTo(draft.status) && Draft(s.db.tasks, id, draft) && draft.id == id
    ensures t == s.(db := t.db, cancellers := s.cancellers[call := Canceller(id, client, Signalling)])
    ensures t.db == s.db.(tasks := t.db.tasks, history := t.db.history) && id in t.db.tasks && StatusOf(t.db, id) == draft.status
    ensures Comes(s, [Cancel(call, now)], t) && Inv(t)
  {
    InvParts(s);
    StoredRow(s.db, id, draft, status);
    hide Inv, Comes, Sound, Written, Draft;
    t := s.(db := Written(s.db, draft).value, cancellers := s.cancellers[call := Canceller(id, client, Signalling)]);
    CallSteps(s, call, now);
    assert t == CancelStep(s, call, now);
  }

  /** A cancellation that the status machine does not have is refused, and does nothing: so a task that is being
      cancelled is not cancelled again. */
  lemma CancelRefused(s: State, call: nat, id: TaskId, client: nat, next: TaskStatus, now: nat)
    requires Inv(s) && call in s.cancellers && s.cancellers[call] == Canceller(id, client, Asking(next))
    requires id !in s.db.tasks || !StatusOf(s.db, id).CanTransitionTo(next)
    ensures Comes(s, [Cancel(call, now)], s.(cancellers := s.cancellers - {call}))
  {
    hide Inv, Comes;
    CallSteps(s, call, now);
    assert CancelStep(s, call, now) == s.(cancellers := s.cancellers - {call});
  }

  /** With nothing pending the call is over. */
  lemma Leaves(s: State, call: nat, id: TaskId, client: nat, now: nat) returns (t: State)
    requires Inv(s) && call in s.cancellers && s.cancellers[call] == Canceller(id, client, Withdrawing) && PendingFor(s.db, id) == {}
    ensures Comes(s, [Cancel(call, now)], t) && Inv(t) && t == s.(cancellers := s.cancellers - {call})
  {
    hide Inv, Comes, PendingFor;
    t := s.(cancellers := s.cancellers - {call});
    CallSteps(s, call, now);
    assert t == CancelStep(s, call, now);
  }

  /** A pending approval of the task is withdrawn. */
  lemma Withdraws(s: State, call: nat, id: TaskId, client: nat, request: ApprovalRequest, now: nat) returns (t: State)
    requires Inv(s) && call in s.cancellers && s.cancellers[call] == Canceller(id, client, Withdrawing)
    requires id in s.db.gates && s.db.gates[id] == Require(request)
    requires request.id in s.db.approvals && s.db.approvals[request.id] == Approval(request, Pending, None)
    ensures Comes(s, [Cancel(call, now), Cancel(call, now)], t) && Inv(t)
    ensures t == s.(db := t.db, cancellers := s.cancellers - {call})
    ensures var resolution := Resolution(request.id, CancelTask, Withdrawn, client);
      t.db == s.db.(approvals := s.db.approvals[request.id := Approval(request, Withdrawn, Some(resolution))])
  {
    hide Inv, Comes, PendingFor;
    PendingIs(s, id, request);
    var found := s.(cancellers := s.cancellers[call := Canceller(id, client, Resolving(request.id))]);
    CallSteps(s, call, now);
    assert found == CancelStep(s, call, now);
    t := Resolves(found, call, id, client, request, now);
    assert t.cancellers == s.cancellers - {call};
    Onward(s, [Cancel(call, now)], found, [Cancel(call, now)], t);
    assert [Cancel(call, now)] + [Cancel(call, now)] == [Cancel(call, now), Cancel(call, now)];
  }

  lemma Resolves(s: State, call: nat, id: TaskId, client: nat, request: ApprovalRequest, now: nat) returns (t: State)
    requires Inv(s) && call in s.cancellers && s.cancellers[call] == Canceller(id, client, Resolving(request.id))
    requires request.id in s.db.approvals && s.db.approvals[request.id] == Approval(request, Pending, None)
    ensures Comes(s, [Cancel(call, now)], t) && Inv(t) && t == s.(db := t.db, cancellers := s.cancellers - {call})
    ensures var resolution := Resolution(request.id, CancelTask, Withdrawn, client);
      t.db == s.db.(approvals := s.db.approvals[request.id := Approval(request, Withdrawn, Some(resolution))])
  {
    hide Inv, Comes;
    t := CancelStep(s, call, now);
    CallSteps(s, call, now);
  }

  lemma PendingIs(s: State, id: TaskId, request: ApprovalRequest)
    requires Inv(s) && id in s.db.gates && s.db.gates[id] == Require(request)
    requires request.id in s.db.approvals && s.db.approvals[request.id] == Approval(request, Pending, None)
    ensures PendingFor(s.db, id) == {request.id}
  {
    InvParts(s);
    SoundParts(s.db);
    hide Inv, Sound;
    OnePending(s.db, id, request);
  }

  lemma OnePending(d: Database, id: TaskId, request: ApprovalRequest)
    requires ApprovalsSound(d) && GatesSound(d) && id in d.gates && d.gates[id] == Require(request)
    requires request.id in d.approvals && d.approvals[request.id] == Approval(request, Pending, None)
    ensures PendingFor(d, id) == {request.id}
  {
    forall a | a in PendingFor(d, id) ensures a == request.id { assert ApprovalSound(d, a); }
  }

  /** The steps of a `cancel_task` up to its look for a pending approval. */
  function Call(call: nat, id: TaskId, client: nat, now: nat): seq<Step> {
    [BeginCancel(call, id, client), Cancel(call, now), Cancel(call, now), Cancel(call, now)]
  }

  /** Cancelled while it waits: the approval is withdrawn, and the command is never started. */
  lemma CancelledWaitingCourse(s: State, id: TaskId, request: ApprovalRequest, call: nat, client: nat, now: nat)
    returns (t: State, steps: seq<Step>)
    requires Waiting(s, id, request) && call !in s.cancellers && id in s.registered
    ensures Comes(s, Call(call, id, client, now) + ([Cancel(call, now), Cancel(call, now)] + steps), t) && Own(steps, id)
    ensures Finished(s, t, id, TaskStatus.Cancelled) && Account(t.db, id) == Account(s.db, id)
    ensures var resolution := Resolution(request.id, CancelTask, Withdrawn, client);
      request.id in t.db.approvals && t.db.approvals[request.id] == Approval(request, Withdrawn, Some(resolution))
  {
    hide Inv, Comes, Finished;
    GateStored(s, id);
    var told := Cancels(s, call, id, client, WaitingForApproval, now);
    var withdrawn := Withdraws(told, call, id, client, request, now);
    t, steps := StopsRest(withdrawn, id, now);
    SameSlot(s, withdrawn, t, id);
    hide Stands, Call;
    Onward(told, [Cancel(call, now), Cancel(call, now)], withdrawn, steps, t);
    Onward(s, Call(call, id, client, now), told, [Cancel(call, now), Cancel(call, now)] + steps, t);
  }

  lemma GateStored(s: State, id: TaskId)
    requires Inv(s) && id in s.workers
    ensures id in s.db.gates && s.db.gates[id] == s.workers[id].gate
  {
    WorkerParts(s, id);
  }

  lemma StopsRest(s: State, id: TaskId, now: nat) returns (t: State, steps: seq<Step>)
    requires Stands(s, id, AwaitingDecision, Cancelling) && id in s.signalled
    ensures Own(steps, id) && Comes(s, steps, t) && Finished(s, t, id, TaskStatus.Cancelled)
    ensures Account(t.db, id) == Account(s.db, id) && t.db.approvals == s.db.approvals
  {
    hide Inv, Comes, Finished;
    var stopped := Stops(s, id, now);
    var rest;
    t, rest := EndsCancelled(stopped, id, false, Cancelling, now);
    hide Stands;
    steps := [Work(id, false, now)] + rest;
    Onward(s, [Work(id, false, now)], stopped, rest, t);
    SameSlot(s, stopped, t, id);
  }

  lemma Stops(s: State, id: TaskId, now: nat) returns (t: State)
    requires Stands(s, id, AwaitingDecision, Cancelling) && id in s.signalled
    ensures Comes(s, [Work(id, false, now)], t) && Stands(t, id, Responded(false), Cancelling) && t.db == s.db
    ensures t == s.(waiters := t.waiters, workers := t.workers) && t.workers[id] == s.workers[id].(place := Responded(false))
  {
    hide Inv, Comes;
    t := SelectStep(s, id, false);
    Steps(s, id, false, now);
  }

  /** Cancelled before its worker begins: it is Cancelled at once, and never starts. */
  lemma CancelledEarlyCourse(s: State, id: TaskId, call: nat, client: nat, now: nat) returns (t: State)
    requires Stands(s, id, Spawned, Queued) && PendingFor(s.db, id) == {} && call !in s.cancellers && id in s.registered
    ensures Comes(s, Call(call, id, client, now) + ([Cancel(call, now)] + ([Work(id, true, now)] + [Work(id, true, now)])), t)
    ensures Finished(s, t, id, TaskStatus.Cancelled) && Account(t.db, id) == Account(s.db, id)
  {
    hide Inv, Comes, Finished;
    var told := Cancels(s, call, id, client, Queued, now);
    assert PendingFor(told.db, id) == PendingFor(s.db, id);
    var left := Leaves(told, call, id, client, now);
    var over := Moves(left, id, true, now, Spawned, TaskStatus.Cancelled, CleaningUp);
    t := Cleans(over, id, TaskStatus.Cancelled, now);
    hide Stands, Call, PendingFor;
    Onward(left, [Work(id, true, now)], over, [Work(id, true, now)], t);
    Onward(told, [Cancel(call, now)], left, [Work(id, true, now)] + [Work(id, true, now)], t);
    Onward(s, Call(call, id, client, now), told, [Cancel(call, now)] + ([Work(id, true, now)] + [Work(id, true, now)]), t);
    SameSlot(s, over, t, id);
  }

  /** Cancelled while its command runs: the task is Cancelled, however the command ends. */
  lemma CancelledLateCourse(s: State, id: TaskId, call: nat, client: nat, ok: bool, now: nat) returns (t: State, steps: seq<Step>)
    requires Stands(s, id, InCommand, Running) && PendingFor(s.db, id) == {} && call !in s.cancellers && id in s.registered
    ensures Comes(s, Call(call, id, client, now) + ([Cancel(call, now)] + steps), t) && Own(steps, id)
    ensures Finished(s, t, id, TaskStatus.Cancelled)
    ensures Account(t.db, id) == (Account(s.db, id).0, Account(s.db, id).1 || ok)
  {
    hide Inv, Comes, Finished;
    var told := Cancels(s, call, id, client, Running, now);
    assert PendingFor(told.db, id) == PendingFor(s.db, id);
    var left := Leaves(told, call, id, client, now);
    var returned := Returns(left, id, ok, Cancelling, now);
    hide Call, PendingFor;
    var rest;
    t, rest := EndsCancelled(returned, id, ok, Cancelling, now);
    hide Stands;
    steps := [Work(id, ok, now)] + rest;
    Onward(left, [Work(id, ok, now)], returned, rest, t);
    Onward(told, [Cancel(call, now)], left, steps, t);
    Onward(s, Call(call, id, client, now), told, [Cancel(call, now)] + steps, t);
    SameSlot(s, returned, t, id);
  }

  /** The event of a resumption or of a refusal gets lost: the task is Failed, and its command not started. */
  lemma UnpublishedCourse(s: State, id: TaskId, move: Move, now: nat) returns (t: State, steps: seq<Step>)
    requires Stands(s, id, Loading(move), WaitingForApproval) && move in {ToResumed, ToRefused} && id !in s.signalled
    ensures Own(steps, id) && Comes(s, steps, t) && Finished(s, t, id, TaskStatus.Failed) && Account(t.db, id) == Account(s.db, id)
  {
    hide Inv, Comes, Finished;
    var stopped, first := Tries(s, id, move, WaitingForApproval, false, now);
    assert AfterMove(move, false) == Responded(false);
    AloneFinishes(s, stopped, id);
    var rest;
    t, rest := Reports(stopped, id, false, Target(move), now);
    hide Stands;
    steps := first + rest;
    Onward(s, first, stopped, rest, t);
  }

  /** A shutdown while the command runs: the task is Cancelled, however the command ends. */
  lemma ShutdownCourse(s: State, id: TaskId, ok: bool, now: nat) returns (t: State, steps: seq<Step>)
    requires Stands(s, id, InCommand, Running)
    ensures Comes(s, [Shutdown(id)] + steps, t) && Own(steps, id)
    ensures Finished(s, t, id, TaskStatus.Cancelled) && Account(t.db, id) == (Account(s.db, id).0, Account(s.db, id).1 || ok)
  {
    hide Inv, Comes, Finished, AfterMove;
    var told := s.(signalled := s.signalled + {id});
    One(s, Shutdown(id));
    StepKeeps(s, Shutdown(id));
    var returned := Returns(told, id, ok, Running, now);
    SameSlot(s, returned, returned, id);
    var rest;
    t, rest := StopsRunning(returned, id, ok, now);
    hide Stands;
    steps := [Work(id, ok, now)] + rest;
    Onward(told, [Work(id, ok, now)], returned, rest, t);
    Onward(s, [Shutdown(id)], told, steps, t);
    SameSlot(s, returned, t, id);
  }

  lemma StopsRunning(s: State, id: TaskId, success: bool, now: nat) returns (t: State, steps: seq<Step>)
    requires Stands(s, id, Responded(success), Running) && id in s.signalled
    ensures Own(steps, id) && Comes(s, steps, t) && Finished(s, t, id, TaskStatus.Cancelled) && Account(t.db, id) == Account(s.db, id)
  {
    hide Inv, Comes, Finished, AfterMove;
    var loading := Moves(s, id, true, now, Responded(success), Running, Loading(ToCancelling));
    var cancelling, rest := Passes(loading, id, ToCancelling, Running, now);
    CancellingNext();
    WalksOn(s, [Work(id, true, now)], loading, rest, cancelling, id);
    AloneFinishes(s, cancelling, id);
    var last;
    t, last := Closes(cancelling, id, ToCancelled, Cancelling, now);
    hide Stands, Alone;
    Onward(s, [Work(id, true, now)] + rest, cancelling, last, t);
    steps := [Work(id, true, now)] + rest + last;
  }

  lemma CancellingNext()
    ensures AfterMove(ToCancelling, true) == Loading(ToCancelled)
  {}

  // ---- what cannot be published or filed ----

  /** The event of the first transition, or of the one to Cancelling at a shutdown, gets lost: the worker ends there. */
  lemma LostCourse(s: State, id: TaskId, move: Move, status: TaskStatus, now: nat) returns (t: State, steps: seq<Step>)
    requires Stands(s, id, Loading(move), status) && status.CanTransitionTo(Target(move)) && move in {ToRunning, ToCancelling}
    ensures Own(steps, id) && Comes(s, steps, t) && Finished(s, t, id, Target(move)) && Account(t.db, id) == Account(s.db, id)
  {
    hide Inv, Comes, Finished;
    var stopped, first := Tries(s, id, move, status, false, now);
    assert AfterMove(move, false) == CleaningUp;
    AloneFinishes(s, stopped, id);
    t := Cleans(stopped, id, Target(move), now);
    hide Stands;
    steps := first + [Work(id, true, now)];
    Onward(s, first, stopped, [Work(id, true, now)], t);
  }

  /** The message of a new task cannot be published: its worker never comes up, the task stays queued and its session taken. */
  lemma UnspawnedCourse(s: State, id: TaskId, now: nat)
    requires Stands(s, id, Stored, Queued)
    ensures var t := s.(workers := s.workers - {id}); Comes(s, [Work(id, false, now)], t) && Inv(t)
  {
    hide Inv, Comes;
    Steps(s, id, false, now);
    assert TokenStep(s, id, false) == s.(workers := s.workers - {id});
  }

  /** The request cannot be filed, or not be published: the task is Failed, and its command not started. */
  lemma UnaskedCourse(s: State, id: TaskId, place: Place, now: nat) returns (t: State, steps: seq<Step>)
    requires Stands(s, id, place, WaitingForApproval) && s.workers[id].gate.Require? && id !in s.signalled
    requires place == Registering || (place == Filing && s.workers[id].gate.request.id in s.db.approvals)
    ensures Own(steps, id) && Comes(s, steps, t) && Finished(s, t, id, TaskStatus.Failed) && Account(t.db, id) == Account(s.db, id)
  {
    hide Inv, Comes, Finished;
    var stopped := Moves(s, id, false, now, place, WaitingForApproval, Responded(false));
    AloneFinishes(s, stopped, id);
    var rest;
    t, rest := Reports(stopped, id, false, WaitingForApproval, now);
    hide Stands, Worked;
    steps := [Work(id, false, now)] + rest;
    Onward(s, [Work(id, false, now)], stopped, rest, t);
  }

  // ---- a decision that comes too early ----

  /** The worker waits for a decision that was made, is on record, and will not be sent again. */
  ghost predicate Stranded(s: State, id: TaskId, request: ApprovalRequest, resolution: Resolution) {
    && Inv(s) && id in s.workers && s.workers[id].place.AwaitingDecision? && s.workers[id].gate == Require(request)
    && request.id in s.db.approvals && s.db.approvals[request.id].status != Pending
    && s.db.approvals[request.id].resolution == Some(resolution) && resolution.approval == request.id
    && id !in s.inbox && resolution !in s.sending && id !in s.signalled
  }

  /** The approval is pending in the store before its worker listens. A decision made and sent in between is stored,
      but finds nobody; the worker then waits for it. */
  lemma TooEarly(s: State, id: TaskId, request: ApprovalRequest, resolution: Resolution, now: nat) returns (t: State)
    requires Stands(s, id, Registering, WaitingForApproval) && s.workers[id].gate == Require(request)
    requires request.id in s.db.approvals && s.db.approvals[request.id] == Approval(request, Pending, None)
    requires id !in s.waiters && id !in s.inbox && id !in s.signalled
    requires resolution.approval == request.id && resolution.choice in request.choices && resolution.status == StatusFor(resolution.choice)
    ensures Comes(s, Deciding(resolution) + [Work(id, true, now)], t) && Stranded(t, id, request, resolution)
  {
    hide Inv, Comes;
    RequestsOwnTask(s, id);
    var stored := StoresEarly(s, request, resolution);
    var sent := stored.(sending := stored.sending - {resolution});
    SendsNowhere(stored, id, resolution);
    t := Registers(sent, id, request, now);
    Onward(s, [Respond(request.id, resolution.choice, resolution.client)], stored, [Send(resolution)], sent);
    assert [Respond(request.id, resolution.choice, resolution.client)] + [Send(resolution)] == Deciding(resolution);
    Onward(s, Deciding(resolution), sent, [Work(id, true, now)], t);
  }

  lemma StoresEarly(s: State, request: ApprovalRequest, resolution: Resolution) returns (t: State)
    requires Inv(s) && request.id in s.db.approvals && s.db.approvals[request.id] == Approval(request, Pending, None)
    requires resolution.approval == request.id && resolution.choice in request.choices && resolution.status == StatusFor(resolution.choice)
    ensures Comes(s, [Respond(request.id, resolution.choice, resolution.client)], t) && Inv(t)
    ensures t == s.(db := t.db, sending := s.sending + {resolution})
    ensures t.db == s.db.(approvals := s.db.approvals[request.id := Approval(request, resolution.status, Some(resolution))])
  {
    hide Inv;
    var respond := Respond(request.id, resolution.choice, resolution.client);
    t := Apply(s, respond);
    StepKeeps(s, respond);
    One(s, respond);
  }

  lemma SendsNowhere(s: State, id: TaskId, resolution: Resolution)
    requires Inv(s) && resolution in s.sending && resolution.approval in s.db.approvals
    requires s.db.approvals[resolution.approval].request.task == id && id !in s.waiters
    ensures var t := s.(sending := s.sending - {resolution}); Comes(s, [Send(resolution)], t) && Inv(t)
  {
    hide Inv, Comes;
    assert SendStep(s, resolution) == s.(sending := s.sending - {resolution});
    StepKeeps(s, Send(resolution));
    One(s, Send(resolution));
  }

  /** Nothing but its token, or a restart, gets it out of there. */
  lemma StrandedStays(s: State, step: Step, id: TaskId, request: ApprovalRequest, resolution: Resolution)
    requires Stranded(s, id, request, resolution) && Enabled(s, step) && !step.Restart? && id !in Apply(s, step).signalled
    ensures Stranded(Apply(s, step), id, request, resolution)
  {
    hide Inv, Worked, WorkEnabled, CancelStep, SendStep, RespondStep, StartStep;
    StepKeeps(s, step);
    GateStored(s, id);
    StrandedFixed(s, Apply(s, step), request);
    match step {
      case Work(other, ok, now) =>
        NoTurn(s, id);
        WorkStrands(s, id, other, ok, now);
      case Send(r) => SendStrands(s, id, request, resolution, r);
      case Cancel(call, now) => CancelStrands(s, call, now);
      case Respond(a, choice, client) => RespondStrands(s, request, resolution, Resolution(a, choice, StatusFor(choice), client));
      case Start(task, session, operation, gate) => StartStrands(s, id, task, session, operation, gate);
      case _ =>
    }
    hide Apply, Enabled;
  }

  lemma NoTurn(s: State, id: TaskId)
    requires id in s.workers && s.workers[id].place.AwaitingDecision? && id !in s.inbox && id !in s.signalled
    ensures !WorkEnabled(s, id)
  {}

  lemma RespondStrands(s: State, request: ApprovalRequest, resolution: Resolution, r: Resolution)
    requires request.id in s.db.approvals && s.db.approvals[request.id].status != Pending && resolution.approval == request.id
    requires resolution !in s.sending
    ensures var t := RespondStep(s, r); t.workers == s.workers && t.inbox == s.inbox && resolution !in t.sending
  {}

  lemma StartStrands(s: State, id: TaskId, task: TaskId, session: Option<SessionId>, operation: nat, gate: Gate)
    requires id in s.workers && task != id
    ensures var t := StartStep(s, task, session, operation, gate);
      id in t.workers && t.workers[id] == s.workers[id] && t.inbox == s.inbox && t.sending == s.sending
  {}

  lemma StrandedFixed(s: State, t: State, request: ApprovalRequest)
    requires Kept(s.db, t.db) && request.id in s.db.approvals && s.db.approvals[request.id].status != Pending
    ensures request.id in t.db.approvals && t.db.approvals[request.id] == s.db.approvals[request.id]
  {}

  lemma WorkStrands(s: State, id: TaskId, other: TaskId, ok: bool, now: nat)
    requires WorkEnabled(s, other) && id in s.workers && id != other
    ensures var t := Worked(s, other, ok, now);
      id in t.workers && t.workers[id] == s.workers[id] && SameMail(s, t, other)
  {
    WorkWorkers(s, other, ok, now);
    match s.workers[other].place {
      case Loading(move) => LoadMail(s, other, move, now);
      case Saving(move, draft, _) => SaveMail(s, other, move, draft, ok);
      case Filing => FilingMail(s, other);
      case _ =>
    }
    hide LoadStep, SaveStep, FilingStep, Saved, AfterSpawn, AfterGate, AfterDecision, AfterResponse, Executions, OneWorker;
  }

  /** No decision is sent or arrives, and no other worker goes. */
  ghost predicate SameMail(s: State, t: State, id: TaskId) {
    t.inbox == s.inbox && t.sending == s.sending && s.workers.Keys - {id} <= t.workers.Keys
  }

  lemma LoadMail(s: State, id: TaskId, move: Move, now: nat)
    requires id in s.workers
    ensures SameMail(s, LoadStep(s, id, move, now), id)
  {
    hide Drafted, AfterRefusal;
  }

  lemma SaveMail(s: State, id: TaskId, move: Move, draft: TaskSummary, ok: bool)
    requires id in s.workers
    ensures SameMail(s, SaveStep(s, id, move, draft, ok), id)
  {
    hide Written, AfterMove, AfterRefusal;
  }

  lemma FilingMail(s: State, id: TaskId)
    requires id in s.workers
    ensures SameMail(s, FilingStep(s, id), id)
  {
    hide Filed;
  }

  lemma SendStrands(s: State, id: TaskId, request: ApprovalRequest, resolution: Resolution, r: Resolution)
    requires Stranded(s, id, request, resolution) && r in s.sending && r.approval in s.db.approvals
    requires id in s.db.gates && s.db.gates[id] == Require(request)
    ensures var t := SendStep(s, r); t.workers == s.workers && id !in t.inbox && resolution !in t.sending
  {
    InvParts(s);
    SoundParts(s.db);
    assert Recorded(s.db, r) && ApprovalSound(s.db, r.approval);
    hide Inv, Sound, SoundTasks, ApprovalsSound;
  }

  lemma CancelStrands(s: State, call: nat, now: nat)
    requires call in s.cancellers
    ensures var t := CancelStep(s, call, now); t.workers == s.workers && t.inbox == s.inbox && t.sending == s.sending
  {
    hide Written, Drafted, Resolved, PendingFor;
  }

  /** No step of the run sets its token, or restarts the program. */
  ghost predicate Untouched(s: State, steps: seq<Step>, id: TaskId)
    requires Runs(s, steps)
    decreases |steps|
  {
    steps == [] || (!steps[0].Restart? && id !in Apply(s, steps[0]).signalled && Untouched(Apply(s, steps[0]), steps[1..], id))
  }

  /** So over any such run the worker goes on waiting, with its decision on record, and has no step. */
  lemma {:induction false} StrandedForever(s: State, steps: seq<Step>, id: TaskId, request: ApprovalRequest, resolution: Resolution)
    requires Stranded(s, id, request, resolution) && Runs(s, steps) && Untouched(s, steps, id)
    ensures Stranded(After(s, steps), id, request, resolution) && !WorkEnabled(After(s, steps), id)
    decreases |steps|
  {
    hide Inv, Apply, Enabled;
    if steps != [] {
      StrandedStays(s, steps[0], id, request, resolution);
      StrandedForever(Apply(s, steps[0]), steps[1..], id, request, resolution);
    }
  }
}
