/** Task statuses (crates/fixtrace-protocol/src/task.rs) and the task and approval tables of the store
    (crates/fixtrace-store/src/store.rs, migrations.rs) with their uniqueness constraints. Each statement or
    transaction on the database is one atomic step; a transition is two, and others may write in between. */
module Tasks {
  import opened Common

  type TaskId = nat
  type ApprovalId = nat

  datatype TaskStatus = Queued | Running | WaitingForApproval | Cancelling | Cancelled | Completed | Failed | Interrupted {
    predicate IsTerminal() {
      match this
      case Cancelled => true
      case Completed => true
      case Failed => true
      case Interrupted => true
      case _ => false
    }

    predicate CanTransitionTo(next: TaskStatus) {
      match this
      case Queued => next in {Running, Cancelled, Failed, Interrupted}
      case Running => next in {WaitingForApproval, Cancelling, Completed, Failed, Interrupted}
      case WaitingForApproval => next in {Running, Cancelling, Failed, Interrupted}
      case Cancelling => next in {Cancelled, Failed, Interrupted}
      case _ => false
    }
  }

  /** The statuses that the partial index and the crash recovery select. */
  predicate Active(status: TaskStatus) {
    status in {Queued, Running, WaitingForApproval, Cancelling}
  }

  datatype TaskSummary = TaskSummary(
    id: TaskId, session: Option<SessionId>, operation: nat, status: TaskStatus,
    startedAt: Option<nat>, finishedAt: Option<nat>, isCancellable: bool)

  /** The columns that an upsert leaves alone, and the summary that it replaces. */
  datatype TaskRow = TaskRow(session: Option<SessionId>, operation: nat, summary: TaskSummary)

  datatype ApprovalChoice = ApproveOnce | ApproveForTask | ApproveEquivalentForSession | DenyIt | CancelTask

  datatype ApprovalStatus = Pending | Approved | Denied | Withdrawn | Expired

  datatype ApprovalRequest = ApprovalRequest(id: ApprovalId, session: SessionId, task: TaskId, choices: set<ApprovalChoice>)

  datatype Resolution = Resolution(approval: ApprovalId, choice: ApprovalChoice, status: ApprovalStatus, client: nat)

  datatype Approval = Approval(request: ApprovalRequest, status: ApprovalStatus, resolution: Option<Resolution>)

  type TaskTable = map<TaskId, TaskRow>
  type ApprovalTable = map<ApprovalId, Approval>

  datatype TaskError =
    | ConstraintViolated
    | TaskNotFound
    | InvalidTransition(origin: TaskStatus, next: TaskStatus)
    | StillPending
    | ApprovalNotFound
    | AlreadyResolved

  // ---- the operations, as functions of the tables ----

  /** Whether writing `row` under `id` breaks UNIQUE(operation_id) or the one-active-task index. */
  predicate Conflicts(tasks: TaskTable, id: TaskId, row: TaskRow) {
    exists other | other in tasks && other != id ::
      || tasks[other].operation == row.operation
      || (row.session.Some? && tasks[other].session == row.session && Active(row.summary.status) && Active(tasks[other].summary.status))
  }

  function Saved(tasks: TaskTable, task: TaskSummary): Result<TaskTable, TaskError> {
    var row := if task.id in tasks then tasks[task.id].(summary := task) else TaskRow(task.session, task.operation, task);
    if Conflicts(tasks, task.id, row) then Err(ConstraintViolated) else Ok(tasks[task.id := row])
  }

  function Moved(task: TaskSummary, next: TaskStatus, now: nat): TaskSummary {
    task.(status := next,
          startedAt := if next == Running && task.startedAt.None? then Some(now) else task.startedAt,
          finishedAt := if next.IsTerminal() then Some(now) else task.finishedAt,
          isCancellable := task.isCancellable && !next.IsTerminal())
  }

  /** The first half of a transition: the task as loaded, moved to its next status. */
  function Drafted(tasks: TaskTable, id: TaskId, next: TaskStatus, now: nat): Result<TaskSummary, TaskError> {
    if id !in tasks then Err(TaskNotFound)
    else if !tasks[id].summary.status.CanTransitionTo(next) then Err(InvalidTransition(tasks[id].summary.status, next))
    else Ok(Moved(tasks[id].summary, next, now))
  }

  /** A transition whose two halves nothing comes between. */
  function Transitioned(tasks: TaskTable, id: TaskId, next: TaskStatus, now: nat): Result<TaskTable, TaskError> {
    match Drafted(tasks, id, next, now)
    case Ok(draft) => Saved(tasks, draft)
    case Err(error) => Err(error)
  }

  predicate ActiveIn(tasks: TaskTable, id: TaskId) {
    id in tasks && Active(tasks[id].summary.status)
  }

  /** The tasks of `ids` interrupted, everything else as it was. */
  function InterruptedIn(tasks: TaskTable, ids: set<TaskId>, now: nat): TaskTable {
    map id | id in tasks :: if id in ids then tasks[id].(summary := Moved(tasks[id].summary, Interrupted, now)) else tasks[id]
  }

  /** The pending approvals of the tasks of `ids` expired, everything else as it was. */
  function ExpiredIn(approvals: ApprovalTable, ids: set<TaskId>): ApprovalTable {
    map a | a in approvals ::
      if approvals[a].status == Pending && approvals[a].request.task in ids then approvals[a].(status := Expired) else approvals[a]
  }

  function ActiveTasks(tasks: TaskTable): set<TaskId> {
    set id | id in tasks && Active(tasks[id].summary.status)
  }

  function Filed(approvals: ApprovalTable, request: ApprovalRequest): Result<ApprovalTable, TaskError> {
    if request.id in approvals then Err(ConstraintViolated)
    else Ok(approvals[request.id := Approval(request, Pending, None)])
  }

  function Resolved(approvals: ApprovalTable, resolution: Resolution): Result<ApprovalTable, TaskError> {
    if resolution.status == Pending then Err(StillPending)
    else if resolution.approval !in approvals then Err(ApprovalNotFound)
    else if approvals[resolution.approval].status != Pending then Err(AlreadyResolved)
    else
      var a := approvals[resolution.approval];
      Ok(approvals[resolution.approval := Approval(a.request, resolution.status, Some(resolution))])
  }

  // ---- what the tables always satisfy ----

  /** Rows under their own ids, one task per operation, one active task per session, a finish time exactly
      on the terminal ones. */
  ghost predicate SoundTasks(tasks: TaskTable) {
    && (forall id | id in tasks ::
          && tasks[id].summary.id == id && tasks[id].summary.session == tasks[id].session
          && tasks[id].summary.operation == tasks[id].operation
          && (tasks[id].summary.finishedAt.Some? <==> tasks[id].summary.status.IsTerminal()))
    && (forall i, j | i in tasks && j in tasks && i != j ::
          && tasks[i].operation != tasks[j].operation
          && (tasks[i].session.Some? && tasks[i].session == tasks[j].session ==>
                !(Active(tasks[i].summary.status) && Active(tasks[j].summary.status))))
  }

  lemma ActiveIsNotTerminal(status: TaskStatus)
    ensures Active(status) <==> !status.IsTerminal()
    ensures Active(status) <==> status.CanTransitionTo(Interrupted)
    ensures status.IsTerminal() ==> forall next :: !status.CanTransitionTo(next)
  {}

  /** The whole status machine. */
  lemma TransitionsAre(origin: TaskStatus, next: TaskStatus)
    ensures origin.CanTransitionTo(next) <==> (origin, next) in {
      (Queued, Running), (Queued, Cancelled), (Queued, Failed), (Queued, Interrupted),
      (Running, WaitingForApproval), (Running, Cancelling), (Running, Completed), (Running, Failed), (Running, Interrupted),
      (WaitingForApproval, Running), (WaitingForApproval, Cancelling), (WaitingForApproval, Failed), (WaitingForApproval, Interrupted),
      (Cancelling, Cancelled), (Cancelling, Failed), (Cancelling, Interrupted)}
  {}

  /** A new queued task is stored exactly when neither its operation nor an active task of its session is there. */
  lemma SaveNew(tasks: TaskTable, task: TaskSummary)
    requires SoundTasks(tasks) && task.id !in tasks && task.status == Queued && task.finishedAt.None?
    ensures Saved(tasks, task).Ok? <==>
      forall other | other in tasks :: tasks[other].operation != task.operation
        && !(task.session.Some? && tasks[other].session == task.session && Active(tasks[other].summary.status))
    ensures Saved(tasks, task).Ok? ==> SoundTasks(Saved(tasks, task).value)
  {}

  /** Whatever an upsert writes: a row that is there keeps its session and operation and takes the new summary; no other
      row changes. */
  lemma UpsertIs(tasks: TaskTable, task: TaskSummary)
    requires Saved(tasks, task).Ok?
    ensures var after := Saved(tasks, task).value;
      && after.Keys == tasks.Keys + {task.id} && after[task.id].summary == task
      && (task.id in tasks ==> after[task.id].session == tasks[task.id].session && after[task.id].operation == tasks[task.id].operation)
      && (task.id !in tasks ==> after[task.id].session == task.session && after[task.id].operation == task.operation)
      && forall other | other in tasks && other != task.id :: after[other] == tasks[other]
  {}

  /** What a load may have drafted for the row `id`, however long ago. */
  predicate Draft(tasks: TaskTable, id: TaskId, task: TaskSummary) {
    && id in tasks && task.id == id && task.session == tasks[id].session && task.operation == tasks[id].operation
    && (task.finishedAt.Some? <==> task.status.IsTerminal())
  }

  /** Rows keep their task, session and operation; none disappears. */
  ghost predicate ColumnsStay(before: TaskTable, after: TaskTable) {
    forall id | id in before ::
      id in after && after[id].session == before[id].session && after[id].operation == before[id].operation
  }

  lemma DraftStays(before: TaskTable, after: TaskTable, id: TaskId, task: TaskSummary)
    requires Draft(before, id, task) && ColumnsStay(before, after)
    ensures Draft(after, id, task)
  {}

  lemma LoadDrafts(tasks: TaskTable, id: TaskId, next: TaskStatus, now: nat)
    requires SoundTasks(tasks)
    ensures Drafted(tasks, id, next, now).Ok? <==> id in tasks && tasks[id].summary.status.CanTransitionTo(next)
    ensures Drafted(tasks, id, next, now).Err? ==>
      Drafted(tasks, id, next, now).error == if id in tasks then InvalidTransition(tasks[id].summary.status, next) else TaskNotFound
    ensures Drafted(tasks, id, next, now).Ok? ==>
      Draft(tasks, id, Drafted(tasks, id, next, now).value) && Drafted(tasks, id, next, now).value.status == next
  {
    if id in tasks { ActiveIsNotTerminal(tasks[id].summary.status); }
  }

  /** The second half, whatever was written in between: the tables stay sound, only the one row changes, and only
      a row that is terminal by now can be refused, for the sake of another active task of its session. */
  lemma SaveKeeps(tasks: TaskTable, id: TaskId, task: TaskSummary)
    requires SoundTasks(tasks) && Draft(tasks, id, task)
    ensures Saved(tasks, task).Ok? <==>
      !(Active(task.status) && task.session.Some?
        && exists other :: other in tasks && other != id && tasks[other].session == task.session && Active(tasks[other].summary.status))
    ensures Active(tasks[id].summary.status) ==> Saved(tasks, task).Ok?
    ensures Saved(tasks, task).Ok? ==>
      var after := Saved(tasks, task).value;
      && SoundTasks(after) && ColumnsStay(tasks, after) && after.Keys == tasks.Keys && after[id].summary == task
      && forall other | other in tasks && other != id :: after[other] == tasks[other]
  {
    ActiveIsNotTerminal(task.status);
    ActiveIsNotTerminal(tasks[id].summary.status);
    var row := tasks[id].(summary := task);
    assert forall other | other in tasks && other != id :: tasks[other].operation != row.operation;
  }

  /** The task has moved on: its start is set when it first runs, its end when it is over, and then it can no longer be
      cancelled; nothing else changes. */
  ghost predicate Advanced(before: TaskSummary, after: TaskSummary, next: TaskStatus, now: nat) {
    && after.status == next
    && after.id == before.id && after.session == before.session && after.operation == before.operation
    && (after.startedAt == if before.startedAt.None? && next == Running then Some(now) else before.startedAt)
    && (after.finishedAt == if next in {Cancelled, Completed, Failed, Interrupted} then Some(now) else before.finishedAt)
    && (after.isCancellable <==> before.isCancellable && next in {Queued, Running, WaitingForApproval, Cancelling})
  }

  /** In sound tables a transition that nothing comes between succeeds exactly when the state machine has it, and
      keeps them sound. */
  lemma TransitionKeeps(tasks: TaskTable, id: TaskId, next: TaskStatus, now: nat)
    requires SoundTasks(tasks)
    ensures Transitioned(tasks, id, next, now).Ok? <==> id in tasks && tasks[id].summary.status.CanTransitionTo(next)
    ensures Transitioned(tasks, id, next, now).Ok? ==>
      var after := Transitioned(tasks, id, next, now).value;
      && SoundTasks(after) && after.Keys == tasks.Keys && Advanced(tasks[id].summary, after[id].summary, next, now)
      && forall other | other in tasks && other != id :: after[other] == tasks[other]
  {
    LoadDrafts(tasks, id, next, now);
    if id in tasks && tasks[id].summary.status.CanTransitionTo(next) {
      ActiveIsNotTerminal(tasks[id].summary.status);
      SaveKeeps(tasks, id, Drafted(tasks, id, next, now).value);
    }
  }

  /** Two transitions that loaded the same row. The second save always goes through. It is what a transition after
      the first one would have been if and only if the state machine goes from the first target to the second, and
      the first did not set the start time that the second never saw. */
  lemma OverlapExactly(tasks: TaskTable, id: TaskId, first: TaskStatus, second: TaskStatus, t1: nat, t2: nat)
    requires SoundTasks(tasks) && id in tasks
    requires tasks[id].summary.status.CanTransitionTo(first) && tasks[id].summary.status.CanTransitionTo(second)
    ensures Transitioned(tasks, id, first, t1).Ok?
    ensures var seen := tasks[id].summary;
      var between := Transitioned(tasks, id, first, t1).value;
      var after := Saved(between, Moved(seen, second, t2));
      && after.Ok? && after.value[id].summary.status == second
      && (Transitioned(between, id, second, t2).Ok? <==> first.CanTransitionTo(second))
      && (after == Transitioned(between, id, second, t2) <==>
           (first.CanTransitionTo(second) && (first == Running ==> seen.startedAt.Some?)))
  {
    var seen := tasks[id].summary;
    TransitionKeeps(tasks, id, first, t1);
    LoadDrafts(tasks, id, second, t2);
    ActiveIsNotTerminal(seen.status);
    var between := Transitioned(tasks, id, first, t1).value;
    TransitionKeeps(between, id, second, t2);
    var draft := Moved(seen, second, t2);
    assert !Conflicts(between, id, between[id].(summary := draft));
    OverlapRows(tasks, between, id, first, second, t1, t2);
  }

  lemma OverlapRows(tasks: TaskTable, between: TaskTable, id: TaskId, first: TaskStatus, second: TaskStatus, t1: nat, t2: nat)
    requires id in tasks && id in between && between[id].summary == Moved(tasks[id].summary, first, t1)
    requires tasks[id].summary.status.CanTransitionTo(first) && tasks[id].summary.status.CanTransitionTo(second)
    requires tasks[id].summary.finishedAt.None?
    ensures first.CanTransitionTo(second) ==>
      (Moved(tasks[id].summary, second, t2) == Moved(between[id].summary, second, t2) <==>
        (first == Running ==> tasks[id].summary.startedAt.Some?))
  {}

  /** Crash recovery never meets a status that it cannot interrupt, and leaves nothing active and no
      pending approval of a task that was. */
  lemma InterruptKeeps(tasks: TaskTable, approvals: ApprovalTable, now: nat)
    requires SoundTasks(tasks)
    ensures SoundTasks(InterruptedIn(tasks, ActiveTasks(tasks), now))
    ensures var after := InterruptedIn(tasks, ActiveTasks(tasks), now);
      && after.Keys == tasks.Keys && (forall id | id in tasks && !ActiveIn(tasks, id) :: after[id] == tasks[id])
      && forall id | ActiveIn(tasks, id) :: Advanced(tasks[id].summary, after[id].summary, Interrupted, now)
    ensures forall a | a in approvals && !(approvals[a].status == Pending && ActiveIn(tasks, approvals[a].request.task)) ::
      a in ExpiredIn(approvals, ActiveTasks(tasks)) && ExpiredIn(approvals, ActiveTasks(tasks))[a] == approvals[a]
    ensures forall id :: !ActiveIn(InterruptedIn(tasks, ActiveTasks(tasks), now), id)
    ensures forall a | a in ExpiredIn(approvals, ActiveTasks(tasks)) && ExpiredIn(approvals, ActiveTasks(tasks))[a].status == Pending ::
      !ActiveIn(tasks, approvals[a].request.task)
  {
    forall id | id in tasks { ActiveIsNotTerminal(tasks[id].summary.status); }
  }

  lemma InterruptOneMore(tasks: TaskTable, approvals: ApprovalTable, ids: set<TaskId>, id: TaskId, now: nat)
    requires id in tasks && id !in ids
    ensures InterruptedIn(tasks, ids + {id}, now) ==
      InterruptedIn(tasks, ids, now)[id := tasks[id].(summary := Moved(tasks[id].summary, Interrupted, now))]
    ensures id in InterruptedIn(tasks, ids, now) && InterruptedIn(tasks, ids, now)[id] == tasks[id]
    ensures ExpiredIn(approvals, ids + {id}) == ExpiredIn(ExpiredIn(approvals, ids), {id})
  {}

  lemma InterruptNone(tasks: TaskTable, approvals: ApprovalTable, now: nat)
    ensures InterruptedIn(tasks, {}, now) == tasks && ExpiredIn(approvals, {}) == approvals
  {}

  /** So a terminal status can be left: both calls loaded Running, one completed the task, the other one then
      saves Cancelling. */
  lemma StaleSaveLeavesTerminal(tasks: TaskTable, id: TaskId, now: nat)
    requires SoundTasks(tasks) && id in tasks && tasks[id].summary.status == Running
    ensures var seen := tasks[id].summary;
      && Transitioned(tasks, id, Completed, now).Ok?
      && var completed := Transitioned(tasks, id, Completed, now).value;
      && Transitioned(completed, id, Cancelling, now).Err?
      && Saved(completed, Moved(seen, Cancelling, now)).Ok?
      && Saved(completed, Moved(seen, Cancelling, now)).value[id].summary.status == Cancelling
  {
    OverlapExactly(tasks, id, Completed, Cancelling, now, now);
  }

  /** An approval is filed once, pending and without a resolution. */
  lemma FiledOnce(approvals: ApprovalTable, request: ApprovalRequest)
    ensures Filed(approvals, request).Ok? <==> request.id !in approvals
    ensures Filed(approvals, request).Ok? ==> Filed(approvals, request).value == approvals[request.id := Approval(request, Pending, None)]
    ensures Filed(approvals, request).Ok? ==> Filed(Filed(approvals, request).value, request).Err?
  {}

  /** And resolved once, from pending: the first resolution is stored as it is, any other finds it resolved. */
  lemma ResolvedOnce(approvals: ApprovalTable, first: Resolution, second: Resolution)
    requires first.status != Pending && second.status != Pending
    ensures Resolved(approvals, first).Ok? <==> first.approval in approvals && approvals[first.approval].status == Pending
    ensures first.approval !in approvals ==> Resolved(approvals, first) == Err(ApprovalNotFound)
    ensures Resolved(approvals, first).Ok? ==>
      var after := Resolved(approvals, first).value;
      && after.Keys == approvals.Keys && after[first.approval].request == approvals[first.approval].request
      && after[first.approval].status == first.status && after[first.approval].resolution == Some(first)
      && (forall a | a in approvals && a != first.approval :: after[a] == approvals[a])
      && (second.approval == first.approval ==> Resolved(after, second) == Err(AlreadyResolved))
  {}

  // ---- the code ----

  class TaskStore {
    var tasks: TaskTable
    var approvals: ApprovalTable

    constructor ()
      ensures tasks == map[] && approvals == map[]
    {
      tasks, approvals := map[], map[];
    }

    method SaveTask(task: TaskSummary) returns (r: Result<(), TaskError>)
      modifies this`tasks
      ensures r.Ok? ==> Saved(old(tasks), task) == Ok(tasks)
      ensures r.Err? ==> Saved(old(tasks), task) == Err(r.error) && tasks == old(tasks)
    {
      var row := if task.id in tasks then tasks[task.id].(summary := task) else TaskRow(task.session, task.operation, task);
      if Conflicts(tasks, task.id, row) { return Err(ConstraintViolated); }
      tasks := tasks[task.id := row];
      r := Ok(());
    }

    method LoadTask(id: TaskId) returns (r: Result<TaskSummary, TaskError>)
      ensures r == if id in tasks then Ok(tasks[id].summary) else Err(TaskNotFound)
    {
      r := if id in tasks then Ok(tasks[id].summary) else Err(TaskNotFound);
    }

    /** Other callers may start tasks and save what they have drafted between two store calls. */
    method Interfere()
      modifies this`tasks
      ensures old(SoundTasks(tasks)) ==> SoundTasks(tasks)
      ensures ColumnsStay(old(tasks), tasks)
    {
      var writes: int := *;
      while writes > 0
        invariant old(SoundTasks(tasks)) ==> SoundTasks(tasks)
        invariant ColumnsStay(old(tasks), tasks)
      {
        var task: TaskSummary := *;
        if (task.id in tasks && Draft(tasks, task.id, task)) || (task.id !in tasks && task.status == Queued && task.finishedAt.None?) {
          if SoundTasks(tasks) { if task.id in tasks { SaveKeeps(tasks, task.id, task); } else { SaveNew(tasks, task); } }
          var saved := SaveTask(task);
        }
        writes := writes - 1;
      }
    }

    /** Loads and saves, with anything in between; `between` is the table that the save finds. */
    method TransitionTask(id: TaskId, next: TaskStatus, now: nat) returns (r: Result<TaskSummary, TaskError>, ghost between: TaskTable)
      modifies this`tasks
      ensures old(SoundTasks(tasks)) ==> SoundTasks(tasks)
      ensures ColumnsStay(old(tasks), between)
      ensures match Drafted(old(tasks), id, next, now) {
        case Err(error) => r == Err(error) && tasks == old(tasks) == between
        case Ok(draft) =>
          match Saved(between, draft) {
            case Ok(after) => r == Ok(draft) && tasks == after
            case Err(error) => r == Err(error) && tasks == between
          }
      }
      ensures old(SoundTasks(tasks)) && id in old(tasks) && id in between && between[id] == old(tasks)[id] ==>
        (r.Ok? <==> old(tasks)[id].summary.status.CanTransitionTo(next)) && (r.Ok? ==> Transitioned(between, id, next, now) == Ok(tasks))
    {
      between := tasks;
      if SoundTasks(tasks) { LoadDrafts(tasks, id, next, now); }
      var loaded := LoadTask(id);
      var task: TaskSummary;
      match loaded {
        case Err(error) => return Err(error), between;
        case Ok(value) => task := value;
      }
      if !task.status.CanTransitionTo(next) { return Err(InvalidTransition(task.status, next)), between; }
      task := task.(status := next);
      if next == Running && task.startedAt.None? { task := task.(startedAt := Some(now)); }
      if next.IsTerminal() { task := task.(finishedAt := Some(now), isCancellable := false); }
      assert Drafted(tasks, id, next, now) == Ok(task);
      Interfere();
      between := tasks;
      if old(SoundTasks(tasks)) {
        DraftStays(old(tasks), between, id, task);
        SaveKeeps(between, id, task);
        if between[id] == old(tasks)[id] { TransitionKeeps(between, id, next, now); }
      }
      var saved := SaveTask(task);
      match saved {
        case Err(error) => return Err(error), between;
        case Ok(_) => return Ok(task), between;
      }
    }

    /** Crash recovery: one transaction over all active tasks and their pending approvals. */
    method InterruptActiveTasks(now: nat) returns (r: Result<seq<TaskSummary>, TaskError>)
      requires SoundTasks(tasks)
      modifies this
      ensures r.Ok? && tasks == InterruptedIn(old(tasks), ActiveTasks(old(tasks)), now)
      ensures approvals == ExpiredIn(old(approvals), ActiveTasks(old(tasks)))
      ensures SoundTasks(tasks) && forall id :: !ActiveIn(tasks, id)
    {
      hide InterruptedIn, ExpiredIn, SoundTasks;
      var rest := ActiveTasks(tasks);
      ghost var active, done: set<TaskId> := rest, {};
      var interrupted: seq<TaskSummary> := [];
      var newTasks, newApprovals := tasks, approvals;
      InterruptNone(tasks, approvals, now);
      while rest != {}
        invariant tasks == old(tasks) && approvals == old(approvals)
        invariant done + rest == active && done !! rest
        invariant newTasks == InterruptedIn(tasks, done, now) && newApprovals == ExpiredIn(approvals, done)
      {
        var id :| id in rest;
        InterruptOneMore(tasks, approvals, done, id, now);
        var task := tasks[id].summary;
        ActiveIsNotTerminal(task.status);
        if !task.status.CanTransitionTo(Interrupted) { return Err(InvalidTransition(task.status, Interrupted)); }
        task := Moved(task, Interrupted, now);
        newTasks := newTasks[id := newTasks[id].(summary := task)];
        newApprovals := ExpiredIn(newApprovals, {id});
        interrupted := interrupted + [task];
        rest, done := rest - {id}, done + {id};
      }
      assert done == active;
      InterruptKeeps(tasks, approvals, now);
      tasks, approvals := newTasks, newApprovals;
      r := Ok(interrupted);
    }

    method SaveApproval(request: ApprovalRequest) returns (r: Result<(), TaskError>)
      modifies this`approvals
      ensures r.Ok? ==> Filed(old(approvals), request) == Ok(approvals)
      ensures r.Err? ==> Filed(old(approvals), request).Err? && approvals == old(approvals)
    {
      if request.id in approvals { return Err(ConstraintViolated); }
      approvals := approvals[request.id := Approval(request, Pending, None)];
      r := Ok(());
    }

    /** The first resolution of an approval is written; every later one is refused and changes nothing. */
    method ResolveApproval(resolution: Resolution) returns (r: Result<Approval, TaskError>)
      modifies this`approvals
      ensures r.Ok? ==> Resolved(old(approvals), resolution) == Ok(approvals)
      ensures r.Ok? ==> resolution.approval in approvals && r.value == approvals[resolution.approval]
      ensures r.Err? ==> Resolved(old(approvals), resolution) == Err(r.error) && approvals == old(approvals)
    {
      if resolution.status == Pending { return Err(StillPending); }
      if resolution.approval in approvals && approvals[resolution.approval].status == Pending {
        var a := approvals[resolution.approval];
        approvals := approvals[resolution.approval := Approval(a.request, resolution.status, Some(resolution))];
        return Ok(approvals[resolution.approval]);
      }
      r := Err(if resolution.approval in approvals then AlreadyResolved else ApprovalNotFound);
    }
  }
}
