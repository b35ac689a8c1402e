/** The task supervisor as a state machine (src/application/protocol.rs): starting a task, the runner and its
    approval gate, responders, cancellation, shutdown and crash recovery, interleaved step by step. Every
    statement on the database is one step; so is every touch of the in-memory maps. A transition loads in one
    step and saves in another, and anything may come between. */
module Lifecycle {
  import opened Common
  import opened Tasks

  datatype Gate = Allow | Deny | Require(request: ApprovalRequest)

  /** The calls of `transition_task` by a worker. */
  datatype Move = ToRunning | ToWaiting | ToResumed | ToRefused | ToCancelling | ToCancelled | ToCompleted | ToFailed

  /** Where a task's worker stands: `start_task`, then `run_task` and `await_task_approval`. */
  datatype Place =
    | Reserved
    | Stored
    | Spawned
    | Loading(move: Move)
    | Saving(move: Move, draft: TaskSummary, seen: TaskStatus)
    | Gated
    | Filing
    | Registering
    | AwaitingDecision
    | Decided(resolution: Resolution)
    | Refused
    | Executing
    | InCommand
    | Responded(success: bool)
    | CleaningUp

  datatype Worker = Worker(session: Option<SessionId>, operation: nat, gate: Gate, place: Place)

  /** Where a `cancel_task` call stands. */
  datatype CancelPlace =
    | Asking(next: TaskStatus)
    | Writing(draft: TaskSummary, read: TaskStatus)
    | Signalling
    | Withdrawing
    | Resolving(approval: ApprovalId)

  datatype Canceller = Canceller(task: TaskId, client: nat, place: CancelPlace)

  /** The tables; and what the past was: the gate of every task ever started, the statuses ever written, how often
      its command was started, and for which tasks it succeeded. */
  datatype Database = Database(
    tasks: TaskTable, approvals: ApprovalTable,
    gates: map<TaskId, Gate>, history: map<TaskId, seq<TaskStatus>>, executions: map<TaskId, nat>, succeeded: set<TaskId>)

  /** `signalled` are the set tokens. */
  datatype State = State(
    db: Database,
    sessions: map<SessionId, TaskId>, registered: set<TaskId>, signalled: set<TaskId>,
    waiters: set<TaskId>, inbox: map<TaskId, Resolution>,
    workers: map<TaskId, Worker>, sending: set<Resolution>, cancellers: map<nat, Canceller>)

  datatype Step =
    | Start(task: TaskId, session: Option<SessionId>, operation: nat, gate: Gate)
    | Work(task: TaskId, ok: bool, now: nat)
    | Respond(approval: ApprovalId, choice: ApprovalChoice, client: nat)
    | Send(resolution: Resolution)
    | BeginCancel(call: nat, task: TaskId, client: nat)
    | Cancel(call: nat, now: nat)
    | Shutdown(task: TaskId)
    | Restart(now: nat)

  // ---- the tables ----

  function StatusOf(d: Database, id: TaskId): TaskStatus {
    if id in d.tasks then d.tasks[id].summary.status else Interrupted
  }

  function Executions(d: Database, id: TaskId): nat { if id in d.executions then d.executions[id] else 0 }

  /** The save of a drafted task, logged in its history. */
  function Written(d: Database, draft: TaskSummary): Option<Database> {
    match Saved(d.tasks, draft)
    case Ok(tasks) =>
      var past := if draft.id in d.history then d.history[draft.id] else [];
      Some(d.(tasks := tasks, history := d.history[draft.id := past + [draft.status]]))
    case Err(_) => None
  }

  function AfterSave(d: Database, draft: TaskSummary): Database {
    if Written(d, draft).Some? then Written(d, draft).value else d
  }

  function Recovered(d: Database, now: nat): Database {
    var active := ActiveTasks(d.tasks);
    d.(tasks := InterruptedIn(d.tasks, active, now), approvals := ExpiredIn(d.approvals, active),
       history := map id | id in d.history :: if id in active then d.history[id] + [Interrupted] else d.history[id])
  }

  /** The pending approvals of a task. */
  function PendingFor(d: Database, task: TaskId): set<ApprovalId> {
    set a | a in d.approvals && d.approvals[a].request.task == task && d.approvals[a].status == Pending
  }

  // ---- the worker ----

  /** No other worker changes. */
  predicate OneWorker(s: State, t: State, id: TaskId) {
    forall other | other in t.workers && other != id :: other in s.workers && t.workers[other] == s.workers[other]
  }

  function At(s: State, id: TaskId, place: Place): (t: State)
    requires id in s.workers
    ensures t.db == s.db
    ensures OneWorker(s, t, id)
  {
    s.(workers := s.workers[id := s.workers[id].(place := place)])
  }

  function Target(move: Move): TaskStatus {
    match move
    case ToRunning => Running
    case ToWaiting => WaitingForApproval
    case ToResumed => Running
    case ToRefused => Cancelling
    case ToCancelling => Cancelling
    case ToCancelled => TaskStatus.Cancelled
    case ToCompleted => Completed
    case ToFailed => Failed
  }

  /** Where a transition goes on; `published` says whether the event that follows it could be stored. */
  function AfterMove(move: Move, published: bool): Place {
    match move
    case ToRunning => if published then Gated else CleaningUp
    case ToWaiting => Filing
    case ToResumed => if published then Executing else Responded(false)
    case ToRefused => if published then Refused else Responded(false)
    case ToCancelling => if published then Loading(ToCancelled) else CleaningUp
    case _ => CleaningUp
  }

  /** Where it goes on when it fails: inside the gate the command counts as failed, elsewhere the run ends. */
  function AfterRefusal(move: Move): Place {
    if move in {ToWaiting, ToResumed, ToRefused} then Responded(false) else CleaningUp
  }

  function LoadStep(s: State, id: TaskId, move: Move, now: nat): (t: State)
    requires id in s.workers
    ensures t.db == s.db
    ensures OneWorker(s, t, id)
  {
    match Drafted(s.db.tasks, id, Target(move), now)
    case Ok(draft) => At(s, id, Saving(move, draft, StatusOf(s.db, id)))
    case Err(_) => At(s, id, AfterRefusal(move))
  }

  function SaveStep(s: State, id: TaskId, move: Move, draft: TaskSummary, ok: bool): (t: State)
    requires id in s.workers
    ensures t.db == AfterSave(s.db, draft)
    ensures OneWorker(s, t, id)
  {
    match Written(s.db, draft)
    case Some(d) => At(s.(db := d), id, AfterMove(move, ok))
    case None => At(s, id, AfterRefusal(move))
  }

  function Released(s: State, id: TaskId): (t: State)
    requires id in s.workers
    ensures t.db == s.db
    ensures OneWorker(s, t, id)
  {
    var session := s.workers[id].session;
    s.(workers := s.workers - {id}, registered := s.registered - {id},
       sessions := if session.Some? then s.sessions - {session.value} else s.sessions)
  }

  function NewTask(id: TaskId, w: Worker): TaskSummary { TaskSummary(id, w.session, w.operation, Queued, None, None, true) }

  /** `save_task`, or giving the session back when the store refuses. */
  function StoreStep(s: State, id: TaskId): (t: State)
    requires id in s.workers
    ensures OneWorker(s, t, id)
  {
    match Saved(s.db.tasks, NewTask(id, s.workers[id]))
    case Ok(tasks) => At(s.(db := s.db.(tasks := tasks, history := s.db.history[id := [Queued]])), id, Stored)
    case Err(_) => Released(s, id)
  }

  /** Registering the token; when an event could not be published before, the call ends and the slot stays taken. */
  function TokenStep(s: State, id: TaskId, ok: bool): (t: State)
    requires id in s.workers
    ensures t.db == s.db
    ensures OneWorker(s, t, id)
  {
    if ok then At(s.(registered := s.registered + {id}), id, Spawned) else s.(workers := s.workers - {id})
  }

  function AfterSpawn(d: Database, id: TaskId): Place {
    if StatusOf(d, id).IsTerminal() then CleaningUp else Loading(ToRunning)
  }

  function AfterGate(gate: Gate): Place {
    match gate
    case Allow => Executing
    case Deny => Responded(false)
    case Require(_) => Loading(ToWaiting)
  }

  function FilingStep(s: State, id: TaskId): (t: State)
    requires id in s.workers
    ensures t.db == s.db.(approvals := t.db.approvals)
    ensures OneWorker(s, t, id)
  {
    match s.workers[id].gate
    case Require(request) =>
      (match Filed(s.db.approvals, request)
       case Ok(approvals) => At(s.(db := s.db.(approvals := approvals)), id, Registering)
       case Err(_) => At(s, id, Responded(false)))
    case _ => At(s, id, Responded(false))
  }

  function WaiterStep(s: State, id: TaskId, ok: bool): (t: State)
    requires id in s.workers
    ensures t.db == s.db
    ensures OneWorker(s, t, id)
  {
    if ok then At(s.(waiters := s.waiters + {id}), id, AwaitingDecision) else At(s, id, Responded(false))
  }

  /** The select between a decision and the token. */
  function SelectStep(s: State, id: TaskId, ok: bool): (t: State)
    requires id in s.workers
    ensures t.db == s.db
    ensures OneWorker(s, t, id)
  {
    At(s.(waiters := s.waiters - {id}), id,
       if id in s.inbox && (ok || id !in s.signalled) then Decided(s.inbox[id]) else Responded(false))
  }

  function AfterDecision(d: Database, id: TaskId, resolution: Resolution): Place {
    if resolution.status == Approved then
      if StatusOf(d, id) == WaitingForApproval then Loading(ToResumed) else Responded(false)
    else if StatusOf(d, id) == WaitingForApproval then Loading(ToRefused) else Refused
  }

  /** The command starts; how it ends is the next step. */
  function ExecuteStep(s: State, id: TaskId): (t: State)
    requires id in s.workers
    ensures t.db == s.db.(executions := t.db.executions)
    ensures OneWorker(s, t, id)
  {
    At(s.(db := s.db.(executions := s.db.executions[id := Executions(s.db, id) + 1])), id, InCommand)
  }

  /** The command ends. */
  function ReturnStep(s: State, id: TaskId, ok: bool): (t: State)
    requires id in s.workers
    ensures t.db == s.db.(succeeded := t.db.succeeded)
    ensures OneWorker(s, t, id)
  {
    At(if ok then s.(db := s.db.(succeeded := s.db.succeeded + {id})) else s, id, Responded(ok))
  }

  function AfterResponse(d: Database, signalled: bool, id: TaskId, success: bool): Place {
    if signalled then
      match StatusOf(d, id)
      case Cancelling => Loading(ToCancelled)
      case Running => Loading(ToCancelling)
      case _ => CleaningUp
    else if success then Loading(ToCompleted) else Loading(ToFailed)
  }

  predicate WorkEnabled(s: State, id: TaskId) {
    id in s.workers && (s.workers[id].place.AwaitingDecision? ==> id in s.inbox || id in s.signalled)
  }

  /** `ok` is the environment's part: an event was published, a command succeeded, the select took the decision. */
  function Worked(s: State, id: TaskId, ok: bool, now: nat): State
    requires WorkEnabled(s, id)
  {
    match s.workers[id].place
    case Reserved => StoreStep(s, id)
    case Stored => TokenStep(s, id, ok)
    case Spawned => At(s, id, AfterSpawn(s.db, id))
    case Loading(move) => LoadStep(s, id, move, now)
    case Saving(move, draft, _) => SaveStep(s, id, move, draft, ok)
    case Gated => At(s, id, AfterGate(s.workers[id].gate))
    case Filing => FilingStep(s, id)
    case Registering => WaiterStep(s, id, ok)
    case AwaitingDecision => SelectStep(s, id, ok)
    case Decided(resolution) => At(s, id, AfterDecision(s.db, id, resolution))
    case Refused => At(s.(signalled := s.signalled + {id}), id, Responded(false))
    case Executing => ExecuteStep(s, id)
    case InCommand => ReturnStep(s, id, ok)
    case Responded(success) => At(s, id, AfterResponse(s.db, id in s.signalled, id, success))
    case CleaningUp => Released(s, id)
  }

  // ---- the other steps ----

  function StatusFor(choice: ApprovalChoice): ApprovalStatus {
    match choice
    case DenyIt => Denied
    case CancelTask => Withdrawn
    case _ => Approved
  }

  function RespondStep(s: State, resolution: Resolution): State {
    match Resolved(s.db.approvals, resolution)
    case Ok(approvals) => s.(db := s.db.(approvals := approvals), sending := s.sending + {resolution})
    case Err(_) => s
  }

  /** A responder's decision reaches the waiter of the task, if one is registered. */
  function SendStep(s: State, resolution: Resolution): State
    requires resolution.approval in s.db.approvals
  {
    var task := s.db.approvals[resolution.approval].request.task;
    if task in s.waiters
    then s.(sending := s.sending - {resolution}, waiters := s.waiters - {task}, inbox := s.inbox[task := resolution])
    else s.(sending := s.sending - {resolution})
  }

  function Proceed(s: State, call: nat, place: CancelPlace): State
    requires call in s.cancellers
  {
    s.(cancellers := s.cancellers[call := s.cancellers[call].(place := place)])
  }

  function Return(s: State, call: nat): State { s.(cancellers := s.cancellers - {call}) }

  function AskStep(s: State, call: nat, next: TaskStatus, now: nat): State
    requires call in s.cancellers
  {
    match Drafted(s.db.tasks, s.cancellers[call].task, next, now)
    case Ok(draft) => Proceed(s, call, Writing(draft, StatusOf(s.db, s.cancellers[call].task)))
    case Err(_) => Return(s, call)
  }

  function WriteStep(s: State, call: nat, draft: TaskSummary): State
    requires call in s.cancellers
  {
    match Written(s.db, draft)
    case Some(d) => Proceed(s.(db := d), call, Signalling)
    case None => Return(s, call)
  }

  function SignalStep(s: State, call: nat): State
    requires call in s.cancellers
  {
    var task := s.cancellers[call].task;
    Proceed(if task in s.registered then s.(signalled := s.signalled + {task}) else s, call, Withdrawing)
  }

  function FindStep(s: State, call: nat): State
    requires call in s.cancellers
  {
    var pending := PendingFor(s.db, s.cancellers[call].task);
    if pending == {} then Return(s, call) else Proceed(s, call, Resolving(Least(pending)))
  }

  function ResolveStep(s: State, call: nat, approval: ApprovalId): State
    requires call in s.cancellers
  {
    match Resolved(s.db.approvals, Resolution(approval, CancelTask, Withdrawn, s.cancellers[call].client))
    case Ok(approvals) => Return(s.(db := s.db.(approvals := approvals)), call)
    case Err(_) => Return(s, call)
  }

  function CancelStep(s: State, call: nat, now: nat): State
    requires call in s.cancellers
  {
    match s.cancellers[call].place
    case Asking(next) => AskStep(s, call, next, now)
    case Writing(draft, _) => WriteStep(s, call, draft)
    case Signalling => SignalStep(s, call)
    case Withdrawing => FindStep(s, call)
    case Resolving(approval) => ResolveStep(s, call, approval)
  }

  /** A gate's request names its own task and session and has an id of its own. */
  predicate NewRequest(d: Database, task: TaskId, session: Option<SessionId>, request: ApprovalRequest) {
    && session == Some(request.session) && request.task == task
    && forall other | other in d.gates && d.gates[other].Require? :: d.gates[other].request.id != request.id
  }

  predicate Enabled(s: State, step: Step) {
    match step
    case Start(task, session, operation, gate) =>
      && task !in s.db.gates
      && (session.Some? ==> session.value !in s.sessions)
      && (gate.Require? ==> NewRequest(s.db, task, session, gate.request))
    case Work(task, _, _) => WorkEnabled(s, task)
    case Respond(approval, choice, _) => approval in s.db.approvals && choice in s.db.approvals[approval].request.choices
    case Send(resolution) => resolution in s.sending && resolution.approval in s.db.approvals
    case BeginCancel(call, task, _) => call !in s.cancellers && task in s.db.tasks && !StatusOf(s.db, task).IsTerminal()
    case Cancel(call, _) => call in s.cancellers
    case Shutdown(_) => true
    case Restart(_) => true
  }

  function StartStep(s: State, task: TaskId, session: Option<SessionId>, operation: nat, gate: Gate): State {
    s.(sessions := if session.Some? then s.sessions[session.value := task] else s.sessions,
       workers := s.workers[task := Worker(session, operation, gate, Reserved)],
       db := s.db.(gates := s.db.gates[task := gate]))
  }

  function BeginCancelStep(s: State, call: nat, task: TaskId, client: nat): State {
    s.(cancellers := s.cancellers[call := Canceller(task, client,
         Asking(if StatusOf(s.db, task) == Queued then TaskStatus.Cancelled else Cancelling))])
  }

  /** Only the database survives a crash. */
  function Booted(d: Database): State { State(d, map[], {}, {}, {}, map[], map[], {}, map[]) }

  function Apply(s: State, step: Step): State
    requires Enabled(s, step)
  {
    match step
    case Start(task, session, operation, gate) => StartStep(s, task, session, operation, gate)
    case Work(task, ok, now) => Worked(s, task, ok, now)
    case Respond(approval, choice, client) => RespondStep(s, Resolution(approval, choice, StatusFor(choice), client))
    case Send(resolution) => SendStep(s, resolution)
    case BeginCancel(call, task, client) => BeginCancelStep(s, call, task, client)
    case Cancel(call, now) => CancelStep(s, call, now)
    case Shutdown(task) => s.(signalled := s.signalled + {task})
    case Restart(now) => Booted(Recovered(s.db, now))
  }

  function Empty(): State { Booted(Database(map[], map[], map[], map[], map[], {})) }

  // ---- what every run keeps, overlapping transitions or not ----

  ghost predicate HistoriesSound(d: Database) {
    && d.history.Keys == d.tasks.Keys && d.tasks.Keys <= d.gates.Keys
    && forall id | id in d.history :: Chronicle(d.history[id], StatusOf(d, id))
  }

  /** The statuses written for a task, from Queued to the one that it has. */
  ghost predicate Chronicle(history: seq<TaskStatus>, end: TaskStatus) {
    history != [] && history[0] == Queued && history[|history| - 1] == end
  }

  /** The status that a choice stands for: all three ways to approve approve, one denies, one withdraws the task. */
  ghost predicate Truthful(r: Resolution) {
    && (r.status == Approved <==> r.choice in {ApproveOnce, ApproveForTask, ApproveEquivalentForSession})
    && (r.status == Denied <==> r.choice == DenyIt)
    && (r.status == Withdrawn <==> r.choice == CancelTask)
  }

  /** An approval belongs to the gate of its task, and has a resolution exactly when someone resolved it, by one of
      the choices offered or by cancelling the task. */
  ghost predicate ApprovalSound(d: Database, a: ApprovalId) {
    a in d.approvals &&
    var approval := d.approvals[a];
    && approval.request.id == a
    && approval.request.task in d.gates && d.gates[approval.request.task] == Require(approval.request)
    && (approval.status == Pending || approval.status == Expired ==> approval.resolution.None?)
    && (approval.resolution.Some? ==> approval.resolution.value.approval == a && approval.resolution.value.status == approval.status)
    && (approval.status in {Approved, Denied, Withdrawn} ==> approval.resolution.Some?)
    && (approval.resolution.Some? ==> Truthful(approval.resolution.value))
    && (approval.resolution.Some? ==> approval.resolution.value.choice in approval.request.choices + {CancelTask})
  }

  ghost predicate ApprovalsSound(d: Database) { forall a | a in d.approvals :: ApprovalSound(d, a) }

  ghost predicate GatesSound(d: Database) {
    forall id | id in d.gates && d.gates[id].Require? :: d.gates[id].request.task == id
  }

  /** The gate lets the command run: it needs no approval, or has one that is approved in the store. */
  ghost predicate Cleared(d: Database, gate: Gate) {
    match gate
    case Allow => true
    case Deny => false
    case Require(request) => request.id in d.approvals && d.approvals[request.id].request == request && d.approvals[request.id].status == Approved
  }

  /** What was started was cleared, and was started once. */
  ghost predicate ExecutionsSound(d: Database) {
    forall id | id in d.executions && d.executions[id] > 0 ::
      d.executions[id] == 1 && id in d.gates && Cleared(d, d.gates[id])
  }

  ghost predicate Sound(d: Database) {
    SoundTasks(d.tasks) && GatesSound(d) && HistoriesSound(d) && ApprovalsSound(d) && ExecutionsSound(d)
  }

  /** A resolution in memory is the one that the store holds. */
  ghost predicate Recorded(d: Database, r: Resolution) {
    r.approval in d.approvals && d.approvals[r.approval].resolution == Some(r)
  }

  ghost predicate RecordedFor(d: Database, r: Resolution, task: TaskId) {
    Recorded(d, r) && d.approvals[r.approval].request.task == task
  }

  ghost predicate MessagesSound(s: State) {
    && (forall r | r in s.sending :: Recorded(s.db, r))
    && (forall t | t in s.inbox :: RecordedFor(s.db, s.inbox[t], t))
  }

  /** The command has not been started. */
  predicate BeforeExecution(place: Place) {
    match place
    case Loading(move) => move in {ToRunning, ToWaiting, ToResumed, ToRefused}
    case Saving(move, _, _) => move in {ToRunning, ToWaiting, ToResumed, ToRefused}
    case InCommand => false
    case Responded(_) => false
    case CleaningUp => false
    case _ => true
  }

  /** The next that happens is the command. */
  predicate AboutToExecute(place: Place) {
    match place
    case Loading(move) => move == ToResumed
    case Saving(move, _, _) => move == ToResumed
    case Executing => true
    case _ => false
  }

  ghost predicate Fits(d: Database, id: TaskId, gate: Gate, place: Place) {
    && (BeforeExecution(place) ==> Executions(d, id) == 0)
    && (AboutToExecute(place) ==> Cleared(d, gate))
    && (place.Decided? ==> RecordedFor(d, place.resolution, id))
    && (place.Saving? ==>
          Draft(d.tasks, id, place.draft) && place.draft.status == Target(place.move) && place.seen.CanTransitionTo(Target(place.move)))
  }

  ghost predicate WorkerSound(d: Database, id: TaskId, w: Worker) {
    && id in d.gates && d.gates[id] == w.gate
    && (w.place.Reserved? <==> id !in d.tasks)
    && Fits(d, id, w.gate, w.place)
  }

  ghost predicate WorkersSound(s: State) { forall id | id in s.workers :: WorkerSound(s.db, id, s.workers[id]) }

  ghost predicate CancellerSound(d: Database, c: Canceller) {
    match c.place
    case Asking(next) => next in {TaskStatus.Cancelled, Cancelling}
    case Writing(draft, read) =>
      Draft(d.tasks, c.task, draft) && draft.status in {TaskStatus.Cancelled, Cancelling} && read.CanTransitionTo(draft.status)
    case _ => true
  }

  ghost predicate CancellersSound(s: State) { forall c | c in s.cancellers :: CancellerSound(s.db, s.cancellers[c]) }

  ghost predicate Inv(s: State) { Sound(s.db) && MessagesSound(s) && WorkersSound(s) && CancellersSound(s) }

  /** An approval once resolved stays as it is; none disappears and no request changes. */
  ghost predicate ResolutionsFixed(d: Database, d': Database) {
    forall a | a in d.approvals ::
      && a in d'.approvals && d'.approvals[a].request == d.approvals[a].request
      && (d.approvals[a].status != Pending ==> d'.approvals[a] == d.approvals[a])
  }

  /** No task and no gate disappears or changes its identity, and what was once written stays written. */
  ghost predicate PastStays(d: Database, d': Database) {
    && ColumnsStay(d.tasks, d'.tasks)
    && (forall id | id in d.gates :: id in d'.gates && d'.gates[id] == d.gates[id])
    && (forall id | id in d.history :: id in d'.history && d.history[id] <= d'.history[id])
  }

  ghost predicate Kept(d: Database, d': Database) { ResolutionsFixed(d, d') && PastStays(d, d') }

  lemma KeptSelf(d: Database)
    ensures Kept(d, d)
  {}

  lemma KeptThrough(a: Database, b: Database, c: Database)
    requires Kept(a, b) && Kept(b, c)
    ensures Kept(a, c)
  {}

  lemma RecordedStays(d: Database, d': Database, r: Resolution)
    requires ApprovalsSound(d) && ResolutionsFixed(d, d') && Recorded(d, r)
    ensures Recorded(d', r) && d'.approvals[r.approval].request == d.approvals[r.approval].request
  {
    assert ApprovalSound(d, r.approval);
  }

  lemma ClearedStays(d: Database, d': Database, gate: Gate)
    requires ResolutionsFixed(d, d') && Cleared(d, gate)
    ensures Cleared(d', gate)
  {}

  lemma FitsStays(d: Database, d': Database, id: TaskId, gate: Gate, place: Place)
    requires ApprovalsSound(d) && Kept(d, d') && Fits(d, id, gate, place) && Executions(d', id) == Executions(d, id)
    ensures Fits(d', id, gate, place)
  {
    if place.Decided? { RecordedStays(d, d', place.resolution); }
    if AboutToExecute(place) { ClearedStays(d, d', gate); }
    if place.Saving? { DraftStays(d.tasks, d'.tasks, id, place.draft); }
  }

  /** A worker is unaffected by what the database keeps, as long as it is not its own count or first row. */
  lemma WorkerStays(d: Database, d': Database, id: TaskId, w: Worker)
    requires ApprovalsSound(d) && Kept(d, d') && WorkerSound(d, id, w)
    requires (id in d'.tasks <==> id in d.tasks) && Executions(d', id) == Executions(d, id)
    ensures WorkerSound(d', id, w)
  {
    FitsStays(d, d', id, w.gate, w.place);
  }

  lemma CancellerStays(d: Database, d': Database, c: Canceller)
    requires ColumnsStay(d.tasks, d'.tasks) && CancellerSound(d, c)
    ensures CancellerSound(d', c)
  {}

  /** The database moves on by what it keeps, and one worker along with it. */
  lemma TogetherKeeps(s: State, s': State, id: TaskId)
    requires Inv(s) && Sound(s'.db) && Kept(s.db, s'.db)
    requires s' == s.(db := s'.db, workers := s'.workers) && (id in s'.workers ==> WorkerSound(s'.db, id, s'.workers[id]))
    requires forall other | other in s'.workers && other != id ::
      && other in s.workers && s'.workers[other] == s.workers[other]
      && (other in s'.db.tasks <==> other in s.db.tasks) && Executions(s'.db, other) == Executions(s.db, other)
    ensures Inv(s')
  {
    hide Sound, Kept, WorkerSound, CancellerSound;
    SoundParts(s.db);
    KeptParts(s.db, s'.db);
    MessagesStay(s, s');
    forall other | other in s'.workers ensures WorkerSound(s'.db, other, s'.workers[other]) {
      if other != id { WorkerStays(s.db, s'.db, other, s.workers[other]); }
    }
    forall c | c in s.cancellers ensures CancellerSound(s'.db, s.cancellers[c]) { CancellerStays(s.db, s'.db, s.cancellers[c]); }
  }

  lemma SoundParts(d: Database)
    requires Sound(d)
    ensures SoundTasks(d.tasks) && GatesSound(d) && HistoriesSound(d) && ApprovalsSound(d) && ExecutionsSound(d)
  {}

  lemma KeptParts(d: Database, d': Database)
    requires Kept(d, d')
    ensures ResolutionsFixed(d, d') && ColumnsStay(d.tasks, d'.tasks)
  {}

  lemma MessagesStay(s: State, s': State)
    requires MessagesSound(s) && ApprovalsSound(s.db) && ResolutionsFixed(s.db, s'.db)
    requires s'.sending == s.sending && s'.inbox == s.inbox
    ensures MessagesSound(s')
  {
    forall r | r in s.sending ensures Recorded(s'.db, r) { RecordedStays(s.db, s'.db, r); }
    forall t | t in s.inbox ensures RecordedFor(s'.db, s.inbox[t], t) { RecordedStays(s.db, s'.db, s.inbox[t]); }
  }

  /** Steps that leave the database alone keep what holds of the messages, workers and calls that they leave. */
  lemma MemoryKeeps(s: State, s': State)
    requires Inv(s) && s'.db == s.db && s'.sending <= s.sending && s'.inbox == s.inbox
    requires forall id | id in s'.workers :: WorkerSound(s.db, id, s'.workers[id])
    requires forall c | c in s'.cancellers :: CancellerSound(s.db, s'.cancellers[c])
    ensures Inv(s') && Kept(s.db, s'.db)
  {
    KeptSelf(s.db);
    hide Sound, Kept, WorkerSound, CancellerSound, Recorded, RecordedFor;
  }

  // ---- the database, operation by operation ----

  lemma SameApprovals(d: Database, d': Database)
    requires ApprovalsSound(d) && d'.approvals == d.approvals && forall id | id in d.gates :: id in d'.gates && d'.gates[id] == d.gates[id]
    ensures ApprovalsSound(d')
  {
    forall a | a in d'.approvals ensures ApprovalSound(d', a) { assert ApprovalSound(d, a); }
  }

  lemma SameExecutions(d: Database, d': Database)
    requires ExecutionsSound(d) && ResolutionsFixed(d, d') && d'.executions == d.executions
    requires forall id | id in d.gates :: id in d'.gates && d'.gates[id] == d.gates[id]
    ensures ExecutionsSound(d')
  {
    forall id | id in d.executions && d.executions[id] > 0 ensures Cleared(d', d.gates[id]) { ClearedStays(d, d', d.gates[id]); }
  }

  /** A save keeps everything, whatever was written since its load; only the one row and its history change. */
  lemma WrittenKeeps(d: Database, draft: TaskSummary)
    requires Sound(d) && Draft(d.tasks, draft.id, draft) && Written(d, draft).Some?
    ensures var d' := Written(d, draft).value;
      && Sound(d') && Kept(d, d') && d' == d.(tasks := d'.tasks, history := d'.history) && d'.tasks.Keys == d.tasks.Keys
      && StatusOf(d', draft.id) == draft.status && OnlyGrows(d, d', draft.id, draft.status)
  {
    hide SoundTasks, Saved, Draft, ApprovalsSound, HistoriesSound, ExecutionsSound, PastStays, ResolutionsFixed, OnlyGrows, ColumnsStay;
    SaveKeeps(d.tasks, draft.id, draft);
    DraftRow(d.tasks, draft);
    var d' := Written(d, draft).value;
    HistoryGrows(d, d', draft.id, draft.status);
    TablesStay(d, d');
  }

  /** Only tasks and histories changed. */
  lemma TablesStay(d: Database, d': Database)
    requires GatesSound(d) && ApprovalsSound(d) && ExecutionsSound(d) && d' == d.(tasks := d'.tasks, history := d'.history)
    ensures GatesSound(d') && ApprovalsSound(d') && ExecutionsSound(d') && ResolutionsFixed(d, d')
  {
    SameApprovals(d, d');
    assert ResolutionsFixed(d, d');
    SameExecutions(d, d');
  }

  lemma HistoryGrows(d: Database, d': Database, id: TaskId, next: TaskStatus)
    requires HistoriesSound(d) && id in d.tasks
    requires d' == d.(tasks := d'.tasks, history := d.history[id := (if id in d.history then d.history[id] else []) + [next]])
    requires ColumnsStay(d.tasks, d'.tasks) && d'.tasks.Keys == d.tasks.Keys && StatusOf(d', id) == next
    requires forall other | other in d.tasks && other != id :: d'.tasks[other] == d.tasks[other]
    ensures HistoriesSound(d') && PastStays(d, d') && OnlyGrows(d, d', id, next)
  {
    hide ColumnsStay;
    assert id in d.history;
    assert Chronicle(d.history[id], StatusOf(d, id));
    assert Chronicle(d'.history[id], next);
    hide Chronicle;
    forall other | other in d'.history ensures Chronicle(d'.history[other], StatusOf(d', other)) {
      if other != id { assert Chronicle(d.history[other], StatusOf(d, other)); }
    }
  }

  lemma DraftRow(tasks: TaskTable, draft: TaskSummary)
    requires Draft(tasks, draft.id, draft)
    ensures draft.id in tasks
  {}

  /** Of all histories only that of `id` grows, by one status; no other row changes. */
  ghost predicate OnlyGrows(d: Database, d': Database, id: TaskId, next: TaskStatus) {
    && id in d.history && d'.history == d.history[id := d.history[id] + [next]]
    && forall other | other in d.tasks && other != id :: other in d'.tasks && d'.tasks[other] == d.tasks[other]
  }

  lemma NewTaskKeeps(d: Database, id: TaskId, w: Worker)
    requires Sound(d) && id !in d.tasks && id in d.gates && Saved(d.tasks, NewTask(id, w)).Ok?
    ensures var d' := d.(tasks := Saved(d.tasks, NewTask(id, w)).value, history := d.history[id := [Queued]]);
      Sound(d') && Kept(d, d') && d'.tasks.Keys == d.tasks.Keys + {id} && StatusOf(d', id) == Queued
  {
    var d' := d.(tasks := Saved(d.tasks, NewTask(id, w)).value, history := d.history[id := [Queued]]);
    SaveNew(d.tasks, NewTask(id, w));
    SavedAdds(d.tasks, NewTask(id, w));
    hide SoundTasks, Saved, ApprovalsSound, HistoriesSound, ExecutionsSound, GatesSound, PastStays, ResolutionsFixed;
    HistoryBegins(d, d', id);
    TablesStay(d, d');
  }

  lemma HistoryBegins(d: Database, d': Database, id: TaskId)
    requires HistoriesSound(d) && id !in d.tasks && id in d.gates
    requires d' == d.(tasks := d'.tasks, history := d.history[id := [Queued]])
    requires d'.tasks.Keys == d.tasks.Keys + {id} && StatusOf(d', id) == Queued
    requires forall other | other in d.tasks :: d'.tasks[other] == d.tasks[other]
    ensures HistoriesSound(d') && PastStays(d, d')
  {
    assert Chronicle([Queued], Queued);
    hide Chronicle;
    forall other | other in d'.history ensures Chronicle(d'.history[other], StatusOf(d', other)) {
      if other != id { assert Chronicle(d.history[other], StatusOf(d, other)); }
    }
  }

  lemma SavedAdds(tasks: TaskTable, task: TaskSummary)
    requires Saved(tasks, task).Ok? && task.id !in tasks
    ensures var after := Saved(tasks, task).value;
      && after.Keys == tasks.Keys + {task.id} && after[task.id].summary == task
      && forall i | i in tasks :: after[i] == tasks[i]
  {}

  lemma GateKeeps(d: Database, task: TaskId, session: Option<SessionId>, gate: Gate)
    requires Sound(d) && task !in d.gates && (gate.Require? ==> NewRequest(d, task, session, gate.request))
    ensures var d' := d.(gates := d.gates[task := gate]); Sound(d') && Kept(d, d')
  {
    hide SoundTasks, ApprovalsSound, Chronicle;
    var d' := d.(gates := d.gates[task := gate]);
    SameApprovals(d, d');
    assert ResolutionsFixed(d, d');
    SameExecutions(d, d');
  }

  lemma ApprovalsKeep(d: Database, d': Database)
    requires Sound(d) && d' == d.(approvals := d'.approvals) && ApprovalsSound(d') && ResolutionsFixed(d, d')
    ensures Sound(d') && Kept(d, d')
  {
    hide SoundTasks, ApprovalsSound, ResolutionsFixed, Chronicle;
    SameExecutions(d, d');
  }

  lemma FiledKeeps(d: Database, request: ApprovalRequest)
    requires Sound(d) && request.task in d.gates && d.gates[request.task] == Require(request) && Filed(d.approvals, request).Ok?
    ensures var d' := d.(approvals := Filed(d.approvals, request).value); Sound(d') && Kept(d, d')
  {
    var d' := d.(approvals := Filed(d.approvals, request).value);
    forall a | a in d'.approvals ensures ApprovalSound(d', a) {
      if a != request.id { assert ApprovalSound(d, a); }
    }
    hide SoundTasks, HistoriesSound, ExecutionsSound;
    ApprovalsKeep(d, d');
  }

  lemma ResolvedKeeps(d: Database, resolution: Resolution)
    requires Sound(d) && Resolved(d.approvals, resolution).Ok? && Truthful(resolution)
    requires resolution.choice in d.approvals[resolution.approval].request.choices + {CancelTask}
    ensures var d' := d.(approvals := Resolved(d.approvals, resolution).value);
      Sound(d') && Kept(d, d') && Recorded(d', resolution)
  {
    var d' := d.(approvals := Resolved(d.approvals, resolution).value);
    forall a | a in d'.approvals ensures ApprovalSound(d', a) { assert ApprovalSound(d, a); }
    hide SoundTasks, HistoriesSound, ExecutionsSound;
    ApprovalsKeep(d, d');
  }

  /** The start of a command counts: it was cleared, and had not been started before. */
  lemma ExecutedKeeps(d: Database, id: TaskId)
    requires Sound(d) && id in d.gates && Cleared(d, d.gates[id]) && Executions(d, id) == 0
    ensures var d' := d.(executions := d.executions[id := 1]); Sound(d') && Kept(d, d')
  {
    hide SoundTasks, ApprovalsSound, Chronicle;
    var d' := d.(executions := d.executions[id := 1]);
    SameApprovals(d, d');
    forall i | i in d'.executions && d'.executions[i] > 0 ensures d'.executions[i] == 1 && i in d'.gates && Cleared(d', d'.gates[i]) {
      ClearedStays(d, d', d.gates[i]);
    }
  }

  /** Crash recovery: nothing stays active, and no approval of an interrupted task stays pending. */
  lemma RecoveredKeeps(d: Database, now: nat)
    requires Sound(d)
    ensures var d' := Recovered(d, now);
      && Sound(d') && Kept(d, d') && (forall id :: !ActiveIn(d'.tasks, id))
      && (forall a | a in d'.approvals && d'.approvals[a].status == Pending :: !ActiveIn(d.tasks, d.approvals[a].request.task))
  {
    InterruptKeeps(d.tasks, d.approvals, now);
    var d' := Recovered(d, now);
    RecoveredHistories(d, now);
    RecoveredApprovals(d, now);
    hide SoundTasks, HistoriesSound, ApprovalsSound, InterruptedIn, ExpiredIn;
    SameExecutions(d, d');
  }

  lemma RecoveredHistories(d: Database, now: nat)
    requires HistoriesSound(d)
    ensures HistoriesSound(Recovered(d, now)) && PastStays(d, Recovered(d, now))
  {
    var d' := Recovered(d, now);
    assert ColumnsStay(d.tasks, d'.tasks);
    forall id | id in d.history ensures d.history[id] <= d'.history[id] && Chronicle(d'.history[id], StatusOf(d', id)) {
      RecoveredHistory(d, now, id);
    }
  }

  lemma RecoveredHistory(d: Database, now: nat, id: TaskId)
    requires HistoriesSound(d) && id in d.history
    ensures var d' := Recovered(d, now); id in d'.history && d.history[id] <= d'.history[id] && Chronicle(d'.history[id], StatusOf(d', id))
    ensures Recovered(d, now).history[id] == d.history[id] + (if ActiveIn(d.tasks, id) then [Interrupted] else [])
  {
    assert Chronicle(d.history[id], StatusOf(d, id));
    assert d.history[id] + [] == d.history[id];
  }

  lemma RecoveredApprovals(d: Database, now: nat)
    requires ApprovalsSound(d)
    ensures ApprovalsSound(Recovered(d, now)) && ResolutionsFixed(d, Recovered(d, now))
  {
    var d' := Recovered(d, now);
    forall a | a in d'.approvals ensures ApprovalSound(d', a) { assert ApprovalSound(d, a); }
  }

  // ---- every step keeps it ----

  /** Moving a worker to a place that fits. */
  lemma AtKeeps(s: State, id: TaskId, place: Place)
    requires Inv(s) && id in s.workers && !s.workers[id].place.Reserved? && !place.Reserved? && Fits(s.db, id, s.workers[id].gate, place)
    ensures Inv(At(s, id, place)) && Kept(s.db, At(s, id, place).db)
  {
    assert WorkerSound(s.db, id, s.workers[id].(place := place)) by { assert WorkerSound(s.db, id, s.workers[id]); }
    hide Fits, Sound, WorkerSound, CancellerSound;
    MemoryKeeps(s, At(s, id, place));
  }

  /** A worker moves on, and tokens or waiters change with it. */
  lemma SignalKeeps(s: State, middle: State, id: TaskId, place: Place)
    requires Inv(s) && id in s.workers && !s.workers[id].place.Reserved? && !place.Reserved? && Fits(s.db, id, s.workers[id].gate, place)
    requires middle == s.(registered := middle.registered, signalled := middle.signalled, waiters := middle.waiters)
    ensures Inv(At(middle, id, place)) && Kept(s.db, At(middle, id, place).db)
  {
    hide Fits, Sound, WorkerSound, CancellerSound, MessagesSound;
    assert Inv(middle) by { SameMemory(s, middle); }
    AtKeeps(middle, id, place);
  }

  lemma SameMemory(s: State, s': State)
    requires Inv(s) && s'.db == s.db && s'.sending == s.sending && s'.inbox == s.inbox && s'.workers == s.workers && s'.cancellers == s.cancellers
    ensures Inv(s')
  {
    hide Sound, WorkerSound, CancellerSound, Recorded, RecordedFor;
  }

  lemma ReleasedKeeps(s: State, s': State, id: TaskId)
    requires Inv(s) && id in s.workers
    requires s' == s.(workers := s.workers - {id}, registered := s'.registered, sessions := s'.sessions)
    ensures Inv(s') && Kept(s.db, s'.db)
  {
    hide Sound, WorkerSound, CancellerSound;
    MemoryKeeps(s, s');
  }

  lemma StoreKeeps(s: State, id: TaskId)
    requires Inv(s) && id in s.workers && s.workers[id].place.Reserved?
    ensures Inv(StoreStep(s, id)) && Kept(s.db, StoreStep(s, id).db)
  {
    hide Inv, Sound, Kept, Saved, At, Released;
    match Saved(s.db.tasks, NewTask(id, s.workers[id])) {
      case Err(_) => RefusedKeeps(s, id);
      case Ok(tasks) => StoredKeeps(s, id, s.db.(tasks := tasks, history := s.db.history[id := [Queued]]));
    }
  }

  lemma RefusedKeeps(s: State, id: TaskId)
    requires Inv(s) && id in s.workers
    ensures Inv(Released(s, id)) && Kept(s.db, Released(s, id).db)
  {
    hide Inv, Kept;
    ReleasedKeeps(s, Released(s, id), id);
  }

  lemma StoredKeeps(s: State, id: TaskId, d: Database)
    requires Inv(s) && id in s.workers && s.workers[id].place.Reserved? && Saved(s.db.tasks, NewTask(id, s.workers[id])).Ok?
    requires d == s.db.(tasks := Saved(s.db.tasks, NewTask(id, s.workers[id])).value, history := s.db.history[id := [Queued]])
    ensures Inv(At(s.(db := d), id, Stored)) && Kept(s.db, d)
  {
    hide Inv, Sound, Kept, WorkerSound, Saved, Fits;
    WorkerParts(s, id);
    NewTaskKeeps(s.db, id, s.workers[id]);
    NewWorkerSound(s.db, d, id, s.workers[id]);
    TogetherKeeps(s, At(s.(db := d), id, Stored), id);
  }

  lemma NewWorkerSound(d: Database, d': Database, id: TaskId, w: Worker)
    requires id in d.gates && d.gates[id] == w.gate && w.place.Reserved? && Fits(d, id, w.gate, w.place)
    requires d'.gates == d.gates && d'.executions == d.executions && id in d'.tasks
    ensures WorkerSound(d', id, w.(place := Stored))
  {}

  lemma TokenKeeps(s: State, id: TaskId, ok: bool)
    requires Inv(s) && id in s.workers && s.workers[id].place.Stored?
    ensures Inv(TokenStep(s, id, ok)) && Kept(s.db, TokenStep(s, id, ok).db)
  {
    assert WorkerSound(s.db, id, s.workers[id]);
    hide Sound, Kept, WorkerSound, CancellerSound;
    if ok {
      SignalKeeps(s, s.(registered := s.registered + {id}), id, Spawned);
    } else {
      ReleasedKeeps(s, TokenStep(s, id, ok), id);
    }
  }

  lemma LoadKeeps(s: State, id: TaskId, move: Move, now: nat)
    requires Inv(s) && id in s.workers && s.workers[id].place == Loading(move)
    ensures Inv(LoadStep(s, id, move, now)) && Kept(s.db, LoadStep(s, id, move, now).db)
  {
    hide Inv, Sound, Kept, Fits, Drafted, Draft, At, AfterRefusal;
    WorkerParts(s, id);
    SoundParts(s.db);
    LoadFits(s.db, id, s.workers[id].gate, move, now);
    match Drafted(s.db.tasks, id, Target(move), now) {
      case Ok(draft) => AtKeeps(s, id, Saving(move, draft, StatusOf(s.db, id)));
      case Err(_) => AtKeeps(s, id, AfterRefusal(move));
    }
  }

  lemma LoadFits(d: Database, id: TaskId, gate: Gate, move: Move, now: nat)
    requires SoundTasks(d.tasks) && Fits(d, id, gate, Loading(move))
    ensures var draft := Drafted(d.tasks, id, Target(move), now);
      if draft.Ok? then Fits(d, id, gate, Saving(move, draft.value, StatusOf(d, id))) else Fits(d, id, gate, AfterRefusal(move))
    ensures !AfterRefusal(move).Reserved?
  {
    LoadDrafts(d.tasks, id, Target(move), now);
    hide SoundTasks, Drafted, Draft, Cleared;
  }

  /** Wherever a transition goes on, the worker fits there. */
  lemma MoveFits(d: Database, id: TaskId, gate: Gate, move: Move, draft: TaskSummary, seen: TaskStatus, ok: bool)
    requires Fits(d, id, gate, Saving(move, draft, seen))
    ensures Fits(d, id, gate, AfterMove(move, ok)) && Fits(d, id, gate, AfterRefusal(move))
    ensures !AfterMove(move, ok).Reserved? && !AfterRefusal(move).Reserved?
  {}

  lemma WorkerParts(s: State, id: TaskId)
    requires Inv(s) && id in s.workers
    ensures var w := s.workers[id];
      id in s.db.gates && s.db.gates[id] == w.gate && (w.place.Reserved? <==> id !in s.db.tasks) && Fits(s.db, id, w.gate, w.place)
    ensures Sound(s.db) && ApprovalsSound(s.db)
  {
    assert WorkerSound(s.db, id, s.workers[id]);
  }

  /** A worker moves on together with its database. */
  lemma MovedKeeps(s: State, d: Database, id: TaskId, place: Place)
    requires Inv(s) && id in s.workers && !s.workers[id].place.Reserved? && !place.Reserved?
    requires Sound(d) && Kept(s.db, d) && d.tasks.Keys == s.db.tasks.Keys && d.executions == s.db.executions
    requires Fits(s.db, id, s.workers[id].gate, place)
    ensures Inv(At(s.(db := d), id, place)) && At(s.(db := d), id, place).db == d
  {
    hide Sound, Fits, CancellerSound;
    WorkerParts(s, id);
    FitsStays(s.db, d, id, s.workers[id].gate, place);
    assert WorkerSound(d, id, s.workers[id].(place := place));
    hide WorkerSound, Kept;
    TogetherKeeps(s, At(s.(db := d), id, place), id);
  }

  lemma SaveStepKeeps(s: State, id: TaskId, move: Move, draft: TaskSummary, ok: bool)
    requires Inv(s) && id in s.workers && s.workers[id].place.Saving? && s.workers[id].place.move == move && s.workers[id].place.draft == draft
    ensures Inv(SaveStep(s, id, move, draft, ok)) && Kept(s.db, SaveStep(s, id, move, draft, ok).db)
  {
    var w := s.workers[id];
    hide Inv, Sound, Kept, Written, Draft, AfterMove, AfterRefusal, Fits, At;
    WorkerParts(s, id);
    SavingIs(s.db, id, w.gate, w.place);
    MoveFits(s.db, id, w.gate, move, draft, w.place.seen, ok);
    match Written(s.db, draft) {
      case None => AtKeeps(s, id, AfterRefusal(move));
      case Some(d) =>
        WrittenKeeps(s.db, draft);
        MovedKeeps(s, d, id, AfterMove(move, ok));
    }
  }

  lemma SavingIs(d: Database, id: TaskId, gate: Gate, place: Place)
    requires Fits(d, id, gate, place) && place.Saving?
    ensures place.draft.id == id && Draft(d.tasks, place.draft.id, place.draft) && place.seen.CanTransitionTo(place.draft.status)
    ensures place.draft.status == Target(place.move)
  {}

  lemma FilingKeeps(s: State, id: TaskId)
    requires Inv(s) && id in s.workers && s.workers[id].place.Filing?
    ensures Inv(FilingStep(s, id)) && Kept(s.db, FilingStep(s, id).db)
  {
    var w := s.workers[id];
    WorkerParts(s, id);
    assert GatesSound(s.db);
    hide Inv, Sound, Kept, Filed, RecordedFor, ApprovalsSound;
    if w.gate.Require? && Filed(s.db.approvals, w.gate.request).Ok? {
      FiledKeeps(s.db, w.gate.request);
      MovedKeeps(s, s.db.(approvals := Filed(s.db.approvals, w.gate.request).value), id, Registering);
    } else {
      AtKeeps(s, id, Responded(false));
    }
  }

  lemma ExecuteKeeps(s: State, id: TaskId)
    requires Inv(s) && id in s.workers && s.workers[id].place.Executing?
    ensures Inv(ExecuteStep(s, id)) && Kept(s.db, ExecuteStep(s, id).db)
  {
    hide Inv, Sound, Kept, WorkerSound, Cleared;
    WorkerParts(s, id);
    ExecutedKeeps(s.db, id);
    ExecutedFits(s.db, ExecuteStep(s, id).db, id, s.workers[id]);
    hide Fits, ApprovalsSound;
    TogetherKeeps(s, ExecuteStep(s, id), id);
  }

  lemma ExecutedFits(d: Database, d': Database, id: TaskId, w: Worker)
    requires id in d.gates && d.gates[id] == w.gate && id in d.tasks && d'.gates == d.gates && d'.tasks == d.tasks
    ensures WorkerSound(d', id, w.(place := InCommand))
  {}

  lemma ReturnKeeps(s: State, id: TaskId, ok: bool)
    requires Inv(s) && id in s.workers && s.workers[id].place.InCommand?
    ensures Inv(ReturnStep(s, id, ok)) && Kept(s.db, ReturnStep(s, id, ok).db)
  {
    hide Inv, Sound, Kept, Cleared, RecordedFor;
    WorkerParts(s, id);
    if ok { SucceededKeeps(s.db, s.db.succeeded + {id}); } else { KeptSelf(s.db); }
    hide ApprovalsSound;
    MovedKeeps(s, ReturnStep(s, id, ok).db, id, Responded(ok));
  }

  lemma SucceededKeeps(d: Database, succeeded: set<TaskId>)
    requires Sound(d)
    ensures var d' := d.(succeeded := succeeded); Sound(d') && Kept(d, d')
  {
    hide SoundTasks, Chronicle, ApprovalsSound;
    var d' := d.(succeeded := succeeded);
    SameApprovals(d, d');
    assert ResolutionsFixed(d, d');
    SameExecutions(d, d');
  }

  /** An approving decision that a worker was handed stands Approved in the store, for its own gate. */
  lemma DecisionClears(d: Database, id: TaskId, w: Worker)
    requires ApprovalsSound(d) && id in d.gates && d.gates[id] == w.gate && Fits(d, id, w.gate, w.place) && w.place.Decided?
    ensures w.place.resolution.status == Approved ==> Cleared(d, w.gate)
  {
    assert ApprovalSound(d, w.place.resolution.approval);
  }

  lemma SelectKeeps(s: State, id: TaskId, ok: bool)
    requires Inv(s) && WorkEnabled(s, id) && s.workers[id].place.AwaitingDecision?
    ensures Inv(SelectStep(s, id, ok)) && Kept(s.db, SelectStep(s, id, ok).db)
  {
    WorkerParts(s, id);
    InvParts(s);
    hide Inv, Sound, Kept, CancellerSound, RecordedFor, Cleared;
    var decided := id in s.inbox && (ok || id !in s.signalled);
    SignalKeeps(s, s.(waiters := s.waiters - {id}), id, if decided then Decided(s.inbox[id]) else Responded(false));
  }

  lemma DecidedKeeps(s: State, id: TaskId)
    requires Inv(s) && id in s.workers && s.workers[id].place.Decided?
    ensures var s' := At(s, id, AfterDecision(s.db, id, s.workers[id].place.resolution)); Inv(s') && Kept(s.db, s'.db)
  {
    WorkerParts(s, id);
    DecisionClears(s.db, id, s.workers[id]);
    hide Inv, Sound, Kept, CancellerSound, RecordedFor, Cleared;
    AtKeeps(s, id, AfterDecision(s.db, id, s.workers[id].place.resolution));
  }

  /** A place that asks nothing new. */
  lemma EasyFits(d: Database, id: TaskId, gate: Gate, place: Place, next: Place)
    requires Fits(d, id, gate, place) && !next.Decided? && !next.Saving?
    requires BeforeExecution(next) ==> BeforeExecution(place)
    requires AboutToExecute(next) ==> AboutToExecute(place) || gate == Allow
    ensures Fits(d, id, gate, next)
  {}

  lemma EasyKeeps(s: State, middle: State, id: TaskId, next: Place)
    requires Inv(s) && id in s.workers && !next.Decided? && !next.Saving? && !next.Reserved? && !s.workers[id].place.Reserved?
    requires BeforeExecution(next) ==> BeforeExecution(s.workers[id].place)
    requires AboutToExecute(next) ==> AboutToExecute(s.workers[id].place) || s.workers[id].gate == Allow
    requires middle == s.(registered := middle.registered, signalled := middle.signalled, waiters := middle.waiters)
    ensures Inv(At(middle, id, next)) && Kept(s.db, At(middle, id, next).db)
  {
    hide Inv, Sound, Kept, Fits;
    WorkerParts(s, id);
    EasyFits(s.db, id, s.workers[id].gate, s.workers[id].place, next);
    SignalKeeps(s, middle, id, next);
  }

  lemma WorkKeeps(s: State, id: TaskId, ok: bool, now: nat)
    requires Inv(s) && WorkEnabled(s, id)
    ensures Inv(Worked(s, id, ok, now)) && Kept(s.db, Worked(s, id, ok, now).db)
  {
    hide Inv, Kept, StoreStep, TokenStep, LoadStep, SaveStep, FilingStep, SelectStep, ExecuteStep, ReturnStep, At;
    var w := s.workers[id];
    match w.place {
      case Reserved => StoreKeeps(s, id);
      case Stored => TokenKeeps(s, id, ok);
      case Spawned => EasyKeeps(s, s, id, AfterSpawn(s.db, id));
      case Loading(move) => LoadKeeps(s, id, move, now);
      case Saving(move, draft, seen) => SaveStepKeeps(s, id, move, draft, ok);
      case Gated => EasyKeeps(s, s, id, AfterGate(w.gate));
      case Filing => FilingKeeps(s, id);
      case Registering =>
        if ok { EasyKeeps(s, s.(waiters := s.waiters + {id}), id, AwaitingDecision); } else { EasyKeeps(s, s, id, Responded(false)); }
      case AwaitingDecision => SelectKeeps(s, id, ok);
      case Decided(resolution) => DecidedKeeps(s, id);
      case Refused => EasyKeeps(s, s.(signalled := s.signalled + {id}), id, Responded(false));
      case Executing => ExecuteKeeps(s, id);
      case InCommand => ReturnKeeps(s, id, ok);
      case Responded(success) => EasyKeeps(s, s, id, AfterResponse(s.db, id in s.signalled, id, success));
      case CleaningUp => ReleasedKeeps(s, Released(s, id), id);
    }
  }

  lemma StartKeeps(s: State, task: TaskId, session: Option<SessionId>, operation: nat, gate: Gate)
    requires Inv(s) && Enabled(s, Start(task, session, operation, gate))
    ensures var s' := StartStep(s, task, session, operation, gate); Inv(s') && Kept(s.db, s'.db)
  {
    var s' := StartStep(s, task, session, operation, gate);
    var booked := s.(sessions := s'.sessions);
    SameMemory(s, booked);
    GateKeeps(s.db, task, session, gate);
    StartFits(s.db, s'.db, task, s'.workers[task]);
    hide Sound, Kept, WorkerSound, CancellerSound, Fits;
    TogetherKeeps(booked, s', task);
  }

  lemma StartFits(d: Database, d': Database, task: TaskId, w: Worker)
    requires Sound(d) && task !in d.gates && d' == d.(gates := d.gates[task := w.gate]) && w.place.Reserved?
    ensures WorkerSound(d', task, w)
  {
    hide SoundTasks, ApprovalsSound;
  }

  /** The database moves on by a decision; what is on record may be sent. */
  lemma RespondKeeps(s: State, resolution: Resolution)
    requires Inv(s) && Truthful(resolution)
    requires resolution.approval in s.db.approvals ==> resolution.choice in s.db.approvals[resolution.approval].request.choices
    ensures Inv(RespondStep(s, resolution)) && Kept(s.db, RespondStep(s, resolution).db)
  {
    match Resolved(s.db.approvals, resolution) {
      case Err(_) => KeptSelf(s.db);
      case Ok(approvals) =>
        var stored := s.(db := s.db.(approvals := approvals));
        ResolvedKeeps(s.db, resolution);
        hide Sound, Kept, WorkerSound, CancellerSound, Resolved, Recorded;
        DatabaseKeeps(s, stored);
        SendingKeeps(stored, stored.(sending := stored.sending + {resolution}), resolution);
    }
  }

  lemma DatabaseKeeps(s: State, s': State)
    requires Inv(s) && Sound(s'.db) && Kept(s.db, s'.db) && s' == s.(db := s'.db)
    requires s'.db.tasks.Keys == s.db.tasks.Keys && s'.db.executions == s.db.executions
    ensures Inv(s')
  {
    hide Sound, Kept, WorkerSound, CancellerSound, Fits;
    forall id | id in s.workers ensures WorkerSound(s'.db, id, s.workers[id]) {
      SoundParts(s.db);
      WorkerStays(s.db, s'.db, id, s.workers[id]);
    }
    KeptParts(s.db, s'.db);
    SoundParts(s.db);
    MessagesStay(s, s');
    forall c | c in s.cancellers ensures CancellerSound(s'.db, s.cancellers[c]) { CancellerStays(s.db, s'.db, s.cancellers[c]); }
  }

  lemma SendingKeeps(s: State, s': State, resolution: Resolution)
    requires Inv(s) && Recorded(s.db, resolution) && s' == s.(sending := s.sending + {resolution})
    ensures Inv(s')
  {
    hide Sound, WorkerSound, CancellerSound, Recorded, RecordedFor;
  }

  lemma SendKeeps(s: State, resolution: Resolution)
    requires Inv(s) && resolution in s.sending && resolution.approval in s.db.approvals
    ensures Inv(SendStep(s, resolution)) && Kept(s.db, SendStep(s, resolution).db)
  {
    KeptSelf(s.db);
    hide Sound, WorkerSound, CancellerSound, Kept;
  }

  lemma CallsKeep(s: State, s': State)
    requires Inv(s) && s' == s.(signalled := s'.signalled, cancellers := s'.cancellers)
    requires forall c | c in s'.cancellers :: CancellerSound(s.db, s'.cancellers[c])
    ensures Inv(s') && Kept(s.db, s'.db)
  {
    hide Sound, Kept, WorkerSound, CancellerSound;
    MemoryKeeps(s, s');
  }

  lemma ProceedKeeps(s: State, s': State, call: nat, place: CancelPlace)
    requires Inv(s') && Kept(s.db, s'.db) && call in s'.cancellers
    requires CancellerSound(s'.db, s'.cancellers[call].(place := place))
    ensures Inv(Proceed(s', call, place)) && Kept(s.db, Proceed(s', call, place).db)
  {
    hide Sound, Kept, WorkerSound, CancellerSound;
    CallsKeep(s', Proceed(s', call, place));
  }

  lemma CallEndsKeeps(s: State, s': State, call: nat)
    requires Inv(s') && Kept(s.db, s'.db)
    ensures Inv(Return(s', call)) && Kept(s.db, Return(s', call).db)
  {
    hide Sound, Kept, WorkerSound, CancellerSound;
    CallsKeep(s', Return(s', call));
  }

  lemma AskingKeeps(s: State, call: nat, next: TaskStatus, now: nat)
    requires Inv(s) && call in s.cancellers && s.cancellers[call].place == Asking(next)
    ensures Inv(AskStep(s, call, next, now)) && Kept(s.db, AskStep(s, call, next, now).db)
  {
    var c := s.cancellers[call];
    InvParts(s);
    assert CancellerSound(s.db, c);
    SoundParts(s.db);
    LoadDrafts(s.db.tasks, c.task, next, now);
    KeptSelf(s.db);
    hide Inv, Sound, SoundTasks, Kept, Proceed, Return, Drafted, Draft;
    match Drafted(s.db.tasks, c.task, next, now) {
      case Ok(draft) => ProceedKeeps(s, s, call, Writing(draft, StatusOf(s.db, c.task)));
      case Err(_) => CallEndsKeeps(s, s, call);
    }
  }

  lemma WritingIs(s: State, call: nat)
    requires Inv(s) && call in s.cancellers && s.cancellers[call].place.Writing?
    ensures var c := s.cancellers[call];
      Sound(s.db) && c.place.draft.id == c.task && Draft(s.db.tasks, c.task, c.place.draft)
  {
    hide Sound, MessagesSound, WorkersSound;
    assert CancellerSound(s.db, s.cancellers[call]);
  }

  lemma WritingKeeps(s: State, call: nat, draft: TaskSummary)
    requires Inv(s) && call in s.cancellers && s.cancellers[call].place.Writing? && s.cancellers[call].place.draft == draft
    ensures Inv(WriteStep(s, call, draft)) && Kept(s.db, WriteStep(s, call, draft).db)
  {
    hide Inv, Kept, Proceed, Return, Draft, Sound, Written;
    WritingIs(s, call);
    KeptSelf(s.db);
    match Written(s.db, draft) {
      case None => CallEndsKeeps(s, s, call);
      case Some(d) =>
        WrittenKeeps(s.db, draft);
        MovedOn(s, d);
        ProceedKeeps(s, s.(db := d), call, Signalling);
    }
  }

  lemma MovedOn(s: State, d: Database)
    requires Inv(s) && Sound(d) && Kept(s.db, d) && d.tasks.Keys == s.db.tasks.Keys && d.executions == s.db.executions
    ensures Inv(s.(db := d))
  {
    hide Inv, Sound, Kept;
    DatabaseKeeps(s, s.(db := d));
  }

  lemma SignallingKeeps(s: State, call: nat)
    requires Inv(s) && call in s.cancellers
    ensures Inv(SignalStep(s, call)) && Kept(s.db, SignalStep(s, call).db)
  {
    var task := s.cancellers[call].task;
    KeptSelf(s.db);
    var told := if task in s.registered then s.(signalled := s.signalled + {task}) else s;
    SameMemory(s, told);
    hide Inv, Kept, Proceed;
    ProceedKeeps(s, told, call, Withdrawing);
  }

  lemma FindKeeps(s: State, call: nat)
    requires Inv(s) && call in s.cancellers
    ensures Inv(FindStep(s, call)) && Kept(s.db, FindStep(s, call).db)
  {
    KeptSelf(s.db);
    hide Inv, Kept, Proceed, Return, PendingFor;
    var pending := PendingFor(s.db, s.cancellers[call].task);
    if pending == {} { CallEndsKeeps(s, s, call); } else { ProceedKeeps(s, s, call, Resolving(Least(pending))); }
  }

  lemma WithdrawKeeps(s: State, call: nat, approval: ApprovalId)
    requires Inv(s) && call in s.cancellers
    ensures Inv(ResolveStep(s, call, approval)) && Kept(s.db, ResolveStep(s, call, approval).db)
  {
    var resolution := Resolution(approval, CancelTask, Withdrawn, s.cancellers[call].client);
    KeptSelf(s.db);
    InvParts(s);
    hide Inv, Kept, Return, Sound, Resolved, Recorded;
    match Resolved(s.db.approvals, resolution) {
      case Err(_) => CallEndsKeeps(s, s, call);
      case Ok(approvals) =>
        ResolvedKeeps(s.db, resolution);
        MovedOn(s, s.db.(approvals := approvals));
        CallEndsKeeps(s, s.(db := s.db.(approvals := approvals)), call);
    }
  }

  lemma CancelKeeps(s: State, call: nat, now: nat)
    requires Inv(s) && call in s.cancellers
    ensures Inv(CancelStep(s, call, now)) && Kept(s.db, CancelStep(s, call, now).db)
  {
    hide Inv, Kept, AskStep, WriteStep, SignalStep, FindStep, ResolveStep;
    match s.cancellers[call].place {
      case Asking(next) => AskingKeeps(s, call, next, now);
      case Writing(draft, read) => WritingKeeps(s, call, draft);
      case Signalling => SignallingKeeps(s, call);
      case Withdrawing => FindKeeps(s, call);
      case Resolving(approval) => WithdrawKeeps(s, call, approval);
    }
  }

  lemma BeginCancelKeeps(s: State, call: nat, task: TaskId, client: nat)
    requires Inv(s)
    ensures Inv(BeginCancelStep(s, call, task, client)) && Kept(s.db, BeginCancelStep(s, call, task, client).db)
  {
    hide Sound, WorkerSound, Kept;
    CallsKeep(s, BeginCancelStep(s, call, task, client));
  }

  lemma ShutdownKeeps(s: State, task: TaskId)
    requires Inv(s)
    ensures Inv(s.(signalled := s.signalled + {task})) && Kept(s.db, s.db)
  {
    hide Sound, WorkerSound, CancellerSound, Kept;
    CallsKeep(s, s.(signalled := s.signalled + {task}));
  }

  lemma BootedSound(d: Database)
    requires Sound(d)
    ensures Inv(Booted(d))
  {
    hide Sound;
  }

  /** Every step of every worker, responder and canceller, a shutdown and a crash keep the invariant, even with
      transitions that overlap; no decision changes once it is made, no task is lost, and nothing that was
      written in its history goes away. */
  lemma StepKeeps(s: State, step: Step)
    requires Inv(s) && Enabled(s, step)
    ensures Inv(Apply(s, step)) && Kept(s.db, Apply(s, step).db)
  {
    hide Inv, Kept, Worked, CancelStep, SendStep, StartStep, BeginCancelStep, RespondStep, Booted, Recovered, WorkEnabled;
    match step {
      case Start(task, session, operation, gate) => StartKeeps(s, task, session, operation, gate);
      case Work(task, ok, now) => WorkKeeps(s, task, ok, now);
      case Respond(approval, choice, client) => RespondKeeps(s, Resolution(approval, choice, StatusFor(choice), client));
      case Send(resolution) => SendKeeps(s, resolution);
      case BeginCancel(call, task, client) => BeginCancelKeeps(s, call, task, client);
      case Cancel(call, now) => CancelKeeps(s, call, now);
      case Shutdown(task) => ShutdownKeeps(s, task);
      case Restart(now) =>
        InvParts(s);
        RecoveredKeeps(s.db, now);
        BootedSound(Recovered(s.db, now));
        BootedDb(Recovered(s.db, now));
    }
  }

  lemma BootedDb(d: Database)
    ensures Booted(d).db == d
  {}

  lemma InvParts(s: State)
    requires Inv(s)
    ensures Sound(s.db) && MessagesSound(s) && WorkersSound(s) && CancellersSound(s)
  {}

  // ---- transitions that overlap ----

  /** The row has left the status that the save was drafted for: the state machine does not go from here to there. */
  predicate Overtakes(d: Database, draft: TaskSummary) {
    Saved(d.tasks, draft).Ok? && !StatusOf(d, draft.id).CanTransitionTo(draft.status)
  }

  /** The step saves a transition that another write has overtaken since its load. */
  predicate Overtaken(s: State, step: Step) {
    match step
    case Work(id, _, _) => id in s.workers && s.workers[id].place.Saving? && Overtakes(s.db, s.workers[id].place.draft)
    case Cancel(call, _) => call in s.cancellers && s.cancellers[call].place.Writing? && Overtakes(s.db, s.cancellers[call].place.draft)
    case _ => false
  }

  /** A save that finds the status that its load saw is not overtaken. */
  lemma FreshSaves(s: State, step: Step)
    requires Inv(s) && Enabled(s, step)
    requires step.Work? && s.workers[step.task].place.Saving? ==> s.workers[step.task].place.seen == StatusOf(s.db, step.task)
    requires step.Cancel? && s.cancellers[step.call].place.Writing? ==>
      s.cancellers[step.call].place.read == StatusOf(s.db, s.cancellers[step.call].task)
    ensures !Overtaken(s, step)
  {
    hide Sound, MessagesSound;
    if step.Work? {
      WorkerParts(s, step.task);
    } else if step.Cancel? {
      assert CancellerSound(s.db, s.cancellers[step.call]);
    }
  }

  /** A walk of the status machine. */
  ghost predicate Legal(history: seq<TaskStatus>) {
    forall i | 0 < i < |history| :: history[i - 1].CanTransitionTo(history[i])
  }

  ghost predicate AllLegal(d: Database) { forall id | id in d.history :: Legal(d.history[id]) }

  lemma LegalSnoc(history: seq<TaskStatus>, end: TaskStatus, next: TaskStatus)
    requires Chronicle(history, end)
    ensures Legal(history + [next]) <==> Legal(history) && end.CanTransitionTo(next)
  {
    var longer := history + [next];
    if Legal(longer) {
      assert longer[|history| - 1].CanTransitionTo(longer[|history|]);
      forall i | 0 < i < |history| ensures history[i - 1].CanTransitionTo(history[i]) { assert longer[i - 1].CanTransitionTo(longer[i]); }
    }
  }

  lemma SaveLegal(d: Database, draft: TaskSummary)
    requires Sound(d) && Draft(d.tasks, draft.id, draft)
    ensures AllLegal(AfterSave(d, draft)) <==> AllLegal(d) && !Overtakes(d, draft)
  {
    WrittenSaves(d, draft);
    hide Sound, Written, Legal, Saved, Draft, AllLegal;
    if Written(d, draft).Some? {
      WrittenKeeps(d, draft);
      OneGrows(d, Written(d, draft).value, draft.id, draft.status);
    }
  }

  lemma OneGrows(d: Database, d': Database, id: TaskId, next: TaskStatus)
    requires Sound(d) && OnlyGrows(d, d', id, next)
    ensures AllLegal(d') <==> AllLegal(d) && StatusOf(d, id).CanTransitionTo(next)
  {
    SoundParts(d);
    hide Sound;
    assert Chronicle(d.history[id], StatusOf(d, id));
    LegalSnoc(d.history[id], StatusOf(d, id), next);
    hide Legal, Chronicle;
    assert forall other | other in d.history && other != id :: d'.history[other] == d.history[other];
    if AllLegal(d') {
      assert Legal(d'.history[id]);
      forall other | other in d.history ensures Legal(d.history[other]) { assert Legal(d'.history[other]); }
    }
  }

  lemma WrittenSaves(d: Database, draft: TaskSummary)
    ensures Written(d, draft).Some? <==> Saved(d.tasks, draft).Ok?
  {}

  lemma SameLegal(d: Database, d': Database)
    requires d'.history == d.history
    ensures AllLegal(d') <==> AllLegal(d)
  {}

  lemma BeginLegal(d: Database, d': Database, id: TaskId)
    requires id !in d.history && d'.history == d.history[id := [Queued]]
    ensures AllLegal(d') <==> AllLegal(d)
  {
    if AllLegal(d') {
      forall other | other in d.history ensures Legal(d.history[other]) { assert Legal(d'.history[other]); }
    }
  }

  lemma RecoveredLegal(d: Database, now: nat)
    requires Sound(d)
    ensures AllLegal(Recovered(d, now)) <==> AllLegal(d)
  {
    SoundParts(d);
    hide Sound, Legal;
    forall id | id in d.history ensures Legal(Recovered(d, now).history[id]) <==> Legal(d.history[id]) {
      RecoveredHistory(d, now, id);
      if ActiveIn(d.tasks, id) {
        ActiveIsNotTerminal(StatusOf(d, id));
        LegalSnoc(d.history[id], StatusOf(d, id), Interrupted);
      } else {
        assert d.history[id] + [] == d.history[id];
      }
    }
  }

  /** What the step of a worker does to the tasks and their histories. */
  lemma WorkDb(s: State, id: TaskId, ok: bool, now: nat)
    requires WorkEnabled(s, id)
    ensures var d, d', w := s.db, Worked(s, id, ok, now).db, s.workers[id];
      && (w.place.Saving? ==> d' == AfterSave(d, w.place.draft))
      && (w.place.Reserved? && d' != d ==> Saved(d.tasks, NewTask(id, w)).Ok? && d'.history == d.history[id := [Queued]])
      && (w.place.Reserved? && d' != d ==> d'.tasks == Saved(d.tasks, NewTask(id, w)).value)
      && (!w.place.Saving? && !w.place.Reserved? ==> d'.tasks == d.tasks && d'.history == d.history)
  {
    hide At, LoadStep, SaveStep, Released, TokenStep, WaiterStep, SelectStep, FilingStep, ExecuteStep, Saved, AfterSave;
  }

  lemma CancelDb(s: State, call: nat, now: nat)
    requires call in s.cancellers
    ensures var d, d', place := s.db, CancelStep(s, call, now).db, s.cancellers[call].place;
      && CancelStep(s, call, now).workers == s.workers
      && (place.Writing? ==> d' == AfterSave(d, place.draft))
      && (!place.Writing? ==> d'.tasks == d.tasks && d'.history == d.history)
  {
    hide Written, Drafted, Resolved, PendingFor;
  }

  lemma WorkLegal(s: State, id: TaskId, ok: bool, now: nat)
    requires Inv(s) && WorkEnabled(s, id)
    ensures AllLegal(Worked(s, id, ok, now).db) <==> AllLegal(s.db) && !Overtaken(s, Work(id, ok, now))
  {
    WorkerParts(s, id);
    WorkDb(s, id, ok, now);
    SoundParts(s.db);
    hide Inv, AllLegal, Sound, Overtakes, Worked, AfterSave, Fits, Draft;
    var w, d' := s.workers[id], Worked(s, id, ok, now).db;
    if w.place.Saving? {
      SavingIs(s.db, id, w.gate, w.place);
      SaveLegal(s.db, w.place.draft);
    } else if w.place.Reserved? && d' != s.db {
      BeginLegal(s.db, d', id);
    } else {
      SameLegal(s.db, d');
    }
  }

  lemma CancelLegal(s: State, call: nat, now: nat)
    requires Inv(s) && call in s.cancellers
    ensures AllLegal(CancelStep(s, call, now).db) <==> AllLegal(s.db) && !Overtaken(s, Cancel(call, now))
  {
    InvParts(s);
    assert CancellerSound(s.db, s.cancellers[call]);
    CancelDb(s, call, now);
    hide Inv, AllLegal, Sound, Overtakes, CancelStep, AfterSave;
    if s.cancellers[call].place.Writing? {
      SaveLegal(s.db, s.cancellers[call].place.draft);
    } else {
      SameLegal(s.db, CancelStep(s, call, now).db);
    }
  }

  /** A step keeps every history a walk of the status machine exactly if it is not an overtaken save. */
  lemma StepLegal(s: State, step: Step)
    requires Inv(s) && Enabled(s, step)
    ensures AllLegal(Apply(s, step).db) <==> AllLegal(s.db) && !Overtaken(s, step)
  {
    hide Inv, AllLegal, Overtaken, Worked, CancelStep;
    match step {
      case Work(id, ok, now) => WorkLegal(s, id, ok, now);
      case Cancel(call, now) => CancelLegal(s, call, now);
      case _ => OtherLegal(s, step);
    }
    hide Apply, Enabled;
  }

  lemma OtherLegal(s: State, step: Step)
    requires Inv(s) && Enabled(s, step) && !step.Work? && !step.Cancel?
    ensures AllLegal(Apply(s, step).db) <==> AllLegal(s.db) && !Overtaken(s, step)
  {
    hide Inv, AllLegal, Overtaken, Apply, Enabled;
    OnlySaves(s, step);
    if step.Restart? {
      RestartLegal(s, step.now);
    } else {
      OtherDb(s, step);
      SameLegal(s.db, Apply(s, step).db);
    }
  }

  lemma RestartLegal(s: State, now: nat)
    requires Inv(s)
    ensures Enabled(s, Restart(now)) && (AllLegal(Apply(s, Restart(now)).db) <==> AllLegal(s.db))
  {
    hide Inv, AllLegal, Sound, Recovered, Booted;
    InvParts(s);
    RecoveredLegal(s.db, now);
    BootedDb(Recovered(s.db, now));
  }

  lemma OnlySaves(s: State, step: Step)
    ensures !step.Work? && !step.Cancel? ==> !Overtaken(s, step)
  {}

  lemma OtherDb(s: State, step: Step)
    requires Enabled(s, step) && !step.Work? && !step.Cancel? && !step.Restart?
    ensures Apply(s, step).db.tasks == s.db.tasks && Apply(s, step).db.history == s.db.history
  {
    hide Resolved;
  }

  /** Once final, a row stays: only an overtaken save writes to it. */
  lemma StepFinal(s: State, step: Step, id: TaskId)
    requires Inv(s) && Enabled(s, step) && id in s.db.tasks && StatusOf(s.db, id).IsTerminal() && !Overtaken(s, step)
    ensures id in Apply(s, step).db.tasks && Apply(s, step).db.tasks[id] == s.db.tasks[id]
  {
    InvParts(s);
    if !step.Work? && !step.Cancel? && !step.Restart? { OtherDb(s, step); }
    hide Inv, Sound, Overtaken, Worked, CancelStep, StartStep, RespondStep, SendStep, BeginCancelStep;
    match step {
      case Work(worker, ok, now) => WorkFinal(s, worker, ok, now, id);
      case Cancel(call, now) => CancelFinal(s, call, now, id);
      case Restart(now) => ActiveIsNotTerminal(StatusOf(s.db, id));
      case _ =>
    }
  }

  lemma SaveFinal(d: Database, draft: TaskSummary, id: TaskId)
    requires Sound(d) && Draft(d.tasks, draft.id, draft) && id in d.tasks && StatusOf(d, id).IsTerminal() && !Overtakes(d, draft)
    ensures id in AfterSave(d, draft).tasks && AfterSave(d, draft).tasks[id] == d.tasks[id]
  {
    WrittenSaves(d, draft);
    ActiveIsNotTerminal(StatusOf(d, id));
    hide Sound, Written, Saved, Draft;
    if Written(d, draft).Some? { WrittenKeeps(d, draft); }
  }

  lemma WorkFinal(s: State, worker: TaskId, ok: bool, now: nat, id: TaskId)
    requires Inv(s) && WorkEnabled(s, worker) && id in s.db.tasks && StatusOf(s.db, id).IsTerminal() && !Overtaken(s, Work(worker, ok, now))
    ensures var d' := Worked(s, worker, ok, now).db; id in d'.tasks && d'.tasks[id] == s.db.tasks[id]
  {
    WorkerParts(s, worker);
    WorkDb(s, worker, ok, now);
    hide Inv, Sound, Overtakes, Worked, AfterSave, Fits, Draft, Saved;
    var w := s.workers[worker];
    if w.place.Saving? {
      SavingIs(s.db, worker, w.gate, w.place);
      SaveFinal(s.db, w.place.draft, id);
    } else if w.place.Reserved? && Saved(s.db.tasks, NewTask(worker, w)).Ok? {
      SavedAdds(s.db.tasks, NewTask(worker, w));
    }
  }

  lemma CancelFinal(s: State, call: nat, now: nat, id: TaskId)
    requires Inv(s) && call in s.cancellers && id in s.db.tasks && StatusOf(s.db, id).IsTerminal() && !Overtaken(s, Cancel(call, now))
    ensures var d' := CancelStep(s, call, now).db; id in d'.tasks && d'.tasks[id] == s.db.tasks[id]
  {
    InvParts(s);
    assert CancellerSound(s.db, s.cancellers[call]);
    CancelDb(s, call, now);
    hide Inv, Sound, Overtakes, CancelStep, AfterSave;
    if s.cancellers[call].place.Writing? { SaveFinal(s.db, s.cancellers[call].place.draft, id); }
  }

  // ---- runs ----

  ghost predicate Runs(s: State, steps: seq<Step>)
    decreases |steps|
  {
    steps == [] || (Enabled(s, steps[0]) && Runs(Apply(s, steps[0]), steps[1..]))
  }

  function After(s: State, steps: seq<Step>): State
    requires Runs(s, steps)
    decreases |steps|
  {
    if steps == [] then s else After(Apply(s, steps[0]), steps[1..])
  }

  /** No save of the run is overtaken. */
  ghost predicate NoneOvertaken(s: State, steps: seq<Step>)
    requires Runs(s, steps)
    decreases |steps|
  {
    steps == [] || (!Overtaken(s, steps[0]) && NoneOvertaken(Apply(s, steps[0]), steps[1..]))
  }

  lemma {:induction false} RunKeeps(s: State, steps: seq<Step>)
    requires Inv(s) && Runs(s, steps)
    ensures Inv(After(s, steps)) && Kept(s.db, After(s, steps).db)
    decreases |steps|
  {
    hide Inv, Kept, Apply, Enabled;
    if steps == [] {
      KeptSelf(s.db);
    } else {
      StepKeeps(s, steps[0]);
      RunKeeps(Apply(s, steps[0]), steps[1..]);
      KeptThrough(s.db, Apply(s, steps[0]).db, After(s, steps).db);
    }
  }

  lemma {:induction false} RunLegal(s: State, steps: seq<Step>)
    requires Inv(s) && Runs(s, steps)
    ensures AllLegal(After(s, steps).db) <==> AllLegal(s.db) && NoneOvertaken(s, steps)
    decreases |steps|
  {
    hide Inv, Apply, Enabled, AllLegal, Overtaken;
    if steps != [] {
      StepKeeps(s, steps[0]);
      StepLegal(s, steps[0]);
      RunLegal(Apply(s, steps[0]), steps[1..]);
    }
  }

  lemma {:induction false} RunFinal(s: State, steps: seq<Step>, id: TaskId)
    requires Inv(s) && Runs(s, steps) && NoneOvertaken(s, steps) && id in s.db.tasks && StatusOf(s.db, id).IsTerminal()
    ensures id in After(s, steps).db.tasks && After(s, steps).db.tasks[id] == s.db.tasks[id]
    decreases |steps|
  {
    hide Inv, Apply, Enabled, Overtaken;
    if steps != [] {
      StepKeeps(s, steps[0]);
      StepFinal(s, steps[0], id);
      RunFinal(Apply(s, steps[0]), steps[1..], id);
    }
  }

  lemma EmptySound()
    ensures Inv(Empty()) && AllLegal(Empty().db)
  {}

  lemma RunSound(steps: seq<Step>)
    requires Runs(Empty(), steps)
    ensures Inv(After(Empty(), steps)) && Sound(After(Empty(), steps).db)
  {
    hide Inv, Kept, Sound;
    EmptySound();
    RunKeeps(Empty(), steps);
    InvParts(After(Empty(), steps));
  }

  /** Over every run and for each task: what was written for it begins with Queued and ends where it stands, and a
      finish time is set exactly on a terminal status. */
  lemma TaskHistory(steps: seq<Step>, id: TaskId)
    requires Runs(Empty(), steps) && id in After(Empty(), steps).db.tasks
    ensures var d := After(Empty(), steps).db;
      && id in d.history && Chronicle(d.history[id], StatusOf(d, id))
      && (d.tasks[id].summary.finishedAt.Some? <==> StatusOf(d, id).IsTerminal())
  {
    hide Runs, After;
    RunSound(steps);
  }

  /** Over every run: each task has walked the status machine if and only if no save was overtaken. */
  lemma HistoriesLegalExactly(steps: seq<Step>)
    requires Runs(Empty(), steps)
    ensures (forall id | id in After(Empty(), steps).db.history :: Legal(After(Empty(), steps).db.history[id]))
      <==> NoneOvertaken(Empty(), steps)
  {
    hide Inv, Runs, After, NoneOvertaken;
    EmptySound();
    RunLegal(Empty(), steps);
  }

  /** Then a terminal status is the last one of its history. */
  lemma TerminalIsLast(history: seq<TaskStatus>, i: nat)
    requires Legal(history) && i < |history| && history[i].IsTerminal()
    ensures i == |history| - 1
  {
    assert i + 1 < |history| ==> history[i + 1 - 1].CanTransitionTo(history[i + 1]);
  }

  /** From any point of any run on, as long as no save is overtaken, a task that has come to a terminal status
      stays exactly as it is. */
  lemma TerminalIsFinal(before: seq<Step>, steps: seq<Step>, id: TaskId)
    requires Runs(Empty(), before) && Runs(After(Empty(), before), steps) && NoneOvertaken(After(Empty(), before), steps)
    requires id in After(Empty(), before).db.tasks && StatusOf(After(Empty(), before).db, id).IsTerminal()
    ensures var d, d' := After(Empty(), before).db, After(After(Empty(), before), steps).db;
      id in d'.tasks && d'.tasks[id] == d.tasks[id]
  {
    hide Inv, Runs, After, NoneOvertaken;
    RunSound(before);
    RunFinal(After(Empty(), before), steps, id);
  }

  /** From any point of any run on no task is lost or takes another identity, and its history only grows. */
  lemma PastIsKept(before: seq<Step>, steps: seq<Step>, id: TaskId)
    requires Runs(Empty(), before) && Runs(After(Empty(), before), steps) && id in After(Empty(), before).db.tasks
    ensures var d, d' := After(Empty(), before).db, After(After(Empty(), before), steps).db;
      && id in d'.tasks && d'.tasks[id].session == d.tasks[id].session && d'.tasks[id].operation == d.tasks[id].operation
      && id in d.history && id in d'.history && d.history[id] <= d'.history[id]
  {
    hide Inv, Runs, After, SoundTasks, ApprovalsSound, ResolutionsFixed;
    RunSound(before);
    RunKeeps(After(Empty(), before), steps);
  }

  /** Over every run: one task per operation, and at most one active task per session. */
  lemma TasksApart(steps: seq<Step>, id: TaskId, other: TaskId)
    requires Runs(Empty(), steps) && id != other
    requires id in After(Empty(), steps).db.tasks && other in After(Empty(), steps).db.tasks
    ensures var tasks := After(Empty(), steps).db.tasks;
      && tasks[id].summary.operation != tasks[other].summary.operation
      && (tasks[id].summary.session.Some? && tasks[id].summary.session == tasks[other].summary.session ==>
            tasks[id].summary.status.IsTerminal() || tasks[other].summary.status.IsTerminal())
  {
    hide Runs, After;
    RunSound(steps);
    ActiveIsNotTerminal(After(Empty(), steps).db.tasks[id].summary.status);
    ActiveIsNotTerminal(After(Empty(), steps).db.tasks[other].summary.status);
  }

  /** Over every run a gated command has been started at most once, and only when its gate needs no approval, or
      someone resolved the approval that it asks for by one of the three approving choices, which it offers; behind a
      Deny gate nothing ever starts. */
  lemma ExecutedOnceAndApproved(steps: seq<Step>, id: TaskId)
    requires Runs(Empty(), steps)
    ensures var d := After(Empty(), steps).db;
      && Executions(d, id) <= 1
      && (Executions(d, id) == 1 ==>
            && id in d.gates && !d.gates[id].Deny?
            && (d.gates[id].Require? ==> ApprovedBy(d, d.gates[id].request)))
  {
    hide Runs, After, SoundTasks;
    RunSound(steps);
    var d := After(Empty(), steps).db;
    if Executions(d, id) == 1 && d.gates[id].Require? { assert ApprovalSound(d, d.gates[id].request.id); }
  }

  /** The approval is stored with an approving choice that was on offer. */
  ghost predicate ApprovedBy(d: Database, request: ApprovalRequest) {
    request.id in d.approvals &&
    var approval := d.approvals[request.id];
    && approval.request == request && approval.status == Approved && approval.resolution.Some?
    && approval.resolution.value.choice in {ApproveOnce, ApproveForTask, ApproveEquivalentForSession} * request.choices
  }

  /** From any point of any run on, a decision stays as it is: whoever resolved the approval first. */
  lemma DecisionsAreFinal(before: seq<Step>, steps: seq<Step>, a: ApprovalId)
    requires Runs(Empty(), before) && Runs(After(Empty(), before), steps)
    requires a in After(Empty(), before).db.approvals && After(Empty(), before).db.approvals[a].status != Pending
    ensures var d, d' := After(Empty(), before).db, After(After(Empty(), before), steps).db;
      a in d'.approvals && d'.approvals[a] == d.approvals[a]
  {
    hide Inv, Runs, After, Sound;
    RunSound(before);
    RunKeeps(After(Empty(), before), steps);
  }

  /** At any point of any run a crash recovery leaves nothing active, and no pending approval of an interrupted task. */
  lemma RestartLeavesNothingOpen(steps: seq<Step>, now: nat)
    requires Runs(Empty(), steps)
    ensures var d := After(Empty(), steps).db; var d' := Apply(After(Empty(), steps), Restart(now)).db;
      && (forall id :: !ActiveIn(d'.tasks, id))
      && (forall a | a in d'.approvals && d'.approvals[a].status == Pending ::
            a in d.approvals && !ActiveIn(d.tasks, d.approvals[a].request.task))
      && Inv(Apply(After(Empty(), steps), Restart(now)))
  {
    var s := After(Empty(), steps);
    hide Inv, Runs, After, Sound, ActiveIn, InterruptedIn;
    RunSound(steps);
    RecoveredKeeps(s.db, now);
    BootedSound(Recovered(s.db, now));
  }

  // ---- how a worker ends ----

  /** Where the task of a worker may stand, as long as no save is overtaken. */
  predicate Possible(place: Place, status: TaskStatus) {
    var moving := if place.Loading? || place.Saving? then Some(place.move) else None;
    if place.Reserved? || place.CleaningUp? then true
    else if place.Stored? || place.Spawned? || moving == Some(ToRunning) then status in {Queued, TaskStatus.Cancelled}
    else if moving == Some(ToCancelled) then status in {Cancelling, TaskStatus.Cancelled}
    else if place.Gated? || place.Executing? || place.InCommand? || place == Responded(true)
      || moving in {Some(ToWaiting), Some(ToCancelling), Some(ToCompleted)}
    then status in {Running, Cancelling, TaskStatus.Cancelled}
    else status in {Running, WaitingForApproval, Cancelling, TaskStatus.Cancelled}
  }

  predicate PlacesPossible(s: State) {
    forall id | id in s.workers :: Possible(s.workers[id].place, StatusOf(s.db, id))
  }

  /** A cancellation from outside goes on to a status that is possible wherever the worker stands. */
  lemma PossibleCancelled(place: Place, status: TaskStatus, next: TaskStatus)
    requires Possible(place, status) && status.CanTransitionTo(next) && next in {TaskStatus.Cancelled, Cancelling}
    ensures Possible(place, next)
  {}

  /** The next place of a worker for which nothing is written. */
  lemma PossibleNext(s: State, id: TaskId, ok: bool, now: nat)
    requires WorkEnabled(s, id) && !s.workers[id].place.Saving? && !s.workers[id].place.Reserved?
    requires Possible(s.workers[id].place, StatusOf(s.db, id))
    ensures var s' := Worked(s, id, ok, now); id in s'.workers ==> Possible(s'.workers[id].place, StatusOf(s.db, id))
  {
    var status, w := StatusOf(s.db, id), s.workers[id];
    match w.place {
      case Loading(move) => PossibleLoaded(s, id, move, now);
      case Spawned => assert Possible(AfterSpawn(s.db, id), status);
      case Gated => assert Possible(AfterGate(w.gate), status);
      case Filing => PossibleFiled(s, id);
      case Decided(resolution) => assert Possible(AfterDecision(s.db, id, resolution), status);
      case Responded(success) => assert Possible(AfterResponse(s.db, id in s.signalled, id, success), status);
      case _ => PossibleSimple(s, id, ok, now);
    }
    hide Possible, LoadStep, FilingStep, AfterSpawn, AfterGate, AfterDecision, AfterResponse, TokenStep, WaiterStep, SelectStep, ExecuteStep, Released;
  }

  lemma PossibleLoaded(s: State, id: TaskId, move: Move, now: nat)
    requires id in s.workers && Possible(Loading(move), StatusOf(s.db, id))
    ensures Possible(LoadStep(s, id, move, now).workers[id].place, StatusOf(s.db, id))
  {
    hide Drafted;
  }

  lemma PossibleFiled(s: State, id: TaskId)
    requires id in s.workers && Possible(Filing, StatusOf(s.db, id))
    ensures Possible(FilingStep(s, id).workers[id].place, StatusOf(s.db, id))
  {
    hide Filed;
  }

  lemma PossibleSimple(s: State, id: TaskId, ok: bool, now: nat)
    requires WorkEnabled(s, id) && Possible(s.workers[id].place, StatusOf(s.db, id))
    requires var place := s.workers[id].place;
      place.Stored? || place.Registering? || place.AwaitingDecision? || place.Refused? || place.Executing? || place.InCommand? || place.CleaningUp?
    ensures var s' := Worked(s, id, ok, now); id in s'.workers ==> Possible(s'.workers[id].place, StatusOf(s.db, id))
  {}

  lemma PossibleSaved(move: Move, status: TaskStatus, ok: bool)
    requires Possible(Loading(move), status)
    ensures status.CanTransitionTo(Target(move)) ==> Possible(AfterMove(move, ok), Target(move))
    ensures Possible(AfterRefusal(move), status)
  {}

  lemma WorkPossible(s: State, id: TaskId, ok: bool, now: nat)
    requires Inv(s) && WorkEnabled(s, id) && PlacesPossible(s) && !Overtaken(s, Work(id, ok, now))
    ensures PlacesPossible(Worked(s, id, ok, now))
  {
    var w, s' := s.workers[id], Worked(s, id, ok, now);
    WorkerParts(s, id);
    WorkOthers(s, id, ok, now);
    WorkOwn(s, id, ok, now);
    hide Inv, Worked, Possible, Overtaken;
    forall other | other in s'.workers ensures Possible(s'.workers[other].place, StatusOf(s'.db, other)) {}
  }

  /** A worker's step leaves the other workers and their tasks alone. */
  lemma WorkOthers(s: State, id: TaskId, ok: bool, now: nat)
    requires Inv(s) && WorkEnabled(s, id)
    ensures var s' := Worked(s, id, ok, now);
      forall other | other in s'.workers && other != id ::
        other in s.workers && s'.workers[other] == s.workers[other] && StatusOf(s'.db, other) == StatusOf(s.db, other)
  {
    WorkerParts(s, id);
    WorkDb(s, id, ok, now);
    var w, s' := s.workers[id], Worked(s, id, ok, now);
    if w.place.Saving? {
      SavingIs(s.db, id, w.gate, w.place);
      SaveStatus(s.db, w.place.draft);
    } else if w.place.Reserved? && Saved(s.db.tasks, NewTask(id, w)).Ok? {
      SavedAdds(s.db.tasks, NewTask(id, w));
    }
    WorkWorkers(s, id, ok, now);
    hide Inv, Worked, Fits, Saved, AfterSave, Draft;
  }

  lemma WorkWorkers(s: State, id: TaskId, ok: bool, now: nat)
    requires WorkEnabled(s, id)
    ensures OneWorker(s, Worked(s, id, ok, now), id)
  {
    var refused := s.(signalled := s.signalled + {id});
    assert OneWorker(s, At(refused, id, Responded(false)), id);
    hide At, Released, StoreStep, TokenStep, WaiterStep, SelectStep, LoadStep, SaveStep, FilingStep, ExecuteStep, OneWorker;
  }

  lemma SaveStatus(d: Database, draft: TaskSummary)
    requires Sound(d) && Draft(d.tasks, draft.id, draft)
    ensures var d' := AfterSave(d, draft);
      && (forall other | other != draft.id :: StatusOf(d', other) == StatusOf(d, other))
      && StatusOf(d', draft.id) == if Saved(d.tasks, draft).Ok? then draft.status else StatusOf(d, draft.id)
  {
    WrittenSaves(d, draft);
    hide Sound, Written, Saved, Draft;
    if Written(d, draft).Some? { WrittenKeeps(d, draft); }
  }

  lemma WorkOwn(s: State, id: TaskId, ok: bool, now: nat)
    requires Inv(s) && WorkEnabled(s, id) && Possible(s.workers[id].place, StatusOf(s.db, id)) && !Overtaken(s, Work(id, ok, now))
    ensures var s' := Worked(s, id, ok, now); id in s'.workers ==> Possible(s'.workers[id].place, StatusOf(s'.db, id))
  {
    WorkerParts(s, id);
    WorkDb(s, id, ok, now);
    hide Inv, Fits, Possible, StoreStep, SaveStep, Overtakes;
    var w := s.workers[id];
    match w.place {
      case Saving(move, draft, seen) =>
        SavingIs(s.db, id, w.gate, w.place);
        SavingPossible(move, draft, seen, StatusOf(s.db, id));
        SavingOwn(s, id, move, draft, ok);
      case Reserved => ReservedOwn(s, id);
      case _ =>
        PossibleNext(s, id, ok, now);
        hide Worked;
    }
  }

  lemma SavingPossible(move: Move, draft: TaskSummary, seen: TaskStatus, status: TaskStatus)
    ensures Possible(Saving(move, draft, seen), status) <==> Possible(Loading(move), status)
  {}

  lemma ReservedOwn(s: State, id: TaskId)
    requires id in s.workers && s.workers[id].place.Reserved?
    ensures var s' := StoreStep(s, id); id in s'.workers ==> Possible(s'.workers[id].place, StatusOf(s'.db, id))
  {}

  lemma SavingOwn(s: State, id: TaskId, move: Move, draft: TaskSummary, ok: bool)
    requires Sound(s.db) && Draft(s.db.tasks, draft.id, draft) && id in s.workers && draft.id == id && draft.status == Target(move)
    requires Possible(Loading(move), StatusOf(s.db, id)) && !Overtakes(s.db, draft)
    ensures var s' := SaveStep(s, id, move, draft, ok); id in s'.workers && Possible(s'.workers[id].place, StatusOf(s'.db, id))
  {
    SaveStatus(s.db, draft);
    WrittenSaves(s.db, draft);
    PossibleSaved(move, StatusOf(s.db, id), ok);
    hide Sound, Draft, Saved, Written, Possible, AfterMove, AfterRefusal, Target;
  }

  lemma CancelPossible(s: State, call: nat, now: nat)
    requires Inv(s) && call in s.cancellers && PlacesPossible(s) && !Overtaken(s, Cancel(call, now))
    ensures PlacesPossible(CancelStep(s, call, now))
  {
    var c, s' := s.cancellers[call], CancelStep(s, call, now);
    InvParts(s);
    assert CancellerSound(s.db, c);
    CancelDb(s, call, now);
    hide Inv, Sound, Possible, CancelStep, Overtakes, AfterSave, Draft;
    if c.place.Writing? {
      SaveStatus(s.db, c.place.draft);
      forall id | id in s'.workers ensures Possible(s'.workers[id].place, StatusOf(s'.db, id)) {
        if id == c.task && Saved(s.db.tasks, c.place.draft).Ok? {
          OvertakesIs(s.db, c.place.draft);
          PossibleCancelled(s.workers[id].place, StatusOf(s.db, id), c.place.draft.status);
        }
      }
    }
  }

  lemma OvertakesIs(d: Database, draft: TaskSummary)
    ensures Overtakes(d, draft) <==> Saved(d.tasks, draft).Ok? && !StatusOf(d, draft.id).CanTransitionTo(draft.status)
  {}

  lemma StepPossible(s: State, step: Step)
    requires Inv(s) && Enabled(s, step) && PlacesPossible(s) && !Overtaken(s, step)
    ensures PlacesPossible(Apply(s, step))
  {
    if !step.Work? && !step.Cancel? && !step.Restart? { OtherDb(s, step); }
    match step {
      case Work(id, ok, now) => WorkPossible(s, id, ok, now);
      case Cancel(call, now) => CancelPossible(s, call, now);
      case _ => OtherPossible(s, step);
    }
  }

  lemma OtherPossible(s: State, step: Step)
    requires Enabled(s, step) && PlacesPossible(s) && !step.Work? && !step.Cancel?
    ensures PlacesPossible(Apply(s, step))
  {
    if !step.Restart? { OtherDb(s, step); }
    assert forall status :: Possible(Reserved, status);
    hide Possible, Resolved, Recovered;
  }

  lemma {:induction false} RunPossible(s: State, steps: seq<Step>)
    requires Inv(s) && PlacesPossible(s) && Runs(s, steps) && NoneOvertaken(s, steps)
    ensures PlacesPossible(After(s, steps))
    decreases |steps|
  {
    hide Inv, Apply, Enabled, Overtaken, PlacesPossible;
    if steps != [] {
      StepKeeps(s, steps[0]);
      StepPossible(s, steps[0]);
      RunPossible(Apply(s, steps[0]), steps[1..]);
    }
  }

  /** Its next step takes the worker out of the run. */
  predicate Ends(s: State, id: TaskId, ok: bool, now: nat)
    requires WorkEnabled(s, id)
  {
    var s' := Worked(s, id, ok, now);
    id !in s'.workers || s'.workers[id].place.CleaningUp?
  }

  /** What leaves a task open behind its worker: the message of a queued task, or the event of a task that has come
      to Running or Cancelling, cannot be published; a cancellation comes between the look at the token and the
      last transition; the token is set while the task still waits for its approval. */
  predicate Abandons(s: State, id: TaskId)
    requires id in s.workers
  {
    match s.workers[id].place
    case Stored => StatusOf(s.db, id) == Queued
    case Saving(move, _, _) => move in {ToRunning, ToCancelling} && !StatusOf(s.db, id).IsTerminal()
    case Loading(move) => move in {ToCancelling, ToCompleted} && StatusOf(s.db, id) == Cancelling
    case Responded(_) => StatusOf(s.db, id) == WaitingForApproval
    case _ => false
  }

  /** Over every run in which no save is overtaken: when a worker comes to its end, its task is terminal if and only
      if none of these has happened. */
  lemma WorkerEndsExactly(steps: seq<Step>, id: TaskId, ok: bool, now: nat)
    requires Runs(Empty(), steps) && NoneOvertaken(Empty(), steps)
    requires var s := After(Empty(), steps);
      && WorkEnabled(s, id) && !s.workers[id].place.Reserved? && !s.workers[id].place.CleaningUp?
      && !Overtaken(s, Work(id, ok, now)) && Ends(s, id, ok, now)
    ensures var s := After(Empty(), steps);
      StatusOf(Worked(s, id, ok, now).db, id).IsTerminal() <==> !Abandons(s, id)
  {
    var s := After(Empty(), steps);
    hide Runs, After, NoneOvertaken, Inv, Overtaken, Worked, PlacesPossible, Ends;
    RunSound(steps);
    EmptySound();
    EmptyPossible();
    RunPossible(Empty(), steps);
    EndsExactly(s, id, ok, now);
  }

  lemma EmptyPossible()
    ensures PlacesPossible(Empty())
  {}

  lemma EndsExactly(s: State, id: TaskId, ok: bool, now: nat)
    requires Inv(s) && PlacesPossible(s) && WorkEnabled(s, id) && !s.workers[id].place.Reserved? && !s.workers[id].place.CleaningUp?
    requires !Overtaken(s, Work(id, ok, now)) && Ends(s, id, ok, now)
    ensures StatusOf(Worked(s, id, ok, now).db, id).IsTerminal() <==> !Abandons(s, id)
  {
    WorkerParts(s, id);
    WorkDb(s, id, ok, now);
    var w := s.workers[id];
    assert Possible(w.place, StatusOf(s.db, id));
    match w.place {
      case Saving(move, draft, seen) =>
        SavingIs(s.db, id, w.gate, w.place);
        SavePlace(s, id, move, draft, ok);
        SavingEnds(s.db, id, move, draft, ok);
      case Loading(move) =>
        LoadDrafts(s.db.tasks, id, Target(move), now);
        LoadingEnds(s, id, move, now);
      case _ => OtherEnds(s, id, ok, now);
    }
  }

  lemma SavePlace(s: State, id: TaskId, move: Move, draft: TaskSummary, ok: bool)
    requires id in s.workers
    ensures id in SaveStep(s, id, move, draft, ok).workers
    ensures SaveStep(s, id, move, draft, ok).workers[id].place
      == if Saved(s.db.tasks, draft).Ok? then AfterMove(move, ok) else AfterRefusal(move)
  {
    WrittenSaves(s.db, draft);
    hide Written, Saved, AfterMove, AfterRefusal;
  }

  lemma SavingEnds(d: Database, id: TaskId, move: Move, draft: TaskSummary, ok: bool)
    requires Sound(d) && Draft(d.tasks, draft.id, draft) && draft.id == id && draft.status == Target(move) && !Overtakes(d, draft)
    requires (if Saved(d.tasks, draft).Ok? then AfterMove(move, ok) else AfterRefusal(move)).CleaningUp?
    ensures StatusOf(AfterSave(d, draft), id).IsTerminal() <==> !(move in {ToRunning, ToCancelling} && !StatusOf(d, id).IsTerminal())
  {
    SaveStatus(d, draft);
    SoundParts(d);
    DraftRow(d.tasks, draft);
    SaveGoesThrough(d, id, draft);
    hide Sound, Draft, Saved, Written, AfterSave, SoundTasks;
  }

  lemma SaveGoesThrough(d: Database, id: TaskId, draft: TaskSummary)
    requires SoundTasks(d.tasks) && Draft(d.tasks, id, draft)
    ensures !StatusOf(d, id).IsTerminal() ==> Saved(d.tasks, draft).Ok?
  {
    SaveKeeps(d.tasks, id, draft);
    ActiveIsNotTerminal(StatusOf(d, id));
    hide SoundTasks, Saved;
  }

  lemma LoadingEnds(s: State, id: TaskId, move: Move, now: nat)
    requires id in s.workers && s.workers[id].place == Loading(move) && id in s.db.tasks && Possible(Loading(move), StatusOf(s.db, id))
    requires Drafted(s.db.tasks, id, Target(move), now).Ok? <==> StatusOf(s.db, id).CanTransitionTo(Target(move))
    requires LoadStep(s, id, move, now).workers[id].place.CleaningUp?
    ensures StatusOf(s.db, id).IsTerminal() <==> !Abandons(s, id)
  {
    hide Drafted;
  }

  lemma OtherEnds(s: State, id: TaskId, ok: bool, now: nat)
    requires WorkEnabled(s, id) && Ends(s, id, ok, now) && Possible(s.workers[id].place, StatusOf(s.db, id))
    requires var place := s.workers[id].place; !place.Reserved? && !place.CleaningUp? && !place.Saving? && !place.Loading?
    ensures StatusOf(s.db, id).IsTerminal() <==> !Abandons(s, id)
  {
    hide Filed;
  }
}
