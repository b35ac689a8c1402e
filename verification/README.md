# FixTrace, modelled and verified in Dafny

FixTrace records the actions of a repair session, replays subsets of them in fresh copies of the project, and
reduces them to a repair trace that it reports as dependency-constrained 1-minimal. Around that stand an event log
with live delivery to clients that may disconnect at any time, and a supervisor of tasks with approval gates. This
project models these parts and proves what they promise. `dafny verify dfyconfig.toml` checks all of it.

## The parts

**The minimizer** (`Actions`, `Dependency`, `Inference`, `Runner`, `Evaluation`, `Ddmin`, `Engine`). Processes are
adversarial: every run of a command or an oracle may fail or end in any way, and differently each time; the
cancellation token may be set at any time and never unset. All results hold for any such behaviour. The main theorem
is the contract of `MinimizeWithGraph`, sharpened for inferred graphs by `Minimize`: the record that a report leaves
justifies every step of its search, and `VerdictsDetermine` shows that no other set could have been reported on the
same record. `NoSmallerRepair` says what 1-minimality amounts to when passing is monotone. `minimize_with_graph`
accepts any graph; on one that leads through an id of no recorded action, removal and normalization disagree, and the
trial is then for the normalized set.
`RemovalAgreesExactly` says for which graphs this cannot happen, and `Infer` yields only such graphs.

**Event delivery** (`EventLog`, `Pages`, `Connection`, `Delivery`, `Client`, `EndToEnd`). The store and the connection
are classes. `Delivery` interleaves publishers, which append first and broadcast later and in any order, a bounded
broadcast that drops its oldest events and then reports a lag, and a connection in which every page read is a step
of its own. `EndToEnd` adds the network and the reconnecting client. The decisions of the connection (`Verdict`,
`OnPage`) and of the client (`OnFrame`) are shared between the classes and the state machines.

**Tasks and approvals** (`Tasks`, `Lifecycle`, `Outcomes`, `Courses`, `Scenarios`). `Tasks` has the tables with their
constraints; `Lifecycle` interleaves `start_task`, `run_task`, `await_task_approval`, responders, `cancel_task`,
shutdown and crash recovery, one statement on the database or map access at a time; in particular `transition_task`
loads in one step and saves in another. The boolean of a work step is the part of the environment: an event was
published, a command succeeded, the select took the decision. What holds in spite of overlapping transitions
(decisions, executions, sound tables) is proved for all runs; that each task walks the status machine is proved to
hold exactly in the runs in which no save is overtaken by another write. `Scenarios` has a run with an overtaken save,
and a run in which a cancellation leaves its task open. `Outcomes` ties Completed and Failed to how the command ended,
over all runs. `Courses` says where each task comes to that nothing disturbs, from any state of a run and for every
gate, decision, cancellation and end of its command.

**Smaller parts.** `Encoding`: the strings behind the snapshot and oracle hashes. `Patch`, `PatchReplay`: the
difference of two trees, the recorded file patch, and exactly when its replay restores the later tree's files.
`Streaming`: chunks, coalescing, and what the client makes of them. `Timeline`, `Snapshot`, `Following`: the
snapshot fold, the client's timeline, and exactly when the two agree with following the whole log.

Five things the code does are worth knowing. A file that became a directory (or the reverse) is recorded as a patch
without complaint, but the patch does not restore it. A client that opens a session while a message is being streamed
misses the words streamed before the snapshot until the message completes. (For both the exact condition is proved.)
A decision on an approval that is made after the approval is stored and before its worker listens is recorded but
never reaches the worker. Two transitions of one task that overlap can take it out of a terminal status. And a worker
can end with its task still open: it stays so until the crash recovery of the next start.

## Model

| member | source | states |
|---|---|---|
| Engine.MinimizeWithGraph | src/minimize/engine.rs:56-135 | For any graph and any run of the processes: an Ok report has a fresh final trial of exactly the reported set that is StablePass, recorded trials of nothing that is StableFail and of everything that is StablePass, evidence of every pass, no Cancelled trial and one per evaluated set. Its record justifies the whole search: round by round ddmin leads from all actions to a passing one-minimal set, the greedy loop from there to the reported set, and for every reported action the set without it (and its dependents) did not pass. "Remained removable" and "unknown action" are never reported; duplicate ids always are. |
| Engine.MinimizeIn | src/minimize/engine.rs:62-134 | Without a report it ends only because a copy of the baseline failed, two actions claim one place in the order, or the trial of nothing, of everything or of the result is on record with an outcome that it must not have. |
| Engine.VerdictsDetermine | src/minimize/engine.rs:71-134 | The recorded verdicts determine the report: no other set is what the two searches come to by them. |
| Engine.Minimize | src/minimize/engine.rs:46-54 | With the inferred graph the reported set is dependency-closed and every ablation trial ran exactly the greatest closed subset without the ablated action. |
| Engine.NoSmallerRepair | src/minimize/engine.rs:124-134 | No proper dependency-closed subset of the reported set passes, unless adding further actions would break it: every such subset lies inside one ablation candidate. |
| Engine.NeededAction | src/minimize/engine.rs:99-114 | The ablation entry of an action refutes the reported set without it. |
| Engine.NewContext | src/minimize/engine.rs:147-167 | A context exists exactly for distinct action ids. |
| Engine.IdMapKeys | src/minimize/engine.rs:153-158 | Collecting into a map loses entries exactly when ids repeat. |
| Engine.Narrow | src/minimize/engine.rs:62-71 | The set that is left passes, is where ddmin comes to from all actions by the recorded verdicts, and has at most one action or is one-minimal; the empty set is on record as failing. Any error has its cause on record. |
| Engine.RemovableAction | src/minimize/engine.rs:74-92 | Yields what the removal of the first removable action leaves, all earlier ones being on record as needed; or all are. |
| Engine.Reduce | src/minimize/engine.rs:72-96 | Terminates with a passing set in which every action is needed, reached by always dropping the first removable action. |
| Engine.AblationPass | src/minimize/engine.rs:98-115 | Starts no trial, never fails, and records one refuted candidate per action. |
| Engine.Constrain | src/minimize/engine.rs:98-135 | When removal and normalization agree on the graph, the ablation trials ran exactly the removal candidates. |
| Evaluation.EvaluationContext.Normalize | src/minimize/engine.rs:212-218 | Computes the closure within the known actions. |
| Evaluation.EvaluationContext.NormalIdempotent | src/minimize/engine.rs:212-218 | Normalizing twice changes nothing, for any graph. |
| Evaluation.EvaluationContext.NormalMonotone | src/minimize/engine.rs:212-218 | Normalizing is monotone, for any graph. |
| Evaluation.EvaluationContext.NormalExtensive | src/minimize/engine.rs:212-218 | Normalizing keeps the known actions of its input. |
| Evaluation.EvaluationContext.RunCandidate | src/minimize/engine.rs:193-208 | Carries out one trial of exactly the listed actions of the candidate; the unknown-action error does not occur; the trial is Cancelled exactly if the token is set by its end. |
| Evaluation.EvaluationContext.Evaluate | src/minimize/engine.rs:169-185 | A memo over an oracle that may answer differently every time: a set on record is answered from the record with nothing carried out, any other is tried once, listed once, and on record from then on. |
| Evaluation.EvaluationContext.EvaluateUncached | src/minimize/engine.rs:187-191 | Adds a fresh trial of exactly the candidate and leaves the memo as it is. |
| Evaluation.VerdictsStay | src/minimize/cache.rs:33-45 | Verdicts on record stay on record. |
| DeltaDebugging.Ddmin | src/minimize/ddmin.rs:18-66 | Terminates after at most 3n(n+1) evaluations for n normalized actions, and as many trials; the result is where the rounds lead from all of them at two pieces, by the recorded verdicts: a normalized subset that passes unless nothing was reduced, of at most one action or one-minimal. |
| Evaluation.KeyDetermines | src/minimize/cache.rs:16-54 | Trials under one cache key have the same actions, baseline, oracle and number of repetitions. |
| DeltaDebugging.NarrowsUnique | src/minimize/ddmin.rs:18-66 | The verdicts determine the result: there is one set that the rounds lead to. |
| DeltaDebugging.OverIsMinimal | src/minimize/ddmin.rs:60-64 | Where the rounds end at the finest cut, every smaller normalized singleton and one-action complement is on record as not passing. |
| DeltaDebugging.CallBoundIs | src/minimize/ddmin.rs:25-64 | The bound that the loop keeps is 3n(n+1). |
| DeltaDebugging.PotentialDrops | src/minimize/ddmin.rs:34-63 | Two evaluations per piece are paid for by every reduction. |
| DeltaDebugging.FirstPassing | src/minimize/ddmin.rs:29-58 | Yields the first smaller normalized candidate that passes, all smaller ones before it being on record as not passing; or all are. |
| DeltaDebugging.Round | src/minimize/ddmin.rs:25-64 | One pass, justified by the record: the first piece that passes; or, all pieces tried in vain, the first complement; or, all complements tried in vain, a finer cut or the end. |
| DeltaDebugging.Partition | src/minimize/ddmin.rs:68-83 | Cuts the listing into the consecutive ranges of the specified sizes. |
| DeltaDebugging.PartitionIsEven | src/minimize/ddmin.rs:68-83 | The pieces are non-empty, disjoint, cover the set, and differ in size by at most one. |
| DeltaDebugging.FinestPieces | src/minimize/ddmin.rs:68-83 | With at least as many pieces as actions each action is a piece of its own. |
| Dependency.Closure | src/minimize/dependency.rs:98-111 | The worklist terminates with the closure. |
| Dependency.ClosureIsClosed | src/minimize/dependency.rs:98-111 | The closure contains its input and all dependencies of its members. |
| Dependency.ClosureIsLeast | src/minimize/dependency.rs:98-111 | It lies inside every closed superset. |
| Dependency.ClosureMonotone | src/minimize/dependency.rs:98-111 | It is monotone. |
| Dependency.ClosureFixedPoints | src/minimize/dependency.rs:98-111 | Exactly the closed sets are their own closure, so closing twice changes nothing. |
| Dependency.Sweep | src/minimize/dependency.rs:120-132 | One sweep adds only actions that must go; it reports a change exactly when it made one, and without a change none is missing. |
| Dependency.RemoveWithDependents | src/minimize/dependency.rs:113-138 | The sweeps terminate with the candidate minus everything that reaches the removed action. |
| Dependency.WithoutIsGreatest | src/minimize/dependency.rs:113-138 | On a closed candidate that is the greatest closed subset without the action. |
| Dependency.NormalizedIdempotent | src/minimize/engine.rs:212-218 | Normalizing is idempotent even when the closure passes through unknown ids. |
| Dependency.RemovalAgreesExactly | src/minimize/engine.rs:72-83 | Every removal candidate is left alone by normalization if and only if no dependency among known actions exists only by way of an unknown id. |
| Dependency.WithoutNormalized | src/minimize/engine.rs:99-103 | On such a graph the trial for a removal candidate runs exactly that candidate. |
| Dependency.EdgesKnownNoDetours | src/minimize/engine.rs:51-53 | A graph whose edges stay among known actions has no such detour. |
| Dependency.DetourExample | src/minimize/engine.rs:56-61 | A graph with an unknown id in between, on which removal and normalization disagree. |
| Inference.Infer | src/minimize/dependency.rs:36-96 | The graph holds for every action exactly the declared dependencies and accesses, and only edges to known actions recorded earlier. A patch requires the creators of its files, a change of directory the creator of that path, both (like every action) whoever last entered their non-empty directory, setting a variable nothing else. |
| Inference.ReadsAre | src/minimize/dependency.rs:141-170 | The resources that the code attributes to each kind of action are the ones in that declaration. |
| Inference.RequiredBy | src/minimize/dependency.rs:46-72 | The looked-up ids are exactly the actions that the declaration requires. |
| Inference.NotePatch | src/minimize/dependency.rs:77-84 | After a patch the creators map holds exactly the first writers since the last deletion of paths that are not in the baseline. |
| Inference.NoteAction | src/minimize/dependency.rs:76-93 | All three maps go on holding exactly the creators, the last setters of a variable and the last entries of a directory. |
| Inference.RequiresEarlier | src/minimize/dependency.rs:30-31 | What the declaration requires was recorded earlier. |
| Inference.ExplainedEdges | src/minimize/dependency.rs:44-96 | A graph that matches the declaration has only edges to known, earlier actions. |
| Inference.CreatorUnique | src/minimize/dependency.rs:80 | A path has at most one creator at a time. |
| Runner.Run | src/replay/runner.rs:123-227 | Whatever the processes do: the trial lists the actions in recording order, and carries out for each attempt a fresh copy, the actions in that order, and the oracle after the last of them; StablePass comes with exactly the configured number of error-free attempts whose oracle exited 0 by itself; the trial is Cancelled exactly if the token is set at its end, else classified by its attempts. It fails only if a copy failed or two actions clash. |
| Runner.Repeat | src/replay/runner.rs:136-211 | Unless the token is set, the attempts are made in full up to the configured number, except that the first error ends the trial. |
| Runner.Attempt | src/replay/runner.rs:140-202 | One attempt: a fresh copy, the actions in order up to the first error, and the oracle exactly if all were replayed. |
| Runner.ReplayActions | src/replay/runner.rs:165-180 | Replays exactly the actions in turn up to the first error or the first cancelled one, and in full otherwise. |
| Runner.EnsureUniqueActions | src/replay/runner.rs:230-242 | Succeeds exactly if no two actions share an id or a place in the order. |
| Runner.OutcomeMeaning | src/replay/runner.rs:244-279 | Tells the five outcomes apart by what the attempts show, each way round; Unresolved exactly if their number is wrong or one ended in an error, without an answer of the oracle, or with one that timed out or was cancelled. |
| Runner.PassesCounts | src/replay/runner.rs:263-271 | The count is zero exactly when no attempt passed, and the length exactly when all did. |
| Actions.SortKeeps | src/replay/runner.rs:130-131 | Sorting is a permutation into recording order. |
| Actions.SortOfSorted | src/replay/runner.rs:130-133 | Sorting again what the context already listed in order changes nothing, so the trial is for that listing. |
| Actions.OrderedIdsFaithful | src/minimize/engine.rs:220-227 | The listing has exactly the known members of the candidate, each once. |
| Actions.OrderedIdsInjective | src/minimize/cache.rs:16-31 | Candidates of known actions that list alike are equal: the cache key determines the candidate. |
| Encoding.HashManifest | src/domain/snapshot.rs:211-236 | Feeds the hasher exactly the specified bytes. |
| Encoding.ManifestBytesInjective | src/domain/snapshot.rs:211-251 | Equal bytes mean equal manifests: all paths and all encoded fields. |
| Encoding.RecordsInjective | src/domain/snapshot.rs:214-235 | Equal record strings list the same paths with the same states. |
| Encoding.StateDelimits | src/domain/snapshot.rs:216-234 | The encoding of a file state delimits itself. |
| Encoding.TextDelimits | src/domain/snapshot.rs:238-241 | So does a length-prefixed text. |
| Encoding.OptionalTextDelimits | src/domain/snapshot.rs:243-251 | So does an optional text. |
| Encoding.OptionalModeDelimits | src/domain/snapshot.rs:222-228 | So does an optional mode. |
| Encoding.LittleEndianInjective | src/domain/snapshot.rs:238-239 | Fixed-width little-endian numbers determine the number. |
| Encoding.LittleEndianReads | src/domain/snapshot.rs:238-239 | Read with the least significant byte first, the bytes say the number. |
| Encoding.HashOracle | src/minimize/cache.rs:47-54 | Feeds the hasher exactly the specified bytes. |
| Encoding.OracleBytesInjective | src/minimize/cache.rs:47-54 | Equal bytes mean equal command and timeout. |
| Encoding.DomainsDisjoint | src/minimize/cache.rs:48 | No manifest and oracle are hashed from the same bytes. |
| EventLog.EventStore.Append | crates/fixtrace-store/src/store.rs:81-159 | Succeeds exactly if the next number is wire-safe and free; then the table differs by exactly that row, which has the given scope and payload and is returned; otherwise nothing changes. Holes never appear. |
| EventLog.AppendReadsBack | crates/fixtrace-store/src/store.rs:81-233 | What was just appended comes back, alone and with its payload, to a reader that had seen all before it. |
| EventLog.AppendsReadBack | crates/fixtrace-store/src/store.rs:81-233 | However appends to different scopes are mixed, each stream holds what it held and behind it what was published in its scope, in order, up to the last wire-safe number. |
| EventLog.EventStore.LoadAfter | crates/fixtrace-store/src/store.rs:161-233 | Reads one page with the watermark and the gap computed from it. |
| EventLog.PageIsRun | crates/fixtrace-store/src/store.rs:161-233 | On a hole-free store a page is the contiguous run behind the cursor and never a gap. |
| EventLog.PageAscends | crates/fixtrace-store/src/store.rs:161-233 | On any store a page ascends behind the cursor; a gap is reported exactly if it does not start right behind it, and names the expected and the next available number. |
| EventLog.PageBegins | crates/fixtrace-store/src/store.rs:161-233 | On any store a page begins with the first row behind the cursor, if there is one; a cursor beyond the wire-safe range reads from its end. |
| EventLog.AppendKeepsHoleFree | crates/fixtrace-store/src/store.rs:97-159 | The stored numbers stay exactly 1 .. next - 1; nothing stored changes. |
| EventLog.AppendSucceeds | crates/fixtrace-store/src/store.rs:81-159 | On a hole-free stream an append fails exactly when its number would leave the wire-safe range. |
| EventLog.RunGrows | crates/fixtrace-store/src/store.rs:161-233 | What was readable stays readable and reads the same. |
| Connection.ConnectionState.RememberRequestId | apps/fixtrace-server/src/connection.rs:163-175 | An id is refused exactly while it is among the last 4096 accepted ones. |
| Connection.ConnectionState.CatchUpFrom | apps/fixtrace-server/src/connection.rs:259-291 | Terminates while others append. On any store it sends everything stored behind the cursor in order: up to the end of the stream when it began, or up to a number that really is missing, which the gap behind the events names. On a hole-free store there is no gap. |
| Connection.SendingMoves | apps/fixtrace-server/src/connection.rs:271-289 | One page of that loop, whether or not rows are missing. |
| Connection.ConnectionState.OnLiveEvent | apps/fixtrace-server/src/connection.rs:208-238 | Only the subscription of the event's session moves, by exactly the frames sent: an old event, or any once it is gapped, sends nothing; the next event is sent alone; a later one starts a catch-up. |
| Connection.ConnectionState.RecoverLagged | apps/fixtrace-server/src/connection.rs:240-257 | Every subscription without a gap passes what was stored at the lag, by exactly the frames sent for its session; on a store with holes it is sent everything up to a missing number and the gap, and is gapped exactly if it was sent one. |
| Connection.ConnectionState.ApplyAction | apps/fixtrace-server/src/connection.rs:177-206 | Subscribing replaces the subscription of its session and starts it with a catch-up, gapped exactly if that sent a gap; unsubscribing removes one. |
| Connection.FrontierStep | apps/fixtrace-server/src/connection.rs:271-289 | One page continues the run; the loop ends exactly when the fixed target is reached. |
| Delivery.StepKeeps | apps/fixtrace-server/src/connection.rs:177-291 | No loss in any interleaving: every step of publishers, broadcast and connection keeps that each event above a cursor is with a publisher, in the buffer, or covered by a lag. |
| Delivery.AppendKeeps | src/application/service.rs:703 | An append, wherever the connection stands, loses nothing: the new event is with its publisher. |
| Delivery.BroadcastKeeps | src/application/service.rs:704 | A broadcast loses nothing: what a full buffer drops is covered by a lag. |
| Delivery.EventKeeps | apps/fixtrace-server/src/connection.rs:208-238 | A received event loses nothing, in or out of order. |
| Delivery.PageKeeps | apps/fixtrace-server/src/connection.rs:259-291 | Each page read between other steps keeps it. |
| Delivery.UnsubscribeEnds | apps/fixtrace-server/src/connection.rs:182-216 | Unsubscribing ends the one subscription; an event of a session without one sends nothing. |
| Delivery.RunKeeps | apps/fixtrace-server/src/connection.rs:177-291 | Over every run. |
| Delivery.QuiescentCursors | apps/fixtrace-server/src/connection.rs:177-291 | Once nothing is on its way each cursor stands at the end of its stream, unless it started beyond it. |
| Client.SubscriptionWorker.AwaitReply | crates/fixtrace-client/src/websocket.rs:206-235 | Succeeds exactly when the reply comes before anything that ends the connection; everything in front of it is dropped, everything behind it left. |
| Client.ReplyExactly | crates/fixtrace-client/src/websocket.rs:206-235 | The reply is the first that names the request, behind text that is no reply to it and pings only. |
| Client.FramesJudged | crates/fixtrace-client/src/websocket.rs:298-330 | A frame is accepted exactly if it is the next event of the session; a later event, and a gap from beyond the cursor, fail it. |
| Client.MessagesJudged | crates/fixtrace-client/src/websocket.rs:294-334 | Accepted events are taken, unreadable text is passed over, anything that is no text ends the connection. |
| Client.NextLiveExactly | crates/fixtrace-client/src/lib.rs:196-216 | The next live item is the first that is not stale; what is behind it is left. |
| Client.SubscriptionWorker.SubscriptionConnection | crates/fixtrace-client/src/websocket.rs:269-336 | With anything arriving, the receiver gets exactly the events that continue its run, and the gap that ends it. |
| Client.SubscriptionWorker.ReconnectingSubscription | crates/fixtrace-client/src/websocket.rs:238-261 | Over any number of connections the receiver gets initial + 1, + 2, ... once each and in order: all that arrive, or a first part of them once it has closed, at whatever point; the delays double up to their maximum. |
| Client.AcceptsNext | crates/fixtrace-client/src/websocket.rs:301-330 | A frame is accepted only when it holds the next event of the session. |
| Client.EventSubscription.AcceptEvent | crates/fixtrace-client/src/lib.rs:219-232 | Accepts exactly the next number. |
| Client.EventSubscription.Recv | crates/fixtrace-client/src/lib.rs:181-217 | Over any sequence of calls the application sees start + 1, + 2, ... without repetition or hole; each call yields the initial gap, else the first event held back, else the first live item that is news. |
| Client.SubscribeInProcess | crates/fixtrace-client/src/lib.rs:110-146 | On a hole-free store the pages read are everything stored at the first read, without a gap. |
| EndToEnd.MoveKeeps | crates/fixtrace-client/src/websocket.rs:189-336 | Every step of server, network and client keeps that what is under way is the run from the client's cursor to the server's. |
| EndToEnd.AwaitingKeeps | crates/fixtrace-client/src/websocket.rs:206-216 | Frames dropped while the subscribe reply is awaited lose nothing. |
| EndToEnd.StreamingKeeps | crates/fixtrace-client/src/websocket.rs:294-334 | A frame for the session is the event the client waits for; the gap branches are not taken. |
| EndToEnd.ServeAdvances | apps/fixtrace-server/src/connection.rs:177-291 | A server step moves the cursor by exactly the frames it adds. |
| EndToEnd.PlayKeeps | crates/fixtrace-client/src/websocket.rs:238-336 | Over every run. |
| EndToEnd.ExactlyOnceInOrder | crates/fixtrace-client/src/websocket.rs:238-336 | Across any number of drops and reconnects the accepted events are exactly the stored start + 1 .. cursor, and no gap is raised. |
| EndToEnd.QuiescentClientComplete | crates/fixtrace-client/src/websocket.rs:238-336 | Once nothing is on its way the connected client has everything. |
| Tasks.TransitionsAre | crates/fixtrace-protocol/src/task.rs:44-65 | The status machine, pair by pair. |
| Tasks.ActiveIsNotTerminal | crates/fixtrace-protocol/src/task.rs:37-65 | Active statuses are the non-terminal ones, exactly those that can be interrupted; terminal ones are absorbing. |
| Tasks.SaveNew | crates/fixtrace-store/src/store.rs:235-262 | A new task is stored exactly when its operation is new and its session has no active task. |
| Tasks.LoadDrafts | crates/fixtrace-store/src/store.rs:369-384 | The load lets exactly the transitions of the status machine through, with a finish time exactly on the terminal ones. |
| Tasks.UpsertIs | crates/fixtrace-store/src/store.rs:235-262 | An upsert leaves the session and operation of a row that is there, whatever is written. |
| Tasks.SaveKeeps | crates/fixtrace-store/src/store.rs:385 | Whatever was written since the load: the tables stay sound, only the one row changes, and only a row that is terminal by now can be refused, for another active task of its session. |
| Tasks.TransitionKeeps | crates/fixtrace-store/src/store.rs:364-387 | A transition that nothing comes between succeeds exactly when the status machine has it, and keeps the tables sound; the start is set by the first run, the end by a terminal status, which also ends that the task can be cancelled. |
| Tasks.OverlapExactly | crates/fixtrace-store/src/store.rs:369-385 | Of two transitions that loaded the same row the second save always goes through, and is what a transition after the first would have been if and only if the status machine goes from the first target to the second and no first start time is lost. |
| Tasks.InterruptKeeps | crates/fixtrace-store/src/store.rs:314-362 | Recovery interrupts exactly the active tasks and expires exactly their pending approvals. |
| Tasks.FiledOnce | crates/fixtrace-store/src/store.rs:389-409 | An approval is filed once, pending. |
| Tasks.ResolvedOnce | crates/fixtrace-store/src/store.rs:517-554 | It is resolved once, from pending, by the first resolution as it is. |
| Tasks.StaleSaveLeavesTerminal | crates/fixtrace-store/src/store.rs:369-385 | So a Completed task can become Cancelling again. |
| Tasks.TaskStore.SaveTask | crates/fixtrace-store/src/store.rs:235-262 | Upserts, or changes nothing when a uniqueness constraint breaks. |
| Tasks.TaskStore.TransitionTask | crates/fixtrace-store/src/store.rs:364-387 | Loads, lets others write anything, and saves what it drafted over what it finds; with nothing written to the row in between it is one step of the status machine. |
| Tasks.TaskStore.InterruptActiveTasks | crates/fixtrace-store/src/store.rs:317-362 | Always succeeds on sound tables, in one transaction. |
| Tasks.TaskStore.SaveApproval | crates/fixtrace-store/src/store.rs:389-409 | Files a pending approval under a new id. |
| Tasks.TaskStore.ResolveApproval | crates/fixtrace-store/src/store.rs:517-554 | The first resolution is written; every later one is refused and changes nothing. |
| Lifecycle.StepKeeps | src/application/protocol.rs:926-1297 | Every statement and map access of starting, running, responding, cancelling, shutdown and recovery, with loads and saves of transitions apart, keeps the invariant; no decision changes, no task is lost, no history shrinks. |
| Lifecycle.WrittenKeeps | crates/fixtrace-store/src/store.rs:385 | A save keeps everything however old its load is; only its row and its history change. |
| Lifecycle.FilingKeeps | src/application/protocol.rs:1165 | Filing the request of a gate keeps the invariant and changes no decision. |
| Lifecycle.ResolvedKeeps | src/application/protocol.rs:437-457 | A resolution that the store accepts is on record, with the status that goes with its choice, and no other decision changes. |
| Lifecycle.DecisionClears | src/application/protocol.rs:1183-1214 | An approving decision that a worker was handed stands Approved in the store, for the request of its own gate. |
| Lifecycle.ExecuteKeeps | src/application/protocol.rs:1053-1066 | Starting the command keeps the invariant: its worker was cleared and had not started it before. |
| Lifecycle.SaveStepKeeps | src/application/protocol.rs:1045-1052 | Wherever a worker saves a transition, and whatever was written since it loaded, it goes on to a place that it fits. |
| Lifecycle.WritingKeeps | src/application/protocol.rs:1250-1253 | So does a cancellation from outside. |
| Lifecycle.RecoveredKeeps | crates/fixtrace-store/src/store.rs:314-362 | A crash recovery keeps the tables sound and leaves nothing active and no pending approval of an interrupted task. |
| Lifecycle.RunKeeps | src/application/protocol.rs:926-1297 | Over every run. |
| Lifecycle.TaskHistory | src/application/protocol.rs:926-1297 | Over every run the statuses written for a task begin with Queued and end where it stands, and its finish time is set exactly on a terminal status. |
| Lifecycle.StepLegal | crates/fixtrace-protocol/src/task.rs:44-65 | A step keeps every history a walk of the status machine exactly if it is not a save that another write has overtaken. |
| Lifecycle.HistoriesLegalExactly | crates/fixtrace-protocol/src/task.rs:44-65 | Over every run each task has walked the status machine if and only if no save was overtaken. |
| Lifecycle.FreshSaves | crates/fixtrace-store/src/store.rs:369-385 | A save that finds the status that its load saw is not overtaken. |
| Lifecycle.TerminalIsLast | crates/fixtrace-protocol/src/task.rs:37-65 | In such a walk a terminal status is the last. |
| Lifecycle.StepFinal | crates/fixtrace-protocol/src/task.rs:37-42 | Only an overtaken save changes a terminal row. |
| Lifecycle.TerminalIsFinal | crates/fixtrace-protocol/src/task.rs:37-65 | From any point of any run on without an overtaken save, a terminal task stays exactly as it is. |
| Lifecycle.PastIsKept | crates/fixtrace-store/src/store.rs:235-262 | From any point of any run on no task is lost or changes its session or operation, and its history only grows. |
| Lifecycle.TasksApart | crates/fixtrace-store/src/migrations.rs:78-97 | Over every run one task per operation and at most one active task per session. |
| Lifecycle.ExecutedOnceAndApproved | src/application/protocol.rs:437-443 | Over every run, overlapping transitions or not, a command starts at most once, never behind a Deny gate, and behind an approval gate only if someone resolved the stored approval by one of the three approving choices that it offers. |
| Outcomes.FinalStatusIsTrue | src/application/protocol.rs:1110-1135 | Over every run a task that was ever Completed had its command started once, cleared by its gate, and the command succeeded; a task that was ever Failed had none that did. |
| Outcomes.StepHonest | src/application/protocol.rs:1053-1135 | Every step keeps that nobody claims an outcome that the command did not have. |
| Outcomes.OneWorkerPerSession | src/application/protocol.rs:957-966 | Over every run no two workers are at one session at a time. |
| Courses.StartCourse | src/application/protocol.rs:957-1031 | From any state of a run, a start with no other task in the way is stored as a queued task, with its session reserved and its token at hand. |
| Courses.StartRefused | src/application/protocol.rs:982-989 | Any other leaves nothing stored and its session free. |
| Courses.AllowedCourse | src/application/protocol.rs:1040-1153 | From any state, undisturbed: a task with nothing to approve runs its command once and ends Completed if that succeeds, Failed if not; its worker is gone and its session free. |
| Courses.DeniedCourse | src/application/protocol.rs:1058-1135 | One that the policy forbids ends Failed with nothing started. |
| Courses.AskingCourse | src/application/protocol.rs:1156-1182 | One that needs an approval comes to wait for it, the approval pending in the store and nothing started. |
| Courses.ApprovedCourse | src/application/protocol.rs:1183-1214 | Any approving choice: the command runs once, the task ends as it does, and the choice is on record. |
| Courses.RefusedCourse | src/application/protocol.rs:1215-1234 | A denial or withdrawal: Cancelled with nothing started, and the choice on record. |
| Courses.CancelledWaitingCourse | src/application/protocol.rs:1237-1297 | Cancelled while it waits: the approval is withdrawn and nothing started. |
| Courses.CancelledEarlyCourse | src/application/protocol.rs:1237-1297 | Cancelled before its worker begins: Cancelled at once, and nothing started. |
| Courses.CancelledLateCourse | src/application/protocol.rs:1074-1109 | Cancelled while its command runs: Cancelled, however that ends. |
| Courses.CancelRefused | src/application/protocol.rs:1245-1253 | A cancellation that the status machine does not have is refused and does nothing. |
| Courses.ShutdownCourse | src/application/protocol.rs:1080-1101 | So is a task whose command runs at a shutdown. |
| Courses.UnpublishedCourse | src/application/protocol.rs:1191-1231 | When the event of a resumption or refusal cannot be published the task ends Failed with nothing started. |
| Lifecycle.DecisionsAreFinal | src/application/protocol.rs:426-475 | From any point of any run a decision stays as it is. |
| Lifecycle.RestartLeavesNothingOpen | crates/fixtrace-store/src/store.rs:314-362 | At any point of any run recovery leaves nothing active and no pending approval of an interrupted task. |
| Lifecycle.WorkerEndsExactly | src/application/protocol.rs:1074-1153 | Over every run without an overtaken save: when a worker ends, its task is terminal if and only if no publication failed on the way, no cancellation came between its look at the token and its last transition, and its token was not set while it waited for an approval. |
| Lifecycle.RunPossible | src/application/protocol.rs:1040-1136 | Over such runs the status of a task is always one of those that belong to the place of its worker. |
| Courses.LostCourse | src/application/protocol.rs:1045-1052 | When the event of the transition to Running, or to Cancelling at a shutdown, cannot be published, the worker ends there and leaves the task in that status. |
| Courses.UnspawnedCourse | src/application/protocol.rs:1000-1018 | When the message of a new task cannot be published its worker never comes up, and its session stays taken. |
| Courses.UnaskedCourse | src/application/protocol.rs:1162-1182 | When the request of a gate cannot be filed or published the task ends Failed with nothing started. |
| Courses.TooEarly | src/application/protocol.rs:1162-1182 | A decision stored and sent between the filing of the approval and the registration of its waiter finds nobody: the worker then waits although the decision is on record. |
| Courses.StrandedForever | src/application/protocol.rs:1183-1188 | And it waits, without a step to make, over every run in which its token is not set and the program not restarted. |
| Scenarios.LateCancelReopens | src/application/protocol.rs:1237-1253 | A run whose last step is an overtaken save: a completed task is Cancelling again. |
| Scenarios.CancelBetweenAbandons | src/application/protocol.rs:1074-1109 | A run without an overtaken save whose worker ends with its task still Cancelling. |
| Patch.DiffersExactly | src/domain/snapshot.rs:89-100 | Contents differ exactly if the entries differ in more than their modes. |
| Patch.ChangesAre | src/domain/snapshot.rs:78-113 | Path by path: created, modified in content, modified in mode; together, whatever is there and is not the same as before. |
| Patch.Diff | src/domain/snapshot.rs:78-113 | Lists exactly the created, deleted, content- and mode-modified paths, in order. |
| Patch.SameContentExactly | src/domain/snapshot.rs:115-125 | The count and one-way check holds exactly when nothing is created, deleted or modified in content. |
| Patch.SameContentIsEquivalence | src/domain/snapshot.rs:115-125 | It is reflexive, symmetric and transitive. |
| Patch.ReplacementsBetween | src/recorder/patch.rs:11-67 | Succeeds exactly when no changed path is a symbolic link or a file that is not UTF-8, with one write per changed file and one deletion per vanished path; otherwise the first offending path is reported. |
| Patch.RestoreChanged | src/recorder/patch.rs:26-53 | The loop over changed paths. |
| Patch.FirstProblemIs | src/recorder/patch.rs:28-52 | The first changed path that is neither a directory nor a text file decides the error: a symbolic link cannot be replayed, other bytes are not UTF-8. |
| Patch.DeleteDropped | src/recorder/patch.rs:54-65 | The loop over deleted paths; symbolic links stay. |
| Patch.Workspace.SafeWritePath | src/sandbox/local_copy.rs:116-143 | Refuses at the first symbolic link or file on the way. |
| Patch.RefusalFromExactly | src/sandbox/local_copy.rs:116-143 | A path is let through exactly when there is no symbolic link on it and no file above it. |
| Patch.RefusalIs | src/sandbox/local_copy.rs:116-143 | It is refused as unsafe for a symbolic link that comes first on the way, and otherwise for a file above it. |
| Patch.Workspace.ApplyFileReplacement | src/replay/executor.rs:271-300 | Writes or deletes as specified, or fails and changes nothing. |
| Patch.Workspace.Replay | src/replay/executor.rs:149-154 | Applies the list in order up to the first failure. |
| PatchReplay.WriteExactly | src/replay/executor.rs:274-284 | A write succeeds exactly on a clear path that is not a directory, and touches only the path and missing parents. |
| PatchReplay.DeleteExactly | src/replay/executor.rs:285-298 | A deletion takes the path and what is below it. |
| PatchReplay.WriteTouches | src/replay/executor.rs:271-284 | Entry by entry: the text under its path with the recorded, former or new mode, missing directories above, all else as it was. |
| PatchReplay.DeleteTouches | src/replay/executor.rs:285-298 | Entry by entry: the path and all below a directory gone, all else as it was. |
| PatchReplay.PatchRestores | src/replay/executor.rs:271-300 | With no kind changed the patch applies and yields exactly the regular files of the later tree, contents and modes. |
| PatchReplay.KindChangeBreaks | src/replay/executor.rs:271-300 | With a kind changed it fails or leaves other regular files. |
| PatchReplay.PatchRestoresExactly | src/recorder/patch.rs:11-67 | So it restores the regular files if and only if no kind changed. |
| PatchReplay.FileStays | src/recorder/patch.rs:44 | A file that became a directory is in no patch and stays. |
| PatchReplay.ChangedWriteRefused | src/sandbox/local_copy.rs:124-130 | A changed file behind a former symbolic link or directory makes the patch fail. |
| Streaming.TextChunks | src/agent/loop_runner.rs:350-366 | The chunks join to the text; all are full but the last, which is not empty. |
| Streaming.Coalescer.CoalescedProgressPayloads | src/application/service.rs:711-751 | One call as specified; less than 256 bytes are kept back between calls. |
| Streaming.CoalescedConserves | src/application/service.rs:711-751 | One call neither loses, adds nor reorders text. |
| Streaming.StreamConserves | src/application/service.rs:711-751 | Over any sequence of calls emitted and kept-back events are, with adjacent deltas of one message put together, exactly the reported ones. |
| Streaming.StreamAnnounces | src/application/service.rs:711-751 | Over any sequence of calls every other progress event goes out, in order and as it is. |
| Streaming.StreamSpeaks | src/application/service.rs:711-751 | And of each message exactly the reported text, up to what is kept back. |
| Streaming.KeptBack | src/application/service.rs:711-751 | Text is kept back exactly until it has 256 bytes or something else comes. |
| Streaming.StoryFused | apps/fixtrace-tui/src/model.rs:400-410 | What an item shows does not depend on how its deltas were cut. |
| Streaming.DeltasRebuildMessage | src/application/service.rs:667-679 | Whatever was pending and however the chunks were merged, the deltas received before a message completes rebuild exactly its text. |
| Streaming.EmitMessage | src/agent/loop_runner.rs:276-291 | The reporting block through the coalescer, as the client's timeline shows it before and after the completion. |
| Timeline.AppliedShows | apps/fixtrace-tui/src/model.rs:395-410 | An event changes exactly the item it names; no id appears twice. |
| Timeline.AppliedKeepsOrder | apps/fixtrace-tui/src/model.rs:340-356 | Entries keep their places; a new one comes last. |
| Timeline.UpsertedShows | apps/fixtrace-tui/src/model.rs:340-356 | An upsert shows the new item and leaves all others. |
| Timeline.ReplayedShows | apps/fixtrace-tui/src/model.rs:358-440 | Over any events the list shows each item's own story. |
| Timeline.SnapshotShows | src/application/protocol.rs:838-848 | The snapshot shows the last start or completion of each item. |
| Timeline.StoryIs | apps/fixtrace-tui/src/model.rs:395-410 | Following the whole log shows the last start or completion and the text streamed since. |
| Timeline.StoriesMeet | apps/fixtrace-tui/src/model.rs:395-410 | Views that differ by streamed text agree again exactly from the next start or completion on. |
| Timeline.ConvergesExactly | src/application/protocol.rs:838-848 | Snapshot and tail show an item like the whole log if and only if no text was streamed to it between its last start or completion and the watermark, or it is started or completed again. |
| Timeline.SnapshotLosesText | src/application/protocol.rs:838-848 | A log on which the snapshot of a streaming message lacks its first words. |
| Timeline.SnapshotAndTailConverge | src/application/protocol.rs:838-848 | The same over a stored stream, split at the watermark. |
| Timeline.Find | apps/fixtrace-tui/src/model.rs:347-351 | Finds the first entry of an id. |
| Timeline.Model.UpsertTimeline | apps/fixtrace-tui/src/model.rs:340-356 | Replaces the entry of the id in place, or appends. |
| Timeline.Model.ApplyEvent | apps/fixtrace-tui/src/model.rs:358-410 | The item and delta arms. |
| Timeline.Model.OnServerEvent | apps/fixtrace-tui/src/update.rs:15-25 | Events of other sessions and old ones change nothing. |
| Snapshot.SessionSnapshot | src/application/protocol.rs:806-848 | While others append, for a watermark w that the stream had reached: the fold of everything stored up to w, or a gap exactly when nothing is stored under w itself; over a log without holes the fold of the events 1 .. w, never a gap. |
| Snapshot.OpenLog | src/application/protocol.rs:808-818 | The first page is not empty, holes or not; an untouched log gets its first event, with the summary; any other is left as it is; it fails only if the store refuses that event. |
| Snapshot.Collect | src/application/protocol.rs:819-836 | Collects everything stored up to the fixed watermark and terminates; a gap exactly when the watermark has no row. |
| Pages.PageIsBetween | crates/fixtrace-store/src/store.rs:161-233 | A page is a first part of what is stored behind the cursor, holes or not. |
| Pages.PageContinues | crates/fixtrace-store/src/store.rs:161-233 | A page continues what was read before it. |
| Snapshot.NextPage | src/application/protocol.rs:824-835 | Each page, cut at the watermark, brings the collection on; it is empty exactly when the rest up to the watermark is missing. |
| Snapshot.Fold | src/application/protocol.rs:838-848 | Folds the starts and completions into the map. |
| Following.TimelineConverges | apps/fixtrace-tui/src/update.rs:94-109 | Snapshot, store, broadcast, connection and reconnecting client together, publishers being anywhere between append and broadcast from the start: over any run the client shows each item as a replay of the log does, under exactly the condition above. |

## Left out

- Runner.Run: process spawning, shell execution, signals, time limits and directory copies are an arbitrary result per call; copying the baseline may fail or mismatch arbitrarily.
- Inference.Infer: the reads and writes of a shell command are given per action; the word parsing behind them is not modelled.
- Engine.MinimizeWithGraph: progress events and the fixed `statement` text are not modelled.
- Encoding.ManifestBytesInjective: SHA-256 is represented by the bytes that it is fed; that it does not collide is not a claim here. The refusal of paths that are not UTF-8 is not modelled: paths and texts are byte strings.
- Connection.ConnectionState.CatchUpFrom: store reads succeed, and `load_after` is one step; the code's error returns from a failing database are not modelled.
- Delivery.StepKeeps: assumes the same of the store; a publisher that crashes between append and broadcast is one that never broadcasts.
- EndToEnd.ExactlyOnceInOrder: an error reply to the subscribe request is a dropped connection, as the client treats it; authentication and the initialize handshake belong to connecting. Delivery is not claimed to happen eventually.
- Client.EventSubscription.Recv: the in-process client proves contiguity of what it accepts; under broadcasts out of order it may report a gap that is none, and no claim is made against that.
- Snapshot.SessionSnapshot: requires wire-safe numbers below the next one, which appending alone guarantees, holes or not; over rows numbered beyond that range the paging of the code need not end. The other parts of a session snapshot (actions, trials, usage, diff) are plain copies.
- Lifecycle.StepKeeps: task and approval ids are fresh. An equivalent earlier approval turns a gate into Allow before the task starts; that choice is the environment's. Fairness is not claimed: what is said of every run is safety, and `Courses` follows a worker that gets its turns.
- DeltaDebugging.Ddmin: is stated for the evaluation context, the one tester in the program; the source's function takes any.
- Tasks.SaveNew: columns that no rule reads (kind, title, progress) are not modelled.
- PatchReplay.PatchRestoresExactly: directory modes, which the patch does not restore, and file-system failures such as missing permissions are not part of the statement; newly created directories get a fixed mode. Unix modes are assumed present. Paths are sequences of normal components, so the refusal of absolute and parent paths is not modelled.
- Timeline.ConvergesExactly: compares item by item; the order of the list differs (the snapshot lists by id). Arms of `apply_event` that do not touch the timeline are not modelled.
- The provider of the language model, prompts, pricing in floating point, configuration and token files, writer locks: nothing to prove that would not be easy.
- Rendering, key handling, pagination, preview truncation, status labels and error-code mapping: easy members.
- Database and JSON libraries: tables are maps with their uniqueness constraints, JSON is the identity.
