/** `minimize` and `minimize_with_graph` (src/minimize/engine.rs): what a returned report guarantees,
    for any dependency graph and for processes that may behave in any way on every run. */
module Engine {
  import opened Common
  import opened Actions
  import opened Dependency
  import opened Inference
  import opened Runner
  import opened Evaluation
  import opened DeltaDebugging

  datatype AblationEvidence = AblationEvidence(
    removedActionId: Id, candidateActionIds: seq<Id>, trialId: nat, outcome: TrialOutcome)

  datatype MinimizationReport = MinimizationReport(
    baselineHash: string, emptyTrial: Trial, fullTrial: Trial, minimalActionIds: seq<Id>,
    ablations: seq<AblationEvidence>, finalTrial: Trial, trials: seq<Trial>, dependencyGraph: Graph)

  // ---- the map from ids to actions ----

  /** Collecting into a map: a later action replaces an earlier one with its id. */
  function IdMap(actions: seq<Action>): map<Id, Action> {
    if actions == [] then map[]
    else IdMap(actions[..|actions| - 1])[actions[|actions| - 1].id := actions[|actions| - 1]]
  }

  lemma {:induction false} IdMapKeys(actions: seq<Action>)
    ensures KeyedById(IdMap(actions))
    ensures IdMap(actions).Keys == Elements(Ids(actions))
    ensures |IdMap(actions)| <= |actions|
    ensures |IdMap(actions)| == |actions| <==> Distinct(Ids(actions))
  {
    if actions != [] {
      var front, last := actions[..|actions| - 1], actions[|actions| - 1];
      IdMapKeys(front);
      assert actions == front + [last];
      assert Ids(actions) == Ids(front) + [last.id];
      assert IdMap(actions).Keys == IdMap(front).Keys + {last.id};
      DistinctSnoc(Ids(front), last.id);
    }
  }

  // ---- what a report certifies ----

  ghost function MinimalSet(report: MinimizationReport): set<Id> { Elements(report.minimalActionIds) }

  /** The journal of the search: all trials but the last, fresh one. */
  ghost function LogOf(report: MinimizationReport, actions: map<Id, Action>): Journal
    requires report.trials != []
  {
    Journal(actions, report.dependencyGraph, report.trials[..|report.trials| - 1])
  }

  /** What is left of `minimal` without its action at position `k` in recording order, and without its dependents. */
  ghost function Left(j: Journal, minimal: set<Id>, k: nat): set<Id>
    requires k < |j.Ordered(minimal)|
  {
    Without(j.graph, minimal, j.Ordered(minimal)[k])
  }

  /** None of the first `n` actions can go. */
  ghost predicate Needed(j: Journal, minimal: set<Id>, n: nat)
    requires n <= |j.Ordered(minimal)|
  {
    forall k | 0 <= k < n :: j.Refuted(j.Normal(Left(j, minimal, k)))
  }

  ghost predicate AllNeeded(j: Journal, minimal: set<Id>) { Needed(j, minimal, |j.Ordered(minimal)|) }

  /** `smaller` is what the removal of the first removable action leaves. */
  ghost predicate Drops(j: Journal, minimal: set<Id>, smaller: set<Id>) {
    exists k :: 0 <= k < |j.Ordered(minimal)| && smaller == Left(j, minimal, k) && j.Passes(j.Normal(smaller)) && Needed(j, minimal, k)
  }

  ghost predicate DropWalk(j: Journal, path: seq<set<Id>>) {
    forall i | 0 <= i < |path| - 1 :: Drops(j, path[i], path[i + 1])
  }

  /** `end` is where the greedy loop comes to from `start`, going by the recorded verdicts. */
  ghost predicate Reduces(j: Journal, start: set<Id>, end: set<Id>) {
    AllNeeded(j, end) && exists path: seq<set<Id>> :: path != [] && DropWalk(j, path) && path[0] == start && path[|path| - 1] == end
  }

  /** Delta debugging led to a set that passed and is one-minimal, and the greedy loop from there to the reported set;
      every verdict on the way is on record. */
  ghost predicate Searched(j: Journal, minimal: set<Id>) {
    exists narrowed: set<Id> ::
      && minimal <= narrowed <= j.actions.Keys && j.Passes(narrowed)
      && (|narrowed| <= 1 || OneMinimal(j, narrowed))
      && Narrows(j, j.actions.Keys, narrowed) && Reduces(j, narrowed, minimal)
  }

  /** The entry shows a trial of the candidate without its action (and dependents) that did not pass. */
  ghost predicate OnRecord(j: Journal, minimal: set<Id>, e: AblationEvidence) {
    && e.candidateActionIds == j.Ordered(j.Normal(Without(j.graph, minimal, e.removedActionId)))
    && e.outcome != StablePass
    && exists t | t in j.trials :: t.id == e.trialId && t.actionIds == e.candidateActionIds && t.outcome == e.outcome
  }

  /** One entry per action of the reported set, in its order. */
  ghost predicate Ablated(report: MinimizationReport, actions: map<Id, Action>)
    requires report.trials != []
  {
    && |report.ablations| == |report.minimalActionIds|
    && forall i | 0 <= i < |report.ablations| ::
         && report.ablations[i].removedActionId == report.minimalActionIds[i]
         && OnRecord(LogOf(report, actions), MinimalSet(report), report.ablations[i])
  }

  /** Each candidate was tried once. */
  ghost predicate OncePerCandidate(j: Journal) {
    forall a, b | 0 <= a < b < |j.trials| :: j.trials[a].actionIds != j.trials[b].actionIds
  }

  ghost predicate Certified(report: MinimizationReport, actions: map<Id, Action>, runner: TrialRunner) {
    && report.trials != [] && report.trials[|report.trials| - 1] == report.finalTrial
    && OncePerCandidate(LogOf(report, actions))
    && report.minimalActionIds == OrderedIds(actions, MinimalSet(report))
    && MinimalSet(report) <= actions.Keys && MinimalSet(report) != {}
    && report.emptyTrial.outcome == StableFail && report.emptyTrial.actionIds == []
    && report.emptyTrial in LogOf(report, actions).trials
    && report.fullTrial.outcome == StablePass && report.fullTrial.actionIds == OrderedIds(actions, actions.Keys)
    && report.fullTrial in LogOf(report, actions).trials
    && report.finalTrial.outcome == StablePass && report.finalTrial.actionIds == report.minimalActionIds
    && Searched(LogOf(report, actions), MinimalSet(report))
    && Ablated(report, actions)
    && report.baselineHash == runner.baselineHash
    && (forall t | t in report.trials ::
          t.outcome != Cancelled && PassEvidence(t, runner.repetitions) && t.baselineHash == runner.baselineHash)
  }

  /** The reported set is normalized, and each ablation ran exactly what removal leaves of it. */
  ghost predicate DependencyConstrained(report: MinimizationReport, actions: map<Id, Action>) {
    var g, m := report.dependencyGraph, MinimalSet(report);
    && Normalized(g, actions.Keys, m) == m
    && forall i | 0 <= i < |report.ablations| ::
         report.ablations[i].candidateActionIds == OrderedIds(actions, Without(g, m, report.ablations[i].removedActionId))
  }

  // ---- the walk of the greedy loop ----

  lemma NeededStays(j: Journal, more: seq<Trial>, minimal: set<Id>, n: nat)
    requires j.trials <= more && n <= |j.Ordered(minimal)| && Needed(j, minimal, n)
    ensures Needed(j.(trials := more), minimal, n)
  {
    VerdictsStay(j, more);
    hide Journal.Refuted;
    forall k | 0 <= k < n ensures j.(trials := more).Refuted(j.(trials := more).Normal(Left(j.(trials := more), minimal, k))) {
      assert j.Refuted(j.Normal(Left(j, minimal, k)));
    }
  }

  lemma DropsStays(j: Journal, more: seq<Trial>, minimal: set<Id>, smaller: set<Id>)
    requires j.trials <= more && Drops(j, minimal, smaller)
    ensures Drops(j.(trials := more), minimal, smaller)
  {
    VerdictsStay(j, more);
    hide Journal.Refuted, Journal.Passes, Needed;
    var k :| 0 <= k < |j.Ordered(minimal)| && smaller == Left(j, minimal, k) && j.Passes(j.Normal(smaller)) && Needed(j, minimal, k);
    NeededStays(j, more, minimal, k);
    assert smaller == Left(j.(trials := more), minimal, k);
  }

  lemma DropWalkStays(j: Journal, more: seq<Trial>, path: seq<set<Id>>)
    requires j.trials <= more && DropWalk(j, path)
    ensures DropWalk(j.(trials := more), path)
  {
    hide Drops;
    forall i | 0 <= i < |path| - 1 ensures Drops(j.(trials := more), path[i], path[i + 1]) {
      DropsStays(j, more, path[i], path[i + 1]);
    }
  }

  lemma DropWalkSnoc(j: Journal, path: seq<set<Id>>, next: set<Id>)
    requires path != [] && DropWalk(j, path) && Drops(j, path[|path| - 1], next)
    ensures DropWalk(j, path + [next])
  {
    hide Drops;
    var all := path + [next];
    forall i | 0 <= i < |all| - 1 ensures Drops(j, all[i], all[i + 1]) {
      if i < |path| - 1 { assert Drops(j, path[i], path[i + 1]); }
    }
  }

  lemma ReducesStays(j: Journal, more: seq<Trial>, start: set<Id>, end: set<Id>)
    requires j.trials <= more && Reduces(j, start, end)
    ensures Reduces(j.(trials := more), start, end)
  {
    hide DropWalk, Needed;
    NeededStays(j, more, end, |j.Ordered(end)|);
    var path: seq<set<Id>> :| path != [] && DropWalk(j, path) && path[0] == start && path[|path| - 1] == end;
    DropWalkStays(j, more, path);
  }

  lemma MinimalStays(j: Journal, more: seq<Trial>, c: set<Id>)
    requires j.trials <= more && OneMinimal(j, c)
    ensures OneMinimal(j.(trials := more), c)
  {
    VerdictsStay(j, more);
    hide Journal.Refuted;
  }

  lemma DropsUnique(j: Journal, minimal: set<Id>, a: set<Id>, b: set<Id>)
    requires Consistent(j) && Drops(j, minimal, a)
    ensures !AllNeeded(j, minimal)
    ensures Drops(j, minimal, b) ==> a == b
  {
    hide Journal.Passes, Journal.Refuted, Journal.Normal, Journal.Ordered, Without;
  }

  lemma {:induction false} DropWalkUnique(j: Journal, p: seq<set<Id>>, q: seq<set<Id>>, i: nat)
    requires Consistent(j) && DropWalk(j, p) && DropWalk(j, q) && i < |p| && i < |q| && p[0] == q[0]
    ensures p[i] == q[i]
  {
    hide Drops, Consistent;
    if i > 0 {
      DropWalkUnique(j, p, q, i - 1);
      assert Drops(j, p[i - 1], p[i - 1 + 1]) && Drops(j, q[i - 1], q[i - 1 + 1]);
      DropsUnique(j, p[i - 1], p[i], q[i]);
    }
  }

  lemma ReducesUnique(j: Journal, start: set<Id>, a: set<Id>, b: set<Id>)
    requires Consistent(j) && Reduces(j, start, a) && Reduces(j, start, b)
    ensures a == b
  {
    hide Drops, Consistent, AllNeeded;
    var p: seq<set<Id>> :| p != [] && DropWalk(j, p) && p[0] == start && p[|p| - 1] == a;
    var q: seq<set<Id>> :| q != [] && DropWalk(j, q) && q[0] == start && q[|q| - 1] == b;
    var i := Min(|p|, |q|) - 1;
    DropWalkUnique(j, p, q, i);
    if i < |p| - 1 { DropsUnique(j, p[i], p[i + 1], p[i + 1]); }
    if i < |q| - 1 { DropsUnique(j, q[i], q[i + 1], q[i + 1]); }
  }

  lemma SearchUnique(j: Journal, a: set<Id>, b: set<Id>)
    requires Consistent(j) && Searched(j, a) && Searched(j, b)
    ensures a == b
  {
    hide Consistent, Narrows, Reduces, OneMinimal;
    var c: set<Id> :| Narrows(j, j.actions.Keys, c) && Reduces(j, c, a);
    var d: set<Id> :| Narrows(j, j.actions.Keys, d) && Reduces(j, d, b);
    NarrowsUnique(j, j.actions.Keys, c, d);
    ReducesUnique(j, c, a, b);
  }

  lemma OnceIsConsistent(j: Journal)
    requires OncePerCandidate(j)
    ensures Consistent(j)
  {
    hide OrderedIds;
    forall c: set<Id> | j.Passes(c) ensures !j.Refuted(c) {
      var t :| t in j.trials && t.actionIds == j.Ordered(c) && t.outcome == StablePass;
      assert forall u | u in j.trials && u.actionIds == t.actionIds :: u == t;
    }
  }

  /** The recorded verdicts determine the report: no other set is what the two searches come to by them. */
  lemma VerdictsDetermine(report: MinimizationReport, actions: map<Id, Action>, runner: TrialRunner, other: set<Id>)
    requires Certified(report, actions, runner)
    ensures Searched(LogOf(report, actions), other) <==> other == MinimalSet(report)
  {
    var j := LogOf(report, actions);
    hide Searched, Ablated, PassEvidence, OncePerCandidate, Consistent;
    OnceIsConsistent(j);
    if Searched(j, other) { SearchUnique(j, MinimalSet(report), other); }
  }

  // ---- the greedy loop and the ablation pass ----

  lemma WithoutSmaller(g: Graph, candidate: set<Id>, a: Id)
    ensures Without(g, candidate, a) <= candidate && a !in Without(g, candidate, a)
    ensures a in candidate ==> |Without(g, candidate, a)| < |candidate|
  {
    ClosureIsClosed(Dependents(g, candidate), {a});
    if a in candidate {
      var gone := candidate - Without(g, candidate, a);
      assert a in gone;
      assert candidate == Without(g, candidate, a) + gone;
    }
  }

  /** One run of the inner `for`: the first action whose removal still passes. */
  method RemovableAction(ctx: EvaluationContext, minimal: set<Id>) returns (r: Result<Option<set<Id>>, AppError>)
    requires ctx.Valid() && minimal <= ctx.actions.Keys
    modifies ctx`cache, ctx`trials, ctx.token
    ensures ctx.Valid() && ctx.Extends()
    ensures old(ctx.token.cancelled) ==> ctx.token.cancelled
    ensures r.Ok? && r.value.Some? ==>
      var c := r.value.value;
      c < minimal && Drops(ctx.Log(), minimal, c) && exists a | a in minimal :: c == Without(ctx.graph, minimal, a)
    ensures r.Ok? && r.value.None? ==> AllNeeded(ctx.Log(), minimal)
    ensures r.Err? ==> ctx.TrialFailed(r.error)
  {
    hide EvaluationContext.Memo, EvaluationContext.Sound, Without, Normalized, Needed, Journal.Passes, Journal.Refuted;
    var ids := ctx.Ordered(minimal);
    OrderedIdsFaithful(ctx.actions, minimal);
    assert forall k | 0 <= k < |ids| :: ids[k] in minimal;
    hide KeyedById, OrderedIds;
    NoneNeeded(ctx.Log(), minimal);
    for i := 0 to |ids|
      invariant ctx.Valid() && ctx.Extends()
      invariant old(ctx.token.cancelled) ==> ctx.token.cancelled
      invariant Needed(ctx.Log(), minimal, i)
    {
      var candidate := RemoveWithDependents(ctx.graph, minimal, ids[i]);
      WithoutSmaller(ctx.graph, minimal, ids[i]);
      if |candidate| >= |minimal| { continue; }
      ghost var before := ctx.Log();
      var trial := ctx.Evaluate(candidate);
      NeededStays(before, ctx.trials, minimal, i);
      if trial.Err? { return Err(trial.error); }
      Judged(ctx.Log(), trial.value, ctx.Normal(candidate));
      assert candidate == Left(ctx.Log(), minimal, i);
      if trial.value.outcome == StablePass { return Ok(Some(candidate)); }
      NeededSnoc(ctx.Log(), minimal, i);
    }
    r := Ok(None);
  }

  lemma NoneNeeded(j: Journal, minimal: set<Id>)
    ensures Needed(j, minimal, 0)
  {}

  lemma NeededSnoc(j: Journal, minimal: set<Id>, n: nat)
    requires n < |j.Ordered(minimal)| && Needed(j, minimal, n) && j.Refuted(j.Normal(Left(j, minimal, n)))
    ensures Needed(j, minimal, n + 1)
  {}

  /** The reduction loop: drop removable actions until none is left. */
  method Reduce(ctx: EvaluationContext, start: set<Id>) returns (r: Result<set<Id>, AppError>)
    requires ctx.Valid() && start <= ctx.actions.Keys && ctx.Log().Passes(ctx.Normal(start))
    modifies ctx`cache, ctx`trials, ctx.token
    ensures ctx.Valid() && ctx.Extends()
    ensures old(ctx.token.cancelled) ==> ctx.token.cancelled
    ensures r.Ok? ==> r.value <= start && ctx.Log().Passes(ctx.Normal(r.value)) && Reduces(ctx.Log(), start, r.value)
    ensures r.Ok? && NoDetours(ctx.graph, ctx.actions.Keys) && ctx.Normal(start) == start ==> ctx.Normal(r.value) == r.value
    ensures r.Err? ==> ctx.TrialFailed(r.error)
  {
    hide NoDetours, Without, EvaluationContext.Memo, EvaluationContext.Sound, Drops, Needed, Journal.Passes, Normalized;
    var minimal := start;
    ghost var path := [start];
    DropWalkBegins(ctx.Log(), start);
    ghost var exact := NoDetours(ctx.graph, ctx.actions.Keys) && ctx.Normal(start) == start;
    while true
      invariant ctx.Valid() && ctx.Extends()
      invariant old(ctx.token.cancelled) ==> ctx.token.cancelled
      invariant minimal <= start && ctx.Log().Passes(ctx.Normal(minimal))
      invariant path != [] && DropWalk(ctx.Log(), path) && path[0] == start && path[|path| - 1] == minimal
      invariant exact ==> ctx.Normal(minimal) == minimal
      decreases |minimal|
    {
      ghost var before := ctx.Log();
      var found := RemovableAction(ctx, minimal);
      if found.Err? { return Err(found.error); }
      DropWalkStays(before, ctx.trials, path);
      VerdictsStay(before, ctx.trials);
      match found.value {
        case None => return Ok(minimal);
        case Some(candidate) =>
          if exact {
            ghost var a :| a in minimal && candidate == Without(ctx.graph, minimal, a);
            WithoutNormalized(ctx.graph, ctx.actions.Keys, minimal, a);
          }
          ProperSubsetSmaller(candidate, minimal);
          DropWalkSnoc(ctx.Log(), path, candidate);
          DropsPass(ctx.Log(), minimal, candidate);
          minimal, path := candidate, path + [candidate];
      }
    }
  }

  lemma DropWalkBegins(j: Journal, start: set<Id>)
    ensures DropWalk(j, [start])
  {}

  lemma DropsPass(j: Journal, minimal: set<Id>, smaller: set<Id>)
    requires Drops(j, minimal, smaller)
    ensures j.Passes(j.Normal(smaller))
  {}

  lemma EntryOnRecord(ctx: EvaluationContext, minimal: set<Id>, a: Id, trial: Trial)
    requires trial in ctx.trials && trial.outcome != StablePass
    requires trial.actionIds == ctx.Ordered(ctx.Normal(Without(ctx.graph, minimal, a)))
    ensures OnRecord(ctx.Log(), minimal, AblationEvidence(a, trial.actionIds, trial.id, trial.outcome))
  {}

  /** After the reduction loop the ablation pass only reads the cache, and never fails. */
  method AblationPass(ctx: EvaluationContext, minimal: set<Id>) returns (r: Result<seq<AblationEvidence>, AppError>)
    requires ctx.Valid() && minimal <= ctx.actions.Keys && AllNeeded(ctx.Log(), minimal)
    modifies ctx`cache, ctx`trials, ctx.token
    ensures ctx.cache == old(ctx.cache) && ctx.trials == old(ctx.trials) && ctx.Valid()
    ensures old(ctx.token.cancelled) ==> ctx.token.cancelled
    ensures r.Ok? && |r.value| == |ctx.Ordered(minimal)|
    ensures forall i | 0 <= i < |r.value| ::
      r.value[i].removedActionId == ctx.Ordered(minimal)[i] && OnRecord(ctx.Log(), minimal, r.value[i])
  {
    hide Without, OnRecord, Normalized, EvaluationContext.Sound, EvaluationContext.Memo, Journal.Refuted;
    var ids := ctx.Ordered(minimal);
    OrderedIdsFaithful(ctx.actions, minimal);
    hide OrderedIds;
    var ablations: seq<AblationEvidence> := [];
    ghost var log := ctx.Log();
    for i := 0 to |ids|
      invariant ctx.Valid() && ctx.cache == old(ctx.cache) && ctx.Log() == log
      invariant old(ctx.token.cancelled) ==> ctx.token.cancelled
      invariant |ablations| == i
      invariant forall k | 0 <= k < i ::
        ablations[k].removedActionId == ids[k] && OnRecord(log, minimal, ablations[k])
    {
      var actionId := ids[i];
      assert actionId in minimal;
      var candidate := RemoveWithDependents(ctx.graph, minimal, actionId);
      assert candidate == Left(log, minimal, i);
      assert log.Refuted(log.Normal(Left(log, minimal, i)));
      ctx.VerdictCached(ctx.Normal(candidate));
      var evaluated := ctx.Evaluate(candidate);
      match evaluated {
        case Err(error) => return Err(error);
        case Ok(trial) =>
          if trial.outcome == StablePass { return Err(RemainedRemovable(actionId)); }
          EntryOnRecord(ctx, minimal, actionId, trial);
          ablations := ablations + [AblationEvidence(actionId, trial.actionIds, trial.id, trial.outcome)];
      }
    }
    r := Ok(ablations);
  }

  // ---- the engine ----

  /** `EvaluationContext::new`. */
  method NewContext(runner: TrialRunner, actions: seq<Action>, graph: Graph, token: CancellationToken)
    returns (r: Result<EvaluationContext, AppError>)
    ensures r.Ok? <==> Distinct(Ids(actions))
    ensures r.Err? ==> r.error == DuplicateIds
    ensures r.Ok? ==> r.value.Valid() && fresh(r.value) && r.value.trials == []
    ensures r.Ok? ==> r.value.runner == runner && r.value.actions == IdMap(actions) && r.value.graph == graph && r.value.token == token
  {
    var actionMap: map<Id, Action> := map[];
    assert actions[..0] == [];
    for i := 0 to |actions|
      invariant actionMap == IdMap(actions[..i])
    {
      actionMap := actionMap[actions[i].id := actions[i]];
      assert actions[..i + 1][..i] == actions[..i];
    }
    assert actions[..|actions|] == actions;
    IdMapKeys(actions);
    if |actionMap| != |actions| { return Err(DuplicateIds); }
    var context := new EvaluationContext(runner, actionMap, graph, token);
    r := Ok(context);
  }

  /** The three trials whose outcome is prescribed. */
  datatype Milestone = EmptySet | FullSet | FinalSet

  function RequireOutcome(what: Milestone, trial: Trial, expected: TrialOutcome): (r: Result<(), AppError>)
    ensures r.Ok? <==> trial.outcome == expected
    ensures r.Err? ==> r.error == UnexpectedOutcome(Label(what), trial.outcome)
  {
    if trial.outcome != expected then Err(UnexpectedOutcome(Label(what), trial.outcome)) else Ok(())
  }

  function Label(what: Milestone): string {
    match what
    case EmptySet => "empty action set"
    case FullSet => "full action set"
    case FinalSet => "final minimized action set"
  }

  /** One of these trials is on record, and did not come out as it must. */
  ghost predicate Missed(j: Journal, error: AppError) {
    && error.UnexpectedOutcome?
    && exists t | t in j.trials :: t.outcome == error.outcome &&
         ((t.actionIds == [] && t.outcome != StableFail && error.what == "empty action set")
          || (t.actionIds == j.Ordered(j.actions.Keys) && t.outcome != StablePass && error.what == "full action set")
          || (t == j.trials[|j.trials| - 1] && t.outcome != StablePass && error.what == "final minimized action set"))
  }

  lemma EmptyIsNormal(actions: map<Id, Action>, g: Graph)
    ensures Normalized(g, actions.Keys, {}) == {} && OrderedIds(actions, {}) == []
  {
    ClosureIsLeast(g, {}, {});
    assert {} * actions.Keys == {};
  }

  /** The first two trials, and ddmin: where it comes to from the full set, while the empty set is on record as failing. */
  method Narrow(ctx: EvaluationContext) returns (r: Result<(Trial, Trial, set<Id>), AppError>)
    requires ctx.Valid()
    modifies ctx`cache, ctx`trials, ctx.token
    ensures ctx.Valid()
    ensures old(ctx.token.cancelled) ==> ctx.token.cancelled
    ensures r.Ok? ==>
      var (emptyTrial, fullTrial, narrowed) := r.value;
      && emptyTrial.outcome == StableFail && emptyTrial.actionIds == [] && emptyTrial in ctx.trials
      && fullTrial.outcome == StablePass && fullTrial.actionIds == ctx.Ordered(ctx.actions.Keys) && fullTrial in ctx.trials
      && narrowed <= ctx.actions.Keys && ctx.Normal(narrowed) == narrowed && ctx.Log().Passes(narrowed)
      && (|narrowed| <= 1 || OneMinimal(ctx.Log(), narrowed)) && Narrows(ctx.Log(), ctx.actions.Keys, narrowed)
    ensures r.Err? ==> ctx.TrialFailed(r.error) || Missed(ctx.Log(), r.error)
  {
    AllIsNormal(ctx);
    hide EvaluationContext.Memo, EvaluationContext.Sound, Normalized, OrderedIds, OneMinimal, Narrows, KeyedById, Journal.Passes;
    var empty := ctx.Evaluate({});
    if empty.Err? { return Err(empty.error); }
    var failing := RequireOutcome(EmptySet, empty.value, StableFail);
    if failing.Err? { return Err(failing.error); }
    var fullIds := ctx.actions.Keys;
    var full := ctx.Evaluate(fullIds);
    if full.Err? { return Err(full.error); }
    var passing := RequireOutcome(FullSet, full.value, StablePass);
    if passing.Err? { return Err(passing.error); }
    Judged(ctx.Log(), full.value, fullIds);
    ghost var before := ctx.Log();
    ghost var calls;
    var narrowed;
    narrowed, calls := Ddmin(ctx, fullIds);
    VerdictsStay(before, ctx.trials);
    if narrowed.Err? { return Err(narrowed.error); }
    r := Ok((empty.value, full.value, narrowed.value));
  }

  lemma AllIsNormal(ctx: EvaluationContext)
    ensures ctx.Normal({}) == {} && ctx.Ordered({}) == [] && ctx.Normal(ctx.actions.Keys) == ctx.actions.Keys
  {
    EmptyIsNormal(ctx.actions, ctx.graph);
    assert ctx.Normal({}) == Normalized(ctx.graph, ctx.actions.Keys, {});
    NormalKnown(ctx, ctx.actions.Keys);
    ctx.NormalExtensive(ctx.actions.Keys);
  }

  lemma NormalKnown(ctx: EvaluationContext, s: set<Id>)
    ensures ctx.Normal(s) <= ctx.actions.Keys
  {}

  lemma ListedIs(actions: map<Id, Action>, s: set<Id>)
    requires KeyedById(actions) && s <= actions.Keys
    ensures Elements(OrderedIds(actions, s)) == s
  {
    OrderedIdsFaithful(actions, s);
  }

  /** The facts that a run has collected make a certified report. */
  lemma Certify(report: MinimizationReport, earlier: Journal, runner: TrialRunner, minimal: set<Id>)
    requires KeyedById(earlier.actions) && earlier.graph == report.dependencyGraph && minimal <= earlier.actions.Keys && minimal != {}
    requires report.minimalActionIds == earlier.Ordered(minimal) && report.baselineHash == runner.baselineHash
    requires report.emptyTrial.outcome == StableFail && report.emptyTrial.actionIds == [] && report.emptyTrial in earlier.trials
    requires report.fullTrial.outcome == StablePass && report.fullTrial.actionIds == earlier.Ordered(earlier.actions.Keys)
    requires report.fullTrial in earlier.trials
    requires report.finalTrial.outcome == StablePass && report.finalTrial.actionIds == report.minimalActionIds
    requires report.trials == earlier.trials + [report.finalTrial]
    requires OncePerCandidate(earlier)
    requires forall t | t in report.trials ::
      t.outcome != Cancelled && PassEvidence(t, runner.repetitions) && t.baselineHash == runner.baselineHash
    requires Searched(earlier, minimal)
    requires |report.ablations| == |report.minimalActionIds|
    requires forall i | 0 <= i < |report.ablations| ::
      report.ablations[i].removedActionId == report.minimalActionIds[i] && OnRecord(earlier, minimal, report.ablations[i])
    ensures Certified(report, earlier.actions, runner)
    ensures MinimalSet(report) == minimal
  {
    hide OrderedIds, OnRecord, PassEvidence, KeyedById, Searched;
    ListedIs(earlier.actions, minimal);
    assert LogOf(report, earlier.actions) == earlier;
  }

  lemma Constrain(report: MinimizationReport, actions: map<Id, Action>, minimal: set<Id>)
    requires NoDetours(report.dependencyGraph, actions.Keys) && minimal <= actions.Keys
    requires report.trials != [] && MinimalSet(report) == minimal && Normalized(report.dependencyGraph, actions.Keys, minimal) == minimal
    requires KeyedById(actions) && report.minimalActionIds == OrderedIds(actions, minimal)
    requires Ablated(report, actions)
    ensures DependencyConstrained(report, actions)
  {
    var g := report.dependencyGraph;
    forall i | 0 <= i < |report.ablations|
      ensures report.ablations[i].candidateActionIds
           == OrderedIds(actions, Without(g, minimal, report.ablations[i].removedActionId))
    {
      var a := report.ablations[i].removedActionId;
      OrderedIdsFaithful(actions, minimal);
      assert report.minimalActionIds[i] in report.minimalActionIds;
      WithoutNormalized(g, actions.Keys, minimal, a);
    }
  }

  method MinimizeWithGraph(runner: TrialRunner, actions: seq<Action>, graph: Graph, token: CancellationToken)
    returns (r: Result<MinimizationReport, AppError>)
    modifies token
    ensures old(token.cancelled) ==> token.cancelled
    ensures r.Ok? ==> Distinct(Ids(actions)) && !token.cancelled
    ensures r.Ok? ==> r.value.dependencyGraph == graph && Certified(r.value, IdMap(actions), runner)
    ensures r.Ok? && NoDetours(graph, IdMap(actions).Keys) ==> DependencyConstrained(r.value, IdMap(actions))
    ensures r.Err? ==> !r.error.RemainedRemovable? && !r.error.UnknownAction?
    ensures r == Err(DuplicateIds) <==> !Distinct(Ids(actions))
  {
    var created := NewContext(runner, actions, graph, token);
    if created.Err? { return Err(created.error); }
    r := MinimizeIn(created.value);
  }

  /** The search in a new context; it ends without a report only if a trial could not be carried out, or one of the
      prescribed outcomes was missed. */
  method MinimizeIn(ctx: EvaluationContext) returns (r: Result<MinimizationReport, AppError>)
    requires ctx.Valid()
    modifies ctx, ctx.token
    ensures old(ctx.token.cancelled) ==> ctx.token.cancelled
    ensures r.Ok? ==> !ctx.token.cancelled
    ensures r.Ok? ==> r.value.dependencyGraph == ctx.graph && Certified(r.value, ctx.actions, ctx.runner)
    ensures r.Ok? && NoDetours(ctx.graph, ctx.actions.Keys) ==> DependencyConstrained(r.value, ctx.actions)
    ensures r.Err? ==> ctx.TrialFailed(r.error) || Missed(ctx.Log(), r.error)
  {
    hide EvaluationContext.Memo, EvaluationContext.Sound, Missed, Certified, NoDetours, DependencyConstrained, OneMinimal, Narrows, Reduces, Searched;
    var narrowed := Narrow(ctx);
    if narrowed.Err? { return Err(narrowed.error); }
    var (emptyTrial, fullTrial, start) := narrowed.value;
    ghost var before := ctx.Log();
    var reduced := Reduce(ctx, start);
    if reduced.Err? { return Err(reduced.error); }
    SearchEnds(ctx, before, start, reduced.value, emptyTrial);
    r := Confirm(ctx, emptyTrial, fullTrial, reduced.value);
  }

  /** From the ablation pass on. */
  method Confirm(ctx: EvaluationContext, emptyTrial: Trial, fullTrial: Trial, minimal: set<Id>) returns (r: Result<MinimizationReport, AppError>)
    requires ctx.Valid() && minimal <= ctx.actions.Keys && minimal != {} && AllNeeded(ctx.Log(), minimal) && Searched(ctx.Log(), minimal)
    requires emptyTrial.outcome == StableFail && emptyTrial.actionIds == [] && emptyTrial in ctx.trials
    requires fullTrial.outcome == StablePass && fullTrial.actionIds == ctx.Ordered(ctx.actions.Keys) && fullTrial in ctx.trials
    modifies ctx, ctx.token
    ensures old(ctx.token.cancelled) ==> ctx.token.cancelled
    ensures r.Ok? ==> !ctx.token.cancelled && r.value.dependencyGraph == ctx.graph
    ensures r.Ok? ==> Certified(r.value, ctx.actions, ctx.runner) && MinimalSet(r.value) == minimal
    ensures r.Ok? && NoDetours(ctx.graph, ctx.actions.Keys) && ctx.Normal(minimal) == minimal ==> DependencyConstrained(r.value, ctx.actions)
    ensures r.Err? ==> ctx.TrialFailed(r.error) || Missed(ctx.Log(), r.error)
  {
    hide Searched, Needed, NoDetours, OnRecord, Normalized, OrderedIds;
    var ablated := AblationPass(ctx, minimal);
    ghost var earlier := ctx.Log();
    var ablations: seq<AblationEvidence>;
    match ablated {
      case Err(error) => return Err(error);
      case Ok(entries) => ablations := entries;
    }
    var last := ctx.EvaluateUncached(minimal);
    if last.Err? { return Err(last.error); }
    var passing := RequireOutcome(FinalSet, last.value, StablePass);
    if passing.Err? { return Err(passing.error); }
    var report := MinimizationReport(ctx.runner.baselineHash, emptyTrial, fullTrial, ctx.Ordered(minimal),
                                     ablations, last.value, ctx.trials, ctx.graph);
    Certify(report, earlier, ctx.runner, minimal);
    if NoDetours(ctx.graph, ctx.actions.Keys) && ctx.Normal(minimal) == minimal { Constrain(report, ctx.actions, minimal); }
    r := Ok(report);
  }

  /** The two searches put together; and the empty set, on record as failing, is not what they found. */
  lemma SearchEnds(ctx: EvaluationContext, before: Journal, narrowed: set<Id>, minimal: set<Id>, emptyTrial: Trial)
    requires ctx.Valid() && before == ctx.Log().(trials := before.trials) && before.trials <= ctx.trials
    requires minimal <= narrowed <= ctx.actions.Keys && before.Passes(narrowed)
    requires |narrowed| <= 1 || OneMinimal(before, narrowed)
    requires Narrows(before, ctx.actions.Keys, narrowed) && Reduces(ctx.Log(), narrowed, minimal)
    requires ctx.Log().Passes(ctx.Normal(minimal))
    requires emptyTrial in ctx.trials && emptyTrial.actionIds == [] && emptyTrial.outcome == StableFail
    ensures Searched(ctx.Log(), minimal) && AllNeeded(ctx.Log(), minimal) && minimal != {}
  {
    EmptyIsNormal(ctx.actions, ctx.graph);
    ctx.VerdictCached({});
    assert AllNeeded(ctx.Log(), minimal);
    assert ctx.Ordered({}) == [] && ctx.Log().Refuted({});
    hide EvaluationContext.Valid, Narrows, Reduces, OneMinimal, Needed, Journal.Passes, Journal.Refuted;
    VerdictsStay(before, ctx.trials);
    NarrowsStays(before, ctx.trials, ctx.actions.Keys, narrowed);
    if |narrowed| > 1 { MinimalStays(before, ctx.trials, narrowed); }
  }

  /** With the inferred graph no assumption is left: the reported set is dependency-closed, and each of
      its actions was shown to be needed by the trial of the greatest closed subset without it. */
  method Minimize(runner: TrialRunner, actions: seq<Action>, baseline: set<Path>, token: CancellationToken)
    returns (r: Result<MinimizationReport, AppError>)
    modifies token
    ensures r.Ok? ==> Certified(r.value, IdMap(actions), runner) && DependencyConstrained(r.value, IdMap(actions))
    ensures r.Ok? ==> Closed(r.value.dependencyGraph, MinimalSet(r.value))
    ensures r.Ok? ==> Explains(r.value.dependencyGraph, SortByOrder(actions), |SortByOrder(actions)|, baseline)
  {
    var graph := Infer(actions, baseline);
    IdMapKeys(actions);
    assert (set a | a in actions :: a.id) == IdMap(actions).Keys;
    EdgesKnownNoDetours(graph, IdMap(actions).Keys);
    r := MinimizeWithGraph(runner, actions, graph, token);
  }

  // ---- what 1-minimality amounts to when passing is monotone ----

  /** `passes` is what the recorded trials say about the sets they ran. */
  ghost predicate Agrees(report: MinimizationReport, passes: set<Id> -> bool) {
    forall t | t in report.trials :: t.outcome == StablePass <==> passes(Elements(t.actionIds))
  }

  /** Adding actions to `t` never breaks it. */
  ghost predicate StaysRepair(g: Graph, known: set<Id>, passes: set<Id> -> bool, t: set<Id>) {
    passes(t) ==> forall c | t <= c <= known && Closed(g, c) :: passes(c)
  }

  /** No proper dependency-closed subset of the reported set is a repair that stays one when actions are added:
      any such subset lies inside one ablation candidate. */
  lemma NoSmallerRepair(report: MinimizationReport, actions: map<Id, Action>, runner: TrialRunner, passes: set<Id> -> bool, t: set<Id>)
    requires KeyedById(actions) && Certified(report, actions, runner) && DependencyConstrained(report, actions)
    requires Closed(report.dependencyGraph, MinimalSet(report)) && Agrees(report, passes)
    requires t < MinimalSet(report) && Closed(report.dependencyGraph, t)
    requires StaysRepair(report.dependencyGraph, actions.Keys, passes, t)
    ensures !passes(t) && passes(MinimalSet(report))
  {
    var m := MinimalSet(report);
    assert report.finalTrial in report.trials;
    var a :| a in m && a !in t;
    var i :| 0 <= i < |report.minimalActionIds| && report.minimalActionIds[i] == a;
    NeededAction(report, actions, runner, passes, i);
    WithoutIsGreatest(report.dependencyGraph, m, a);
  }

  lemma NeededAction(report: MinimizationReport, actions: map<Id, Action>, runner: TrialRunner, passes: set<Id> -> bool, i: nat)
    requires KeyedById(actions) && Certified(report, actions, runner) && DependencyConstrained(report, actions)
    requires Agrees(report, passes) && i < |report.minimalActionIds|
    ensures !passes(Without(report.dependencyGraph, MinimalSet(report), report.minimalActionIds[i]))
  {
    var e, a := report.ablations[i], report.minimalActionIds[i];
    var c := Without(report.dependencyGraph, MinimalSet(report), a);
    assert OnRecord(LogOf(report, actions), MinimalSet(report), e);
    var t :| t in report.trials && t.id == e.trialId && t.actionIds == e.candidateActionIds && t.outcome == e.outcome;
    WithoutSmaller(report.dependencyGraph, MinimalSet(report), a);
    ListedIs(actions, c);
  }
}
