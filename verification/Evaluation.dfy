/** The evaluation context of the minimizer (src/minimize/engine.rs, src/minimize/cache.rs): candidates
    are normalized, listed, looked up in the trial cache, and run only when they are not in it. */
module Evaluation {
  import opened Common
  import opened Actions
  import opened Encoding
  import opened Dependency
  import opened Runner

  /** `oracleHash` stands for its pre-image. */
  datatype TrialCacheKey = TrialCacheKey(baselineHash: string, oracleHash: Text, actionIds: seq<Id>, repetitions: nat)

  function KeyOf(runner: TrialRunner, actionIds: seq<Id>): TrialCacheKey {
    TrialCacheKey(runner.baselineHash, OracleBytes(runner.oracle), actionIds, runner.repetitions)
  }

  /** Trials under one key are alike in everything that they are run with. */
  lemma KeyDetermines(a: TrialRunner, b: TrialRunner, x: seq<Id>, y: seq<Id>)
    requires forall o | o in {a.oracle, b.oracle} :: FitsText(o.command) && o.timeoutMs < Power256(8)
    requires KeyOf(a, x) == KeyOf(b, y)
    ensures a == b && x == y
  {
    OracleBytesInjective(a.oracle, b.oracle);
  }

  /** What has been tried so far, of which actions and under which graph. */
  datatype Journal = Journal(actions: map<Id, Action>, graph: Graph, trials: seq<Trial>) {
    ghost function Normal(candidate: set<Id>): set<Id> {
      Normalized(graph, actions.Keys, candidate)
    }

    function Ordered(candidate: set<Id>): seq<Id> {
      OrderedIds(actions, candidate)
    }

    /** A trial of the candidate passed. */
    ghost predicate Passes(candidate: set<Id>) {
      exists t | t in trials :: t.actionIds == Ordered(candidate) && t.outcome == StablePass
    }

    /** A trial of the candidate did not pass. */
    ghost predicate Refuted(candidate: set<Id>) {
      exists t | t in trials :: t.actionIds == Ordered(candidate) && t.outcome != StablePass
    }
  }

  class EvaluationContext {
    const runner: TrialRunner
    const actions: map<Id, Action>
    const graph: Graph
    const token: CancellationToken
    var cache: map<TrialCacheKey, Trial>
    var trials: seq<Trial>

    // ---- candidates ----

    ghost function Normal(candidate: set<Id>): set<Id> {
      Normalized(graph, actions.Keys, candidate)
    }

    function Ordered(candidate: set<Id>): seq<Id> {
      OrderedIds(actions, candidate)
    }

    function KeyFor(actionIds: seq<Id>): TrialCacheKey {
      KeyOf(runner, actionIds)
    }

    /** The trial on record for a candidate, if there is one. */
    ghost predicate Evaluated(candidate: set<Id>)
      reads this
    {
      KeyFor(Ordered(candidate)) in cache
    }

    ghost function TrialOf(candidate: set<Id>): Trial
      requires Evaluated(candidate)
      reads this
    {
      cache[KeyFor(Ordered(candidate))]
    }

    ghost function Log(): Journal
      reads this
    {
      Journal(actions, graph, trials)
    }

    /** In a memo a recorded verdict is the one that the cache gives. */
    lemma VerdictCached(candidate: set<Id>)
      requires Memo(trials, cache)
      ensures Log().Refuted(candidate) <==> Evaluated(candidate) && TrialOf(candidate).outcome != StablePass
      ensures Log().Passes(candidate) <==> Evaluated(candidate) && TrialOf(candidate).outcome == StablePass
    {
      if Evaluated(candidate) {
        assert KeyFor(TrialOf(candidate).actionIds) == KeyFor(Ordered(candidate));
        assert TrialOf(candidate) in trials;
      }
    }

    // ---- normalization is a closure operator on sets of known actions, for any graph ----

    lemma NormalIdempotent(candidate: set<Id>)
      ensures Normal(Normal(candidate)) == Normal(candidate)
    {
      NormalizedIdempotent(graph, actions.Keys, candidate);
    }

    lemma NormalMonotone(a: set<Id>, b: set<Id>)
      requires a <= b
      ensures Normal(a) <= Normal(b)
    {
      ClosureMonotone(graph, a, b);
    }

    lemma NormalExtensive(a: set<Id>)
      requires a <= actions.Keys
      ensures a <= Normal(a)
    {
      ClosureIsClosed(graph, a);
    }

    // ---- the state ----

    /** The cache is a memo of the trials: one entry per trial, one trial per entry. */
    ghost predicate Memo(ts: seq<Trial>, entries: map<TrialCacheKey, Trial>) {
      && (forall i | 0 <= i < |ts| :: KeyFor(ts[i].actionIds) in entries && entries[KeyFor(ts[i].actionIds)] == ts[i])
      && (forall k | k in entries :: k == KeyFor(entries[k].actionIds) && entries[k] in ts)
      && (forall i, j | 0 <= i < j < |ts| :: ts[i].actionIds != ts[j].actionIds)
    }

    ghost predicate Evident(t: Trial) { PassEvidence(t, runner.repetitions) && t.baselineHash == runner.baselineHash }

    /** A trial that ended without an outcome: its copy of the baseline failed, or two of the actions claim the same
        place in the order. */
    ghost predicate TrialFailed(error: AppError)
      reads token
    {
      || token.CopyFailed(error)
      || (error.DuplicateInCandidate?
          && exists a, b :: a in actions && b in actions && a != b && actions[a].originalOrder == actions[b].originalOrder)
    }

    /** Since `before` exactly the trial was carried out. */
    ghost predicate Started(before: seq<Launch>, t: Trial)
      reads token
    {
      token.launched == before + TrialLaunches(t.actionIds, runner.oracle, t.repetitions)
    }

    /** Every trial carries its evidence, and none is Cancelled unless the token is set. */
    ghost predicate Sound(ts: seq<Trial>)
      reads token
    {
      && (forall t | t in ts :: Evident(t))
      && (token.cancelled || forall t | t in ts :: t.outcome != Cancelled)
    }

    ghost predicate Valid()
      reads this, token
    {
      KeyedById(actions) && Memo(trials, cache) && Sound(trials)
    }

    twostate predicate Extends()
      reads this
    {
      && (forall k | k in old(cache) :: k in cache && cache[k] == old(cache[k]))
      && old(trials) <= trials
    }

    constructor (runner: TrialRunner, actions: map<Id, Action>, graph: Graph, token: CancellationToken)
      requires KeyedById(actions)
      ensures Valid()
      ensures this.runner == runner && this.actions == actions && this.graph == graph && this.token == token
      ensures trials == [] && cache == map[]
    {
      this.runner, this.actions, this.graph, this.token := runner, actions, graph, token;
      cache, trials := map[], [];
    }

    // ---- the code ----

    method Normalize(candidate: set<Id>) returns (r: set<Id>)
      ensures r == Normal(candidate)
    {
      r := Closure(graph, candidate);
      r := set id | id in r && id in actions;
    }

    /** The listed actions; every listed id is known. */
    method Listed(candidate: set<Id>) returns (r: Result<seq<Action>, AppError>)
      requires KeyedById(actions)
      ensures r == Ok(OrderedActions(actions, candidate))
    {
      var ids := Ordered(candidate);
      var listed: seq<Action> := [];
      OrderedIdsFaithful(actions, candidate);
      for i := 0 to |ids|
        invariant listed == OrderedActions(actions, candidate)[..i]
      {
        OrderedActionsKnown(actions, candidate, i);
        var id := ids[i];
        if id !in actions { return Err(UnknownAction(id)); }
        listed := listed + [actions[id]];
      }
      assert OrderedActions(actions, candidate)[..|ids|] == OrderedActions(actions, candidate);
      r := Ok(listed);
    }

    method RunCandidate(candidate: set<Id>) returns (r: Result<Trial, AppError>)
      requires Valid()
      modifies token
      ensures Valid()
      ensures old(token.cancelled) ==> token.cancelled
      ensures r.Ok? ==> r.value.actionIds == Ordered(candidate)
      ensures r.Ok? ==> Evident(r.value) && (r.value.outcome == Cancelled <==> token.cancelled)
      ensures r.Ok? && !token.cancelled ==> Started(old(token.launched), r.value)
      ensures r.Err? ==> TrialFailed(r.error)
    {
      hide PassEvidence, TrialLaunches, OrderedActions, Thorough;
      var found := Listed(candidate);
      var listed: seq<Action>;
      match found {
        case Err(error) => return Err(error);
        case Ok(value) => listed := value;
      }
      OrderedIsOrdered(actions, candidate);
      SortOfSorted(listed);
      r := Run(runner, listed, token);
      if Clash(listed) { ClashShared(actions, candidate); }
    }

    method Evaluate(candidate: set<Id>) returns (r: Result<Trial, AppError>)
      requires Valid()
      modifies this`cache, this`trials, token
      ensures Valid() && Extends()
      ensures old(token.cancelled) ==> token.cancelled
      ensures r.Ok? ==> Evaluated(Normal(candidate)) && TrialOf(Normal(candidate)) == r.value
      ensures r.Ok? ==> r.value.actionIds == Ordered(Normal(candidate)) && r.value in trials
      ensures old(Evaluated(Normal(candidate))) ==>
        r.Ok? && cache == old(cache) && trials == old(trials) && token.launched == old(token.launched)
      ensures r.Ok? && !old(Evaluated(Normal(candidate))) && !token.cancelled ==> Started(old(token.launched), r.value)
      ensures r.Ok? && !old(Evaluated(Normal(candidate))) ==> trials == old(trials) + [r.value]
      ensures r.Err? ==> cache == old(cache) && trials == old(trials)
      ensures r.Err? ==> TrialFailed(r.error)
    {
      var normalized := Normalize(candidate);
      var actionIds := Ordered(normalized);
      var key := KeyFor(actionIds);
      if key in cache { return Ok(cache[key]); }
      r := RunCandidate(normalized);
      if r.Err? { return; }
      var trial := r.value;
      cache := cache[key := trial];
      trials := trials + [trial];
    }

    method EvaluateUncached(candidate: set<Id>) returns (r: Result<Trial, AppError>)
      requires Valid()
      modifies this`trials, token
      ensures old(token.cancelled) ==> token.cancelled
      ensures Memo(old(trials), cache) && Sound(trials)
      ensures r.Ok? ==> r.value.actionIds == Ordered(candidate) && trials == old(trials) + [r.value]
      ensures r.Ok? ==> Evident(r.value) && (r.value.outcome == Cancelled <==> token.cancelled)
      ensures r.Ok? && !token.cancelled ==> Started(old(token.launched), r.value)
      ensures r.Err? ==> TrialFailed(r.error)
    {
      r := RunCandidate(candidate);
      if r.Err? { return; }
      trials := trials + [r.value];
    }
  }

  /** Verdicts on record stay on record. */
  lemma VerdictsStay(j: Journal, more: seq<Trial>)
    requires j.trials <= more
    ensures forall c: set<Id> :: j.Refuted(c) ==> j.(trials := more).Refuted(c)
    ensures forall c: set<Id> :: j.Passes(c) ==> j.(trials := more).Passes(c)
  {
    assert forall t | t in j.trials :: t in more;
  }

  lemma OrderedIsOrdered(actions: map<Id, Action>, candidate: set<Id>)
    requires KeyedById(actions)
    ensures InOrder(OrderedActions(actions, candidate)) && OrderedIds(actions, candidate) == Ids(OrderedActions(actions, candidate))
  {
    OrderedIdsFaithful(actions, candidate);
  }

  lemma ClashShared(actions: map<Id, Action>, candidate: set<Id>)
    requires KeyedById(actions) && Clash(OrderedActions(actions, candidate))
    ensures exists a, b :: a in actions && b in actions && a != b && actions[a].originalOrder == actions[b].originalOrder
  {
    var listed := OrderedActions(actions, candidate);
    var i, j :| 0 <= i < j < |listed| && (listed[i].id == listed[j].id || listed[i].originalOrder == listed[j].originalOrder);
    OrderedIdsFaithful(actions, candidate);
    OrderedActionsKnown(actions, candidate, i);
    OrderedActionsKnown(actions, candidate, j);
  }

  lemma OrderedActionsKnown(actions: map<Id, Action>, candidate: set<Id>, i: nat)
    requires KeyedById(actions) && i < |OrderedActions(actions, candidate)|
    ensures OrderedIds(actions, candidate)[i] in actions
    ensures actions[OrderedIds(actions, candidate)[i]] == OrderedActions(actions, candidate)[i]
  {
    var known := candidate * actions.Keys;
    AscendingElements(known);
    var picked := Pick(actions, Ascending(known));
    SortKeeps(picked);
    var a := OrderedActions(actions, candidate)[i];
    assert a in multiset(picked);
    var k :| 0 <= k < |picked| && picked[k] == a;
    assert Ascending(known)[k] in Ascending(known);
  }
}
