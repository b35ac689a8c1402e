/** Trials (src/replay/runner.rs). Processes, file copies and clocks are the environment: every
    attempt may end in any way, and a cancellation may arrive whenever the token is looked at. */
module Runner {
  import opened Common
  import opened Actions
  import opened Encoding

  datatype AppError =
    | Environment(reason: string)
    | BaselineMismatch
    | DuplicateInCandidate(id: Id)
    | DuplicateIds
    | UnknownAction(id: Id)
    | UnexpectedOutcome(what: string, outcome: TrialOutcome)
    | RemainedRemovable(id: Id)

  datatype TrialOutcome = StablePass | StableFail | Flaky | Unresolved | Cancelled

  datatype ProcessEvidence = ProcessEvidence(exitCode: Option<int>, timedOut: bool, cancelled: bool) {
    predicate Passed() { exitCode == Some(0) && !timedOut && !cancelled }
  }

  datatype TrialAttempt = TrialAttempt(
    index: nat, actions: seq<ProcessEvidence>, oracle: Option<ProcessEvidence>, error: Option<string>)

  datatype Trial = Trial(id: nat, actionIds: seq<Id>, repetitions: seq<TrialAttempt>, outcome: TrialOutcome,
                         baselineHash: string)

  datatype TrialRunner = TrialRunner(baselineHash: string, oracle: OracleSpec, repetitions: nat)

  /** What a trial makes the environment do: copy the baseline, replay an action on the copy, ask the oracle. */
  datatype Launch = Copied | Replayed(id: Id) | Asked(oracle: OracleSpec)

  /** Once set, a token stays set; anyone may set it between two looks. With it goes the record of what its holder
      has made the environment do. */
  class CancellationToken {
    var cancelled: bool
    ghost var launched: seq<Launch>

    constructor ()
      ensures !cancelled && launched == []
    {
      cancelled := false;
      launched := [];
    }

    /** The last thing that was done is a copy of the baseline that failed. */
    ghost predicate CopyFailed(error: AppError)
      reads this
    {
      (error.Environment? || error.BaselineMismatch?) && launched != [] && launched[|launched| - 1] == Copied
    }

    method IsCancelled() returns (b: bool)
      modifies this`cancelled
      ensures b == cancelled
      ensures old(cancelled) ==> cancelled
    {
      if * { cancelled := true; }
      b := cancelled;
    }
  }

  // ---- classification ----

  predicate Conclusive(a: TrialAttempt) {
    a.error.None? && a.oracle.Some? && !a.oracle.value.timedOut && !a.oracle.value.cancelled
  }

  predicate AttemptPassed(a: TrialAttempt) {
    a.oracle.Some? && a.oracle.value.Passed()
  }

  function Passes(attempts: seq<TrialAttempt>): nat {
    if attempts == [] then 0
    else (if AttemptPassed(attempts[0]) then 1 else 0) + Passes(attempts[1..])
  }

  function ClassifyOutcome(attempts: seq<TrialAttempt>, expected: nat, cancelled: bool): TrialOutcome {
    if cancelled then Cancelled
    else if |attempts| != expected || exists a | a in attempts :: !Conclusive(a) then Unresolved
    else if Passes(attempts) == |attempts| then StablePass
    else if Passes(attempts) == 0 then StableFail
    else Flaky
  }

  lemma {:induction false} PassesCounts(attempts: seq<TrialAttempt>)
    ensures Passes(attempts) <= |attempts|
    ensures Passes(attempts) == |attempts| <==> forall i | 0 <= i < |attempts| :: AttemptPassed(attempts[i])
    ensures Passes(attempts) == 0 <==> forall i | 0 <= i < |attempts| :: !AttemptPassed(attempts[i])
  {
    if attempts != [] {
      PassesCounts(attempts[1..]);
      assert forall i | 0 < i < |attempts| :: attempts[i] == attempts[1..][i - 1];
      assert forall i | 0 <= i < |attempts| - 1 :: attempts[1..][i] == attempts[i + 1];
    }
  }

  /** The attempt says nothing about the candidate: it ended in an error, or the oracle was not asked or did not end
      by itself. */
  ghost predicate CutShort(a: TrialAttempt) {
    a.error.Some? || a.oracle.None? || a.oracle.value.timedOut || a.oracle.value.cancelled
  }

  /** All `expected` attempts ran, and none was cut short. */
  ghost predicate AllConclusive(attempts: seq<TrialAttempt>, expected: nat) {
    |attempts| == expected && forall i | 0 <= i < |attempts| :: !CutShort(attempts[i])
  }

  /** The five outcomes told apart by what the attempts show. */
  lemma OutcomeMeaning(attempts: seq<TrialAttempt>, expected: nat, cancelled: bool)
    ensures ClassifyOutcome(attempts, expected, cancelled) == Cancelled <==> cancelled
    ensures ClassifyOutcome(attempts, expected, cancelled) == Unresolved
       <==> (!cancelled && (|attempts| != expected || exists i :: 0 <= i < |attempts| && CutShort(attempts[i])))
    ensures ClassifyOutcome(attempts, expected, cancelled) == StablePass
       <==> (!cancelled && AllConclusive(attempts, expected)
             && forall i | 0 <= i < |attempts| :: attempts[i].oracle.value.exitCode == Some(0))
    ensures ClassifyOutcome(attempts, expected, cancelled) == StableFail
       <==> (!cancelled && AllConclusive(attempts, expected) && expected > 0
             && forall i | 0 <= i < |attempts| :: attempts[i].oracle.value.exitCode != Some(0))
    ensures ClassifyOutcome(attempts, expected, cancelled) == Flaky
       <==> (!cancelled && AllConclusive(attempts, expected)
             && (exists i :: 0 <= i < |attempts| && attempts[i].oracle.value.exitCode == Some(0))
             && (exists i :: 0 <= i < |attempts| && attempts[i].oracle.value.exitCode != Some(0)))
  {
    PassesCounts(attempts);
    if |attempts| == expected {
      if exists a | a in attempts :: !Conclusive(a) {
        var a :| a in attempts && !Conclusive(a);
        var i :| 0 <= i < |attempts| && attempts[i] == a;
        assert CutShort(attempts[i]);
      } else {
        assert forall i | 0 <= i < |attempts| :: attempts[i] in attempts;
        assert forall i | 0 <= i < |attempts| :: !CutShort(attempts[i]);
        assert forall i | 0 <= i < |attempts| ::
          AttemptPassed(attempts[i]) <==> attempts[i].oracle.value.exitCode == Some(0);
      }
    }
  }

  /** What a trial that counts as a pass must show. */
  ghost predicate PassEvidence(t: Trial, repetitions: nat) {
    t.outcome == StablePass ==>
      && |t.repetitions| == repetitions
      && forall i | 0 <= i < repetitions ::
           && t.repetitions[i].index == i + 1
           && t.repetitions[i].error == None
           && t.repetitions[i].oracle == Some(ProcessEvidence(Some(0), false, false))
  }

  /** Without an error all actions were replayed and the oracle was asked. */
  ghost predicate Attempted(a: TrialAttempt, count: nat) {
    a.error.None? ==> |a.actions| == count && a.oracle.Some?
  }

  /** All attempts were made in full, except that the first error ends the trial. */
  ghost predicate Thorough(attempts: seq<TrialAttempt>, expected: nat, count: nat) {
    && |attempts| <= expected
    && (forall i | 0 <= i < |attempts| :: Attempted(attempts[i], count) && (i < |attempts| - 1 ==> attempts[i].error.None?))
    && (|attempts| < expected ==> attempts != [] && attempts[|attempts| - 1].error.Some?)
  }

  function Replays(ids: seq<Id>): (r: seq<Launch>)
    ensures |r| == |ids|
  {
    seq(|ids|, i requires 0 <= i < |ids| => Replayed(ids[i]))
  }

  /** One attempt in full, or up to its error: a fresh copy, the actions in order, and then the oracle. */
  function AttemptLaunches(ids: seq<Id>, oracle: OracleSpec, a: TrialAttempt): seq<Launch> {
    if |a.actions| >= |ids| then [Copied] + Replays(ids) + [Asked(oracle)] else [Copied] + Replays(ids[..|a.actions| + 1])
  }

  function TrialLaunches(ids: seq<Id>, oracle: OracleSpec, attempts: seq<TrialAttempt>): seq<Launch> {
    if attempts == [] then []
    else TrialLaunches(ids, oracle, attempts[..|attempts| - 1]) + AttemptLaunches(ids, oracle, attempts[|attempts| - 1])
  }

  lemma LaunchesNone(ids: seq<Id>, oracle: OracleSpec)
    ensures TrialLaunches(ids, oracle, []) == []
  {}

  lemma LaunchesSnoc(ids: seq<Id>, oracle: OracleSpec, attempts: seq<TrialAttempt>, last: TrialAttempt)
    ensures TrialLaunches(ids, oracle, attempts + [last]) == TrialLaunches(ids, oracle, attempts) + AttemptLaunches(ids, oracle, last)
  {
    assert (attempts + [last])[..|attempts|] == attempts;
  }

  // ---- the code ----

  /** Two of the actions carry the same id, or the same place in the order. */
  ghost predicate Clash(actions: seq<Action>) {
    exists i, j :: 0 <= i < j < |actions| && (actions[i].id == actions[j].id || actions[i].originalOrder == actions[j].originalOrder)
  }

  method EnsureUniqueActions(actions: seq<Action>) returns (r: Result<(), AppError>)
    ensures r.Err? ==> r.error.DuplicateInCandidate?
    ensures r.Ok? <==> !Clash(actions)
    ensures r.Ok? ==> Distinct(Ids(actions))
  {
    var ids: set<Id>, orders: set<nat> := {}, {};
    for k := 0 to |actions|
      invariant ids == set i | 0 <= i < k :: actions[i].id
      invariant orders == set i | 0 <= i < k :: actions[i].originalOrder
      invariant forall i, j | 0 <= i < j < k :: actions[i].id != actions[j].id && actions[i].originalOrder != actions[j].originalOrder
    {
      if actions[k].id in ids || actions[k].originalOrder in orders {
        assert exists i :: 0 <= i < k && (actions[i].id == actions[k].id || actions[i].originalOrder == actions[k].originalOrder);
        return Err(DuplicateInCandidate(actions[k].id));
      }
      ids, orders := ids + {actions[k].id}, orders + {actions[k].originalOrder};
    }
    r := Ok(());
  }

  /** Any process may fail to run, or end in any way; it reports a cancellation only when there was one. */
  method RunProcess(launch: Launch, token: CancellationToken) returns (r: Result<ProcessEvidence, string>)
    modifies token
    ensures old(token.cancelled) ==> token.cancelled
    ensures token.launched == old(token.launched) + [launch]
    ensures r.Ok? && r.value.cancelled ==> token.cancelled
  {
    token.launched := token.launched + [launch];
    var cancelled := token.IsCancelled();
    if * { return Err(""); }
    var exitCode: Option<int> := *;
    var timedOut: bool := *;
    var reported: bool := *;
    r := Ok(ProcessEvidence(exitCode, timedOut, reported && cancelled));
  }

  method ReplayActions(ordered: seq<Action>, token: CancellationToken)
    returns (results: seq<ProcessEvidence>, error: Option<string>)
    modifies token
    ensures old(token.cancelled) ==> token.cancelled
    ensures |results| <= |ordered| && (error.Some? ==> |results| < |ordered|)
    ensures token.launched == old(token.launched) + Replays(Ids(ordered)[..|results| + if error.Some? then 1 else 0])
    ensures forall i | 0 <= i < |results| - 1 :: !results[i].cancelled
    ensures error.None? && |results| < |ordered| ==> results != [] && results[|results| - 1].cancelled && token.cancelled
  {
    results, error := [], None;
    for i := 0 to |ordered|
      invariant old(token.cancelled) ==> token.cancelled
      invariant |results| == i && error.None? && token.launched == old(token.launched) + Replays(Ids(ordered)[..i])
      invariant forall k | 0 <= k < i :: !results[k].cancelled
    {
      assert Replays(Ids(ordered)[..i + 1]) == Replays(Ids(ordered)[..i]) + [Replayed(ordered[i].id)];
      var outcome := RunProcess(Replayed(ordered[i].id), token);
      match outcome {
        case Ok(result) =>
          results := results + [result];
          if result.cancelled { return; }
        case Err(problem) =>
          error := Some(problem);
          return;
      }
    }
  }

  method PrepareCopy(token: CancellationToken) returns (r: Result<(), AppError>)
    modifies token`launched
    ensures token.launched == old(token.launched) + [Copied]
    ensures r.Err? ==> token.CopyFailed(r.error)
  {
    token.launched := token.launched + [Copied];
    if * { return Err(Environment("copy")); }
    if * { return Err(BaselineMismatch); }
    r := Ok(());
  }

  /** The body of the loop over the repetitions, between two looks at the token. */
  method Attempt(ordered: seq<Action>, oracle: OracleSpec, index: nat, token: CancellationToken) returns (r: Result<TrialAttempt, AppError>)
    modifies token
    ensures old(token.cancelled) ==> token.cancelled
    ensures r.Ok? ==> r.value.index == index
    ensures r.Ok? && !token.cancelled ==> Attempted(r.value, |ordered|)
    ensures r.Ok? && !token.cancelled ==> token.launched == old(token.launched) + AttemptLaunches(Ids(ordered), oracle, r.value)
    ensures r.Err? ==> token.CopyFailed(r.error)
  {
    assert Ids(ordered)[..|ordered|] == Ids(ordered);
    var copied := PrepareCopy(token);
    if copied.Err? { return Err(copied.error); }
    var results, error := ReplayActions(ordered, token);
    var answer: Option<ProcessEvidence> := None;
    var stop := token.IsCancelled();
    if error.None? && !stop {
      var ran := RunProcess(Asked(oracle), token);
      match ran {
        case Ok(evidence) => answer := Some(evidence);
        case Err(problem) => error := Some(problem);
      }
    }
    r := Ok(TrialAttempt(index, results, answer, error));
  }

  /** The loop over the repetitions: it ends with the first error, or once the token is set. */
  method Repeat(ordered: seq<Action>, runner: TrialRunner, token: CancellationToken) returns (r: Result<seq<TrialAttempt>, AppError>)
    modifies token
    ensures old(token.cancelled) ==> token.cancelled
    ensures r.Ok? ==> forall i | 0 <= i < |r.value| :: r.value[i].index == i + 1
    ensures r.Ok? && !token.cancelled ==>
      && Thorough(r.value, runner.repetitions, |ordered|)
      && token.launched == old(token.launched) + TrialLaunches(Ids(ordered), runner.oracle, r.value)
    ensures r.Err? ==> token.CopyFailed(r.error)
  {
    hide AttemptLaunches, TrialLaunches;
    LaunchesNone(Ids(ordered), runner.oracle);
    var attempts: seq<TrialAttempt> := [];
    var index := 1;
    while index <= runner.repetitions
      invariant 1 <= index <= runner.repetitions + 1
      invariant |attempts| == index - 1
      invariant forall i | 0 <= i < |attempts| :: attempts[i].index == i + 1
      invariant old(token.cancelled) ==> token.cancelled
      invariant token.cancelled || token.launched == old(token.launched) + TrialLaunches(Ids(ordered), runner.oracle, attempts)
      invariant token.cancelled || forall i | 0 <= i < |attempts| :: attempts[i].error.None? && Attempted(attempts[i], |ordered|)
    {
      var stop := token.IsCancelled();
      if stop { break; }
      var attempted := Attempt(ordered, runner.oracle, index, token);
      if attempted.Err? { return Err(attempted.error); }
      var attempt := attempted.value;
      LaunchesSnoc(Ids(ordered), runner.oracle, attempts, attempt);
      attempts := attempts + [attempt];
      stop := token.IsCancelled();
      if stop || attempt.error.Some? { break; }
      index := index + 1;
    }
    r := Ok(attempts);
  }

  method Run(runner: TrialRunner, actions: seq<Action>, token: CancellationToken) returns (r: Result<Trial, AppError>)
    modifies token
    ensures old(token.cancelled) ==> token.cancelled
    ensures r.Ok? ==> r.value.actionIds == Ids(SortByOrder(actions)) && Distinct(r.value.actionIds)
    ensures r.Ok? ==> PassEvidence(r.value, runner.repetitions) && r.value.baselineHash == runner.baselineHash
    ensures r.Ok? ==> (r.value.outcome == Cancelled <==> token.cancelled)
    ensures r.Ok? ==> r.value.outcome == ClassifyOutcome(r.value.repetitions, runner.repetitions, token.cancelled)
    ensures r.Ok? && !token.cancelled ==> Thorough(r.value.repetitions, runner.repetitions, |actions|)
    ensures r.Ok? && !token.cancelled ==>
      token.launched == old(token.launched) + TrialLaunches(r.value.actionIds, runner.oracle, r.value.repetitions)
    ensures r.Err? ==> token.CopyFailed(r.error) || (r.error.DuplicateInCandidate? && Clash(SortByOrder(actions)))
  {
    hide TrialLaunches, Thorough, ClassifyOutcome, PassEvidence;
    var trialId: nat := *;
    var ordered := SortByOrder(actions);
    SortKeeps(actions);
    assert |ordered| == |actions|;
    var unique := EnsureUniqueActions(ordered);
    if unique.Err? { return Err(unique.error); }
    var attempts := Repeat(ordered, runner, token);
    if attempts.Err? { return Err(attempts.error); }
    var cancelled := token.IsCancelled();
    var trial := Trial(trialId, Ids(ordered), attempts.value, ClassifyOutcome(attempts.value, runner.repetitions, cancelled),
                       runner.baselineHash);
    OutcomeShown(trial, runner.repetitions, cancelled);
    r := Ok(trial);
  }

  lemma OutcomeShown(t: Trial, repetitions: nat, cancelled: bool)
    requires t.outcome == ClassifyOutcome(t.repetitions, repetitions, cancelled)
    requires forall i | 0 <= i < |t.repetitions| :: t.repetitions[i].index == i + 1
    ensures PassEvidence(t, repetitions) && (t.outcome == Cancelled <==> cancelled)
  {
    OutcomeMeaning(t.repetitions, repetitions, cancelled);
    hide ClassifyOutcome;
  }
}
