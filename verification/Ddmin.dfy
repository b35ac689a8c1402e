/** Delta debugging over normalized candidates (src/minimize/ddmin.rs). */
module DeltaDebugging {
  import opened Common
  import opened Actions
  import opened Dependency
  import opened Runner
  import opened Evaluation

  // ---- partition ----

  function Clamped(n: nat, count: nat): nat {
    Min(Max(count, 1), Max(n, 1))
  }

  function PieceSize(n: nat, pieces: nat, k: nat): nat
    requires pieces > 0
  {
    n / pieces + if k < n % pieces then 1 else 0
  }

  /** Where piece `k` starts. */
  function Start(n: nat, pieces: nat, k: nat): nat
    requires pieces > 0
  {
    if k == 0 then 0 else Start(n, pieces, k - 1) + PieceSize(n, pieces, k - 1)
  }

  lemma {:induction false} StartClosedForm(n: nat, pieces: nat, k: nat)
    requires pieces > 0
    ensures Start(n, pieces, k) == k * (n / pieces) + Min(k, n % pieces)
  {
    if k > 0 {
      StartClosedForm(n, pieces, k - 1);
      assert k * (n / pieces) == (k - 1) * (n / pieces) + n / pieces;
    }
  }

  lemma StartEnds(n: nat, pieces: nat)
    requires pieces > 0
    ensures Start(n, pieces, pieces) == n
  {
    StartClosedForm(n, pieces, pieces);
    assert n == pieces * (n / pieces) + n % pieces;
  }

  lemma {:induction false} StartMonotone(n: nat, pieces: nat, j: nat, k: nat)
    requires pieces > 0 && j <= k
    ensures Start(n, pieces, j) <= Start(n, pieces, k)
    decreases k - j
  {
    if j < k {
      StartMonotone(n, pieces, j, k - 1);
    }
  }

  lemma StartInside(n: nat, pieces: nat, k: nat)
    requires k < pieces
    ensures Start(n, pieces, k + 1) == Start(n, pieces, k) + PieceSize(n, pieces, k) <= n
  {
    StartMonotone(n, pieces, k + 1, pieces);
    StartEnds(n, pieces);
  }

  /** Position `i` lies in some piece. */
  lemma {:induction false} PieceAt(n: nat, pieces: nat, i: nat, k: nat) returns (j: nat)
    requires pieces > 0 && i < Start(n, pieces, k)
    ensures j < k && Start(n, pieces, j) <= i < Start(n, pieces, j + 1)
  {
    if i < Start(n, pieces, k - 1) {
      j := PieceAt(n, pieces, i, k - 1);
    } else {
      j := k - 1;
    }
  }

  ghost function Elements(s: seq<Id>): set<Id> { set x | x in s }

  /** The elements at positions `lo` up to `hi`. */
  function Range(ids: seq<Id>, lo: nat, hi: nat): set<Id> {
    set i | lo <= i < hi && i < |ids| :: ids[i]
  }

  lemma {:induction false} RangeSize(ids: seq<Id>, lo: nat, hi: nat)
    requires Distinct(ids) && lo <= hi <= |ids|
    ensures |Range(ids, lo, hi)| == hi - lo
  {
    if lo < hi {
      RangeSize(ids, lo, hi - 1);
      assert Range(ids, lo, hi) == Range(ids, lo, hi - 1) + {ids[hi - 1]};
    } else {
      assert Range(ids, lo, hi) == {};
    }
  }

  function Piece(ids: seq<Id>, pieces: nat, k: nat): set<Id>
    requires pieces > 0
  {
    Range(ids, Start(|ids|, pieces, k), Start(|ids|, pieces, k + 1))
  }

  /** The pieces are non-empty, disjoint, cover `s`, and their sizes differ by at most one. */
  ghost predicate EvenPartition(pieces: seq<set<Id>>, s: set<Id>) {
    && (forall k | 0 <= k < |pieces| :: pieces[k] != {} && pieces[k] <= s)
    && (forall j, k | 0 <= j < k < |pieces| :: pieces[j] !! pieces[k])
    && (forall x | x in s :: exists k :: 0 <= k < |pieces| && x in pieces[k])
    && (forall j, k | 0 <= j < |pieces| && 0 <= k < |pieces| :: |pieces[j]| <= |pieces[k]| + 1)
  }

  /** The consecutive ranges of the listing. */
  function Cut(ids: seq<Id>, count: nat): (pieces: seq<set<Id>>)
    ensures |pieces| == if ids == [] then 0 else Clamped(|ids|, count)
    ensures forall k | 0 <= k < |pieces| :: pieces[k] == Piece(ids, Clamped(|ids|, count), k)
  {
    if ids == [] then []
    else seq(Clamped(|ids|, count), k requires 0 <= k < Clamped(|ids|, count) => Piece(ids, Clamped(|ids|, count), k))
  }

  method Partition(ids: seq<Id>, count: nat) returns (result: seq<set<Id>>)
    ensures result == Cut(ids, count)
  {
    var clamped := Clamped(|ids|, count);
    var baseSize, remainder := |ids| / clamped, |ids| % clamped;
    result := [];
    var start := 0;
    if ids != [] { Shares(|ids|, clamped); }
    for index := 0 to clamped
      invariant start == Start(|ids|, clamped, index)
      invariant |result| == if ids == [] then 0 else index
      invariant forall k | 0 <= k < |result| :: result[k] == Piece(ids, clamped, k)
    {
      StartInside(|ids|, clamped, index);
      var size := baseSize + if index < remainder then 1 else 0;
      var end := start + size;
      if start < end {
        result := result + [Range(ids, start, end)];
      }
      start := end;
    }
  }

  lemma Shares(n: nat, pieces: nat)
    requires 0 < pieces <= n
    ensures n / pieces >= 1
  {}

  lemma PieceFacts(ids: seq<Id>, pieces: nat, k: nat)
    requires Distinct(ids) && k < pieces <= |ids|
    ensures |Piece(ids, pieces, k)| == PieceSize(|ids|, pieces, k) >= 1
    ensures Piece(ids, pieces, k) <= Elements(ids)
  {
    StartInside(|ids|, pieces, k);
    RangeSize(ids, Start(|ids|, pieces, k), Start(|ids|, pieces, k + 1));
    Shares(|ids|, pieces);
  }

  lemma PiecesDisjoint(ids: seq<Id>, pieces: nat, j: nat, k: nat)
    requires Distinct(ids) && j < k < pieces
    ensures Piece(ids, pieces, j) !! Piece(ids, pieces, k)
  {
    StartMonotone(|ids|, pieces, j + 1, k);
  }

  lemma PiecesCover(ids: seq<Id>, pieces: nat, x: Id) returns (k: nat)
    requires 0 < pieces && x in ids
    ensures k < pieces && x in Piece(ids, pieces, k)
  {
    var i :| 0 <= i < |ids| && ids[i] == x;
    StartEnds(|ids|, pieces);
    k := PieceAt(|ids|, pieces, i, pieces);
  }

  lemma PiecesFair(ids: seq<Id>, count: nat)
    requires Distinct(ids)
    ensures var pieces := Cut(ids, count);
      && (forall k | 0 <= k < |pieces| :: pieces[k] != {} && pieces[k] <= Elements(ids))
      && (forall j, k | 0 <= j < |pieces| && 0 <= k < |pieces| :: |pieces[j]| <= |pieces[k]| + 1)
  {
    var pieces, c := Cut(ids, count), Clamped(|ids|, count);
    forall k | 0 <= k < |pieces|
      ensures pieces[k] != {} && pieces[k] <= Elements(ids) && |ids| / c <= |pieces[k]| <= |ids| / c + 1
    {
      PieceFacts(ids, c, k);
    }
  }

  lemma PartitionIsEven(ids: seq<Id>, count: nat)
    requires Distinct(ids)
    ensures EvenPartition(Cut(ids, count), Elements(ids))
  {
    var pieces, c := Cut(ids, count), Clamped(|ids|, count);
    PiecesFair(ids, count);
    forall j, k | 0 <= j < k < |pieces| ensures pieces[j] !! pieces[k] {
      PiecesDisjoint(ids, c, j, k);
    }
    forall x | x in Elements(ids) ensures exists k :: 0 <= k < |pieces| && x in pieces[k] {
      var k := PiecesCover(ids, c, x);
      assert x in pieces[k];
    }
  }

  /** At the finest granularity every piece is a single action. */
  lemma FinestPieces(ids: seq<Id>, count: nat, a: Id) returns (k: nat)
    requires Distinct(ids) && count >= |ids| && a in ids
    ensures k < |Cut(ids, count)| && Cut(ids, count)[k] == {a}
  {
    var pieces := Cut(ids, count);
    k := PiecesCover(ids, |ids|, a);
    PieceFacts(ids, |ids|, k);
    assert |ids| / |ids| == 1 && |ids| % |ids| == 0;
    assert |pieces[k] - {a}| == 0;
  }

  // ---- what ddmin does, read off a journal ----

  /** A candidate that would be smaller, once normalized, has been tried and did not pass. */
  ghost predicate Futile(j: Journal, current: set<Id>, candidate: set<Id>) {
    |j.Normal(candidate)| < |current| ==> j.Refuted(j.Normal(candidate))
  }

  ghost predicate AllFutile(j: Journal, current: set<Id>, candidates: seq<set<Id>>) {
    forall k | 0 <= k < |candidates| :: Futile(j, current, candidates[k])
  }

  /** `smaller` is the first of the candidates that passed. */
  ghost predicate FirstHit(j: Journal, current: set<Id>, candidates: seq<set<Id>>, smaller: set<Id>) {
    exists k :: 0 <= k < |candidates| && smaller == j.Normal(candidates[k]) && |smaller| < |current| && j.Passes(smaller)
             && AllFutile(j, current, candidates[..k])
  }

  /** What is under reduction, and into how many pieces it is cut. */
  datatype Stage = Stage(current: set<Id>, granularity: nat) {
    function Pieces(j: Journal): seq<set<Id>> { Cut(j.Ordered(current), granularity) }

    function Complements(j: Journal): (r: seq<set<Id>>)
      ensures |r| == |Pieces(j)| && forall k | 0 <= k < |r| :: r[k] == current - Pieces(j)[k]
    {
      seq(|Pieces(j)|, k requires 0 <= k < |Pieces(j)| => current - Pieces(j)[k])
    }

    ghost predicate Exhausted(j: Journal) { AllFutile(j, current, Pieces(j)) && AllFutile(j, current, Complements(j)) }

    /** Down to the first piece that passes; if none does, to the first complement; else to a finer cut. */
    ghost predicate Leads(j: Journal, next: Stage) {
      || (FirstHit(j, current, Pieces(j), next.current) && next.granularity == Max(granularity - 1, 2))
      || (AllFutile(j, current, Pieces(j)) && FirstHit(j, current, Complements(j), next.current)
          && next.granularity == Max(granularity - 1, 2))
      || (Exhausted(j) && granularity < |current| && next == Stage(current, Min(2 * granularity, |current|)))
    }

    /** One action is left, or the finest cut is exhausted. */
    ghost predicate Over(j: Journal) { |current| <= 1 || (granularity >= |current| && Exhausted(j)) }
  }

  /** From the one stage to the other, round by round. */
  ghost predicate Walk(j: Journal, path: seq<Stage>) {
    forall i | 0 <= i < |path| - 1 :: |path[i].current| >= 2 && path[i].Leads(j, path[i + 1])
  }

  /** `end` is where ddmin comes to from `start`, going by the recorded verdicts. */
  ghost predicate Narrows(j: Journal, start: set<Id>, end: set<Id>) {
    exists path: seq<Stage> :: path != [] && Walk(j, path) && path[0] == Stage(start, 2) && path[|path| - 1].current == end && path[|path| - 1].Over(j)
  }

  lemma WalkSnoc(j: Journal, path: seq<Stage>, next: Stage)
    requires path != [] && Walk(j, path) && |path[|path| - 1].current| >= 2 && path[|path| - 1].Leads(j, next)
    ensures Walk(j, path + [next])
  {
    hide Stage.Leads;
    var all := path + [next];
    forall i | 0 <= i < |all| - 1 ensures |all[i].current| >= 2 && all[i].Leads(j, all[i + 1]) {
      if i < |path| - 1 { assert path[i].Leads(j, path[i + 1]); }
    }
  }

  // ---- what is on record stays on record ----

  lemma FutileStays(j: Journal, more: seq<Trial>, current: set<Id>, candidates: seq<set<Id>>)
    requires j.trials <= more
    ensures AllFutile(j, current, candidates) ==> AllFutile(j.(trials := more), current, candidates)
  {
    VerdictsStay(j, more);
    hide Journal.Refuted;
    if AllFutile(j, current, candidates) {
      forall k | 0 <= k < |candidates| ensures Futile(j.(trials := more), current, candidates[k]) {
        assert Futile(j, current, candidates[k]);
      }
    }
  }

  lemma HitStays(j: Journal, more: seq<Trial>, current: set<Id>, candidates: seq<set<Id>>, smaller: set<Id>)
    requires j.trials <= more && FirstHit(j, current, candidates, smaller)
    ensures FirstHit(j.(trials := more), current, candidates, smaller)
  {
    VerdictsStay(j, more);
    hide Journal.Refuted, Journal.Passes, AllFutile;
    var k :| 0 <= k < |candidates| && smaller == j.Normal(candidates[k]) && |smaller| < |current| && j.Passes(smaller)
          && AllFutile(j, current, candidates[..k]);
    FutileStays(j, more, current, candidates[..k]);
    assert smaller == j.(trials := more).Normal(candidates[k]);
  }

  lemma LeadsStays(j: Journal, more: seq<Trial>, s: Stage, t: Stage)
    requires j.trials <= more
    ensures s.Leads(j, t) ==> s.Leads(j.(trials := more), t)
    ensures s.Over(j) ==> s.Over(j.(trials := more))
  {
    hide AllFutile, FirstHit;
    FutileStays(j, more, s.current, s.Pieces(j));
    FutileStays(j, more, s.current, s.Complements(j));
    if FirstHit(j, s.current, s.Pieces(j), t.current) { HitStays(j, more, s.current, s.Pieces(j), t.current); }
    if FirstHit(j, s.current, s.Complements(j), t.current) { HitStays(j, more, s.current, s.Complements(j), t.current); }
  }

  lemma WalkStays(j: Journal, more: seq<Trial>, path: seq<Stage>)
    requires j.trials <= more && Walk(j, path)
    ensures Walk(j.(trials := more), path)
  {
    hide Stage.Leads, Stage.Over;
    forall i | 0 <= i < |path| - 1 ensures |path[i].current| >= 2 && path[i].Leads(j.(trials := more), path[i + 1]) {
      LeadsStays(j, more, path[i], path[i + 1]);
    }
  }

  lemma NarrowsStays(j: Journal, more: seq<Trial>, start: set<Id>, end: set<Id>)
    requires j.trials <= more && Narrows(j, start, end)
    ensures Narrows(j.(trials := more), start, end)
  {
    hide Stage.Leads, Stage.Over, Walk;
    var path: seq<Stage> :| path != [] && Walk(j, path) && path[0] == Stage(start, 2) && path[|path| - 1].current == end && path[|path| - 1].Over(j);
    WalkStays(j, more, path);
    LeadsStays(j, more, path[|path| - 1], path[|path| - 1]);
  }

  // ---- and what it amounts to ----

  /** No smaller normalized singleton and no smaller normalized one-action complement passes. */
  ghost predicate OneMinimal(j: Journal, c: set<Id>) {
    forall a | a in c :: Futile(j, c, {a}) && Futile(j, c, c - {a})
  }

  lemma OverIsMinimal(j: Journal, s: Stage)
    requires KeyedById(j.actions) && s.current <= j.actions.Keys && s.Over(j)
    ensures |s.current| <= 1 || OneMinimal(j, s.current)
  {
    if |s.current| > 1 {
      ListedDistinct(j, s.current);
      forall a | a in s.current ensures Futile(j, s.current, {a}) && Futile(j, s.current, s.current - {a}) {
        var k := FinestPieces(j.Ordered(s.current), s.granularity, a);
        assert Futile(j, s.current, s.Pieces(j)[k]) && Futile(j, s.current, s.Complements(j)[k]);
      }
    }
  }

  /** No candidate both passed and failed. */
  ghost predicate Consistent(j: Journal) { forall c: set<Id> :: !(j.Passes(c) && j.Refuted(c)) }

  lemma FutileBefore(j: Journal, current: set<Id>, candidates: seq<set<Id>>, n: nat, k: nat)
    requires n <= |candidates| && k < |candidates| && AllFutile(j, current, candidates[..n]) && !Futile(j, current, candidates[k])
    ensures n <= k
  {
    assert forall i | 0 <= i < n :: candidates[..n][i] == candidates[i];
  }

  lemma HitUnique(j: Journal, current: set<Id>, candidates: seq<set<Id>>, a: set<Id>, b: set<Id>)
    requires Consistent(j) && FirstHit(j, current, candidates, a)
    ensures !AllFutile(j, current, candidates)
    ensures FirstHit(j, current, candidates, b) ==> a == b
  {
    hide Journal.Passes, Journal.Refuted, Journal.Normal;
    var k :| 0 <= k < |candidates| && a == j.Normal(candidates[k]) && |a| < |current| && j.Passes(a) && AllFutile(j, current, candidates[..k]);
    assert !Futile(j, current, candidates[k]);
    if FirstHit(j, current, candidates, b) {
      var i :| 0 <= i < |candidates| && b == j.Normal(candidates[i]) && |b| < |current| && j.Passes(b) && AllFutile(j, current, candidates[..i]);
      assert !Futile(j, current, candidates[i]);
      FutileBefore(j, current, candidates, i, k);
      FutileBefore(j, current, candidates, k, i);
    }
  }

  lemma LeadsUnique(j: Journal, s: Stage, a: Stage, b: Stage)
    requires Consistent(j) && s.Leads(j, a)
    ensures s.Leads(j, b) ==> a == b
    ensures |s.current| >= 2 ==> !s.Over(j)
  {
    hide FirstHit, AllFutile, Consistent;
    var pieces, complements := s.Pieces(j), s.Complements(j);
    if FirstHit(j, s.current, pieces, a.current) { HitUnique(j, s.current, pieces, a.current, b.current); }
    if FirstHit(j, s.current, complements, a.current) { HitUnique(j, s.current, complements, a.current, b.current); }
    if FirstHit(j, s.current, pieces, b.current) { HitUnique(j, s.current, pieces, b.current, a.current); }
    if FirstHit(j, s.current, complements, b.current) { HitUnique(j, s.current, complements, b.current, a.current); }
  }

  lemma {:induction false} WalkUnique(j: Journal, p: seq<Stage>, q: seq<Stage>, i: nat)
    requires Consistent(j) && Walk(j, p) && Walk(j, q) && i < |p| && i < |q| && p[0] == q[0]
    ensures p[i] == q[i]
  {
    hide Stage.Leads, Stage.Over, Consistent;
    if i > 0 {
      WalkUnique(j, p, q, i - 1);
      assert p[i - 1].Leads(j, p[i - 1 + 1]) && q[i - 1].Leads(j, q[i - 1 + 1]);
      LeadsUnique(j, p[i - 1], p[i], q[i]);
    }
  }

  /** The verdicts determine the result: there is one set that ddmin comes to. */
  lemma NarrowsUnique(j: Journal, start: set<Id>, a: set<Id>, b: set<Id>)
    requires Consistent(j) && Narrows(j, start, a) && Narrows(j, start, b)
    ensures a == b
  {
    hide Stage.Leads, Stage.Over, Consistent;
    var p: seq<Stage> :| p != [] && Walk(j, p) && p[0] == Stage(start, 2) && p[|p| - 1].current == a && p[|p| - 1].Over(j);
    var q: seq<Stage> :| q != [] && Walk(j, q) && q[0] == Stage(start, 2) && q[|q| - 1].current == b && q[|q| - 1].Over(j);
    var i := Min(|p|, |q|) - 1;
    WalkUnique(j, p, q, i);
    if i < |p| - 1 { LeadsUnique(j, p[i], p[i + 1], p[i + 1]); }
    if i < |q| - 1 { LeadsUnique(j, q[i], q[i + 1], q[i + 1]); }
  }

  lemma ListedDistinct(j: Journal, current: set<Id>)
    requires KeyedById(j.actions) && current <= j.actions.Keys
    ensures Distinct(j.Ordered(current)) && Elements(j.Ordered(current)) == current && |j.Ordered(current)| == |current|
  {
    OrderedIdsFaithful(j.actions, current);
    assert current * j.actions.Keys == current;
  }

  /** m * (m - 1) */
  function Pairs(m: nat): nat { if m == 0 then 0 else Pairs(m - 1) + 2 * (m - 1) }

  lemma {:induction false} PairsMonotone(a: nat, b: nat)
    requires a <= b
    ensures Pairs(a) <= Pairs(b)
    decreases b
  {
    if a < b {
      PairsMonotone(a, b - 1);
    }
  }

  /** The most evaluations that ddmin asks for on `n` actions. */
  function CallBound(n: nat): nat { 3 * Pairs(n + 1) }

  lemma {:induction false} CallBoundIs(n: nat)
    ensures CallBound(n) == 3 * n * (n + 1)
  {
    if n > 0 {
      CallBoundIs(n - 1);
    }
  }

  /** Bounds the calls still to come with `m` actions left, cut into `p` pieces. */
  function Potential(m: nat, p: nat): int {
    3 * Pairs(m) + if p == m then 2 * m else 6 * m - 2 * p
  }

  lemma PotentialDrops(m: nat, p: nat, m': nat, p': nat)
    requires m' < m && p <= m && p' <= m'
    ensures 2 * p + Potential(m', p') <= Potential(m, p)
  {
    assert Pairs(m') + 2 * m' == Pairs(m' + 1);
    PairsMonotone(m' + 1, m);
  }

  // ---- the code ----

  /** Tries the candidates in turn and stops at the first smaller one that passes. */
  method FirstPassing(ctx: EvaluationContext, current: set<Id>, candidates: seq<set<Id>>)
    returns (r: Result<Option<set<Id>>, AppError>, ghost calls: nat)
    requires ctx.Valid() && ctx.Normal(current) == current
    requires forall k | 0 <= k < |candidates| :: candidates[k] <= current
    modifies ctx`cache, ctx`trials, ctx.token
    ensures ctx.Valid() && ctx.Extends()
    ensures old(ctx.token.cancelled) ==> ctx.token.cancelled
    ensures calls <= |candidates| && |ctx.trials| <= |old(ctx.trials)| + calls
    ensures r.Ok? && r.value.Some? ==>
      var c := r.value.value; FirstHit(ctx.Log(), current, candidates, c) && ctx.Normal(c) == c && c <= current
    ensures r.Ok? && r.value.None? ==> AllFutile(ctx.Log(), current, candidates)
    ensures r.Err? ==> ctx.TrialFailed(r.error)
  {
    hide EvaluationContext.Memo, EvaluationContext.Sound, AllFutile, Normalized, Journal.Passes, Journal.Refuted;
    calls := 0;
    NoneFutile(ctx.Log(), current, candidates);
    for i := 0 to |candidates|
      invariant ctx.Valid() && ctx.Extends()
      invariant old(ctx.token.cancelled) ==> ctx.token.cancelled
      invariant calls <= i && |ctx.trials| <= |old(ctx.trials)| + calls
      invariant AllFutile(ctx.Log(), current, candidates[..i])
    {
      var candidate := ctx.Normalize(candidates[i]);
      ctx.NormalMonotone(candidates[i], current);
      ctx.NormalIdempotent(candidates[i]);
      ghost var before := ctx.Log();
      assert candidate == before.Normal(candidates[i]);
      if |candidate| < |current| {
        calls := calls + 1;
        var trial := ctx.Evaluate(candidate);
        if trial.Err? { return Err(trial.error), calls; }
        FutileStays(before, ctx.trials, current, candidates[..i]);
        Judged(ctx.Log(), trial.value, candidate);
        if trial.value.outcome == StablePass {
          assert candidate == ctx.Log().Normal(candidates[i]);
          return Ok(Some(candidate)), calls;
        }
      }
      FutileSnoc(ctx.Log(), current, candidates, i);
    }
    assert candidates[..|candidates|] == candidates;
    r := Ok(None);
  }

  lemma NoneFutile(j: Journal, current: set<Id>, candidates: seq<set<Id>>)
    ensures AllFutile(j, current, candidates[..0])
  {}

  lemma FutileSnoc(j: Journal, current: set<Id>, candidates: seq<set<Id>>, i: nat)
    requires i < |candidates| && AllFutile(j, current, candidates[..i]) && Futile(j, current, candidates[i])
    ensures AllFutile(j, current, candidates[..i + 1])
  {
    var tried := candidates[..i + 1];
    forall k | 0 <= k < |tried| ensures Futile(j, current, tried[k]) {
      if k < i { assert Futile(j, current, candidates[..i][k]); }
    }
  }

  lemma Judged(j: Journal, t: Trial, candidate: set<Id>)
    requires t in j.trials && t.actionIds == j.Ordered(candidate)
    ensures if t.outcome == StablePass then j.Passes(candidate) else j.Refuted(candidate)
  {}

  datatype RoundResult = Reduced(smaller: set<Id>) | Refine | Finished

  /** One pass of the loop body: subsets, then complements, then a finer granularity. */
  method Round(ctx: EvaluationContext, current: set<Id>, granularity: nat)
    returns (r: Result<RoundResult, AppError>, next: nat, ghost calls: nat)
    requires ctx.Valid() && ctx.Normal(current) == current <= ctx.actions.Keys
    requires |current| >= 2 && granularity >= 2
    modifies ctx`cache, ctx`trials, ctx.token
    ensures ctx.Valid() && ctx.Extends()
    ensures old(ctx.token.cancelled) ==> ctx.token.cancelled
    ensures calls <= 2 * Min(granularity, |current|) && |ctx.trials| <= |old(ctx.trials)| + calls
    ensures r.Ok? ==>
      match r.value {
        case Reduced(c) =>
          && Stage(current, granularity).Leads(ctx.Log(), Stage(c, next)) && ctx.Normal(c) == c
          && c <= current && |c| < |current| && ctx.Log().Passes(c) && next == Max(granularity - 1, 2)
        case Refine =>
          && Stage(current, granularity).Leads(ctx.Log(), Stage(current, next))
          && granularity < |current| && next == Min(granularity * 2, |current|)
        case Finished => Stage(current, granularity).Over(ctx.Log())
      }
    ensures r.Err? ==> ctx.TrialFailed(r.error)
  {
    hide EvaluationContext.Memo, EvaluationContext.Sound, EvaluationContext.Normal, Journal.Normal, AllFutile, Cut;
    ghost var stage := Stage(current, granularity);
    next := granularity;
    var pieces := Partition(ctx.Ordered(current), granularity);
    PiecesInside(ctx.Log(), stage);
    assert pieces == stage.Pieces(ctx.Log());
    var found;
    found, calls := FirstPassing(ctx, current, pieces);
    if found.Err? { return Err(found.error), next, calls; }
    if found.value.Some? {
      return Ok(Reduced(found.value.value)), Max(granularity - 1, 2), calls;
    }
    ghost var searched := ctx.Log();
    var complements := seq(|pieces|, k requires 0 <= k < |pieces| => current - pieces[k]);
    assert complements == stage.Complements(ctx.Log());
    ghost var more;
    found, more := FirstPassing(ctx, current, complements);
    FutileStays(searched, ctx.trials, current, pieces);
    calls := calls + more;
    if found.Err? { return Err(found.error), next, calls; }
    if found.value.Some? {
      return Ok(Reduced(found.value.value)), Max(granularity - 1, 2), calls;
    }
    if granularity >= |current| { return Ok(Finished), next, calls; }
    r, next := Ok(Refine), Min(granularity * 2, |current|);
  }

  lemma PiecesInside(j: Journal, s: Stage)
    requires KeyedById(j.actions) && s.current <= j.actions.Keys && s.current != {}
    ensures |s.Pieces(j)| <= Min(s.granularity, |s.current|) || s.granularity == 0
    ensures forall k | 0 <= k < |s.Pieces(j)| :: s.Pieces(j)[k] <= s.current
  {
    ListedDistinct(j, s.current);
    PiecesFair(j.Ordered(s.current), s.granularity);
  }

  method Ddmin(ctx: EvaluationContext, initial: set<Id>) returns (r: Result<set<Id>, AppError>, ghost calls: nat)
    requires ctx.Valid()
    modifies ctx`cache, ctx`trials, ctx.token
    ensures ctx.Valid() && ctx.Extends()
    ensures old(ctx.token.cancelled) ==> ctx.token.cancelled
    ensures calls <= CallBound(|ctx.Normal(initial)|) && |ctx.trials| <= |old(ctx.trials)| + calls
    ensures r.Ok? ==> Narrows(ctx.Log(), ctx.Normal(initial), r.value)
    ensures r.Ok? ==> r.value <= ctx.Normal(initial) && ctx.Normal(r.value) == r.value
    ensures r.Ok? ==> r.value == ctx.Normal(initial) || ctx.Log().Passes(r.value)
    ensures r.Ok? ==> |r.value| <= 1 || OneMinimal(ctx.Log(), r.value)
    ensures r.Err? ==> ctx.TrialFailed(r.error)
  {
    hide EvaluationContext.Memo, EvaluationContext.Sound, OneMinimal, Walk, Stage.Leads, Stage.Over, Journal.Passes;
    var current := ctx.Normalize(initial);
    ctx.NormalIdempotent(initial);
    ghost var n := |current|;
    var granularity := 2;
    calls := 0;
    ghost var path := [Stage(current, granularity)];
    WalkBegins(ctx.Log(), path[0]);
    while |current| >= 2
      invariant ctx.Valid() && ctx.Extends()
      invariant old(ctx.token.cancelled) ==> ctx.token.cancelled
      invariant current <= ctx.Normal(initial) && ctx.Normal(current) == current
      invariant current == ctx.Normal(initial) || ctx.Log().Passes(current)
      invariant granularity >= 2
      invariant Walk(ctx.Log(), path) && path != [] && path[0] == Stage(ctx.Normal(initial), 2)
      invariant path[|path| - 1] == Stage(current, granularity)
      invariant calls + Potential(|current|, Min(granularity, |current|)) <= CallBound(n)
      invariant |ctx.trials| <= |old(ctx.trials)| + calls
      decreases |current|, |current| - Min(granularity, |current|)
    {
      ghost var before := ctx.Log();
      var step, next;
      ghost var spent;
      step, next, spent := Round(ctx, current, granularity);
      calls := calls + spent;
      if step.Err? {
        return Err(step.error), calls;
      }
      WalkStays(before, ctx.trials, path);
      VerdictsStay(before, ctx.trials);
      match step.value {
        case Reduced(smaller) =>
          PotentialDrops(|current|, Min(granularity, |current|), |smaller|, Min(next, |smaller|));
          WalkSnoc(ctx.Log(), path, Stage(smaller, next));
          current := smaller;
        case Refine =>
          WalkSnoc(ctx.Log(), path, Stage(current, next));
        case Finished =>
          break;
      }
      granularity := next;
      path := path + [Stage(current, granularity)];
    }
    if |current| < 2 { FewIsOver(ctx.Log(), Stage(current, granularity)); }
    OverIsMinimal(ctx.Log(), Stage(current, granularity));
    r := Ok(current);
  }

  lemma WalkBegins(j: Journal, s: Stage)
    ensures Walk(j, [s])
  {}

  lemma FewIsOver(j: Journal, s: Stage)
    requires |s.current| <= 1
    ensures s.Over(j)
  {}
}
