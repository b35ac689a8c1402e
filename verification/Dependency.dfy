/** The dependency graph (src/minimize/dependency.rs): the closure of a candidate under
    its hard dependencies, and the removal of an action with everything that needs it. */
module Dependency {
  import opened Common
  import opened Actions

  /** `hard` maps an action to the earlier actions it directly requires. */
  datatype Graph = Graph(hard: map<Id, set<Id>>, accesses: map<Id, ResourceAccess>)

  function DependenciesOf(g: Graph, a: Id): set<Id> {
    if a in g.hard then g.hard[a] else {}
  }

  ghost predicate Closed(g: Graph, s: set<Id>) {
    forall a | a in s :: DependenciesOf(g, a) <= s
  }

  /** Every dependency of a known action is a known action. */
  ghost predicate EdgesKnown(g: Graph, known: set<Id>) {
    Closed(g, known)
  }

  ghost function Frontier(g: Graph, s: set<Id>): set<Id> {
    set a, d | a in s && d in DependenciesOf(g, a) :: d
  }

  ghost function Targets(g: Graph): set<Id> {
    Frontier(g, g.hard.Keys)
  }

  // ---- the reference definition: iterate one dependency step to its fixed point ----

  ghost function ClosureOf(g: Graph, s: set<Id>): set<Id>
    decreases Targets(g) - s
  {
    var next := Frontier(g, s);
    if next <= s then s
    else
      assert next <= Targets(g);
      ClosureOf(g, s + next)
  }

  lemma {:induction false} ClosureIsClosed(g: Graph, s: set<Id>)
    ensures s <= ClosureOf(g, s) && Closed(g, ClosureOf(g, s))
    decreases Targets(g) - s
  {
    var next := Frontier(g, s);
    if !(next <= s) {
      assert next <= Targets(g);
      ClosureIsClosed(g, s + next);
    }
  }

  /** The closure is the least closed superset. */
  lemma {:induction false} ClosureIsLeast(g: Graph, s: set<Id>, t: set<Id>)
    requires s <= t && Closed(g, t)
    ensures ClosureOf(g, s) <= t
    decreases Targets(g) - s
  {
    var next := Frontier(g, s);
    if !(next <= s) {
      assert next <= Targets(g);
      ClosureIsLeast(g, s + next, t);
    }
  }

  lemma ClosureMonotone(g: Graph, s: set<Id>, t: set<Id>)
    requires s <= t
    ensures ClosureOf(g, s) <= ClosureOf(g, t)
  {
    ClosureIsClosed(g, t);
    ClosureIsLeast(g, s, ClosureOf(g, t));
  }

  /** Exactly the closed sets are their own closure; in particular closing twice changes nothing. */
  lemma ClosureFixedPoints(g: Graph, s: set<Id>)
    ensures ClosureOf(g, s) == s <==> Closed(g, s)
    ensures ClosureOf(g, ClosureOf(g, s)) == ClosureOf(g, s)
  {
    ClosureIsClosed(g, s);
    if Closed(g, s) {
      ClosureIsLeast(g, s, s);
    }
    ClosureIsClosed(g, ClosureOf(g, s));
    ClosureIsLeast(g, ClosureOf(g, s), ClosureOf(g, s));
  }

  // ---- removal: close {removed} under the edges from a dependency to its dependents ----

  /** The graph whose edges lead from an action to the members of `candidate` that require it. */
  ghost function Dependents(g: Graph, candidate: set<Id>): Graph {
    Graph(map x | x in Frontier(g, candidate) :: set y | y in candidate && x in DependenciesOf(g, y), map[])
  }

  ghost function Doomed(g: Graph, candidate: set<Id>, removed: Id): set<Id> {
    ClosureOf(Dependents(g, candidate), {removed})
  }

  /** What `remove_with_dependents` leaves. */
  ghost function Without(g: Graph, candidate: set<Id>, removed: Id): set<Id> {
    candidate - Doomed(g, candidate, removed)
  }

  lemma DependentsAre(g: Graph, candidate: set<Id>, x: Id, y: Id)
    ensures y in DependenciesOf(Dependents(g, candidate), x) <==> y in candidate && x in DependenciesOf(g, y)
  {}

  lemma DependentsStay(g: Graph, candidate: set<Id>, s: set<Id>)
    ensures Closed(Dependents(g, candidate), s)
        <==> forall y | y in candidate && y !in s :: DependenciesOf(g, y) !! s
  {
    var r := Dependents(g, candidate);
    if Closed(r, s) {
      forall y | y in candidate && y !in s ensures DependenciesOf(g, y) !! s {
        forall x | x in DependenciesOf(g, y) ensures x !in s {
          DependentsAre(g, candidate, x, y);
        }
      }
    }
    if forall y | y in candidate && y !in s :: DependenciesOf(g, y) !! s {
      forall x, y | x in s && y in DependenciesOf(r, x) ensures y in s {
        DependentsAre(g, candidate, x, y);
      }
    }
  }

  /** On a closed candidate the removal yields the greatest closed subset that excludes `removed`. */
  lemma WithoutIsGreatest(g: Graph, candidate: set<Id>, removed: Id)
    requires Closed(g, candidate)
    ensures Closed(g, Without(g, candidate, removed))
    ensures Without(g, candidate, removed) <= candidate && removed !in Without(g, candidate, removed)
    ensures forall t | t <= candidate && Closed(g, t) && removed !in t :: t <= Without(g, candidate, removed)
  {
    var doomed := Doomed(g, candidate, removed);
    ClosureIsClosed(Dependents(g, candidate), {removed});
    DependentsStay(g, candidate, doomed);
    forall t | t <= candidate && Closed(g, t) && removed !in t
      ensures t <= Without(g, candidate, removed)
    {
      var outside := {removed} + (candidate - t);
      assert t !! outside;
      DependentsStay(g, candidate, outside);
      ClosureIsLeast(Dependents(g, candidate), {removed}, outside);
    }
  }

  // ---- normalization: the closure, cut down to the known actions ----

  ghost function Normalized(g: Graph, known: set<Id>, s: set<Id>): set<Id> {
    ClosureOf(g, s) * known
  }

  lemma NormalizedIdempotent(g: Graph, known: set<Id>, s: set<Id>)
    ensures Normalized(g, known, Normalized(g, known, s)) == Normalized(g, known, s)
  {
    ClosureIsClosed(g, s);
    ClosureIsClosed(g, Normalized(g, known, s));
    ClosureIsLeast(g, Normalized(g, known, s), ClosureOf(g, s));
  }

  /** The edges among known actions. */
  ghost function Induced(g: Graph, known: set<Id>): Graph {
    Graph(map a | a in g.hard && a in known :: g.hard[a] * known, map[])
  }

  /** No dependency among known actions exists only by way of an unknown id. */
  ghost predicate NoDetours(g: Graph, known: set<Id>) {
    forall x | x in known :: Normalized(g, known, {x}) <= ClosureOf(Induced(g, known), {x})
  }

  lemma InducedInside(g: Graph, known: set<Id>, s: set<Id>)
    requires s <= known
    ensures ClosureOf(Induced(g, known), s) <= Normalized(g, known, s)
  {
    ClosureIsClosed(g, s);
    ClosureIsLeast(Induced(g, known), s, Normalized(g, known, s));
  }

  lemma EdgesKnownNoDetours(g: Graph, known: set<Id>)
    requires EdgesKnown(g, known)
    ensures NoDetours(g, known)
    ensures forall s | s <= known :: Normalized(g, known, s) == s <==> Closed(g, s)
  {
    forall x | x in known ensures Normalized(g, known, {x}) <= ClosureOf(Induced(g, known), {x}) {
      var c := ClosureOf(Induced(g, known), {x});
      InducedInside(g, known, {x});
      ClosureIsClosed(Induced(g, known), {x});
      assert c <= known;
      forall a | a in c ensures DependenciesOf(g, a) <= c {
        assert DependenciesOf(Induced(g, known), a) == DependenciesOf(g, a) * known;
      }
      ClosureIsLeast(g, {x}, c);
    }
    forall s | s <= known ensures Normalized(g, known, s) == s <==> Closed(g, s) {
      ClosureIsLeast(g, s, known);
      ClosureFixedPoints(g, s);
    }
  }

  /** Every member of a closure is in the closure of one member of the start. */
  lemma ClosureOrigin(g: Graph, s: set<Id>, y: Id) returns (x: Id)
    requires y in ClosureOf(g, s)
    ensures x in s && y in ClosureOf(g, {x})
  {
    var all := set x, z | x in s && z in ClosureOf(g, {x}) :: z;
    forall x | x in s ensures ClosureOf(g, {x}) <= all && x in ClosureOf(g, {x}) && Closed(g, ClosureOf(g, {x})) {
      ClosureIsClosed(g, {x});
    }
    ClosureIsLeast(g, s, all);
    x :| x in s && y in ClosureOf(g, {x});
  }

  lemma NoDetoursNormalized(g: Graph, known: set<Id>, s: set<Id>)
    requires NoDetours(g, known) && s <= known
    ensures Normalized(g, known, s) == ClosureOf(Induced(g, known), s)
  {
    InducedInside(g, known, s);
    forall y | y in Normalized(g, known, s) ensures y in ClosureOf(Induced(g, known), s) {
      var x := ClosureOrigin(g, s, y);
      ClosureMonotone(Induced(g, known), {x}, s);
    }
  }

  /** Removal only looks at edges among the candidate's own actions. */
  lemma WithoutInduced(g: Graph, known: set<Id>, candidate: set<Id>, a: Id)
    requires candidate <= known && a in known
    ensures Without(g, candidate, a) == Without(Induced(g, known), candidate, a)
  {
    var direct, cut := Dependents(g, candidate), Dependents(Induced(g, known), candidate);
    forall x, y ensures y in DependenciesOf(cut, x) <==> x in known && y in DependenciesOf(direct, x) {
      DependentsAre(g, candidate, x, y);
      DependentsAre(Induced(g, known), candidate, x, y);
    }
    ClosureIsClosed(cut, {a});
    ClosureIsClosed(direct, {a});
    ClosureIsLeast(cut, {a}, ClosureOf(direct, {a}));
    ClosureIsLeast(cut, {a}, known);
    ClosureIsLeast(direct, {a}, ClosureOf(cut, {a}));
  }

  lemma WithoutNormalized(g: Graph, known: set<Id>, candidate: set<Id>, a: Id)
    requires NoDetours(g, known) && candidate <= known && a in known
    requires Normalized(g, known, candidate) == candidate
    ensures Normalized(g, known, Without(g, candidate, a)) == Without(g, candidate, a)
  {
    NoDetoursNormalized(g, known, candidate);
    ClosureIsClosed(Induced(g, known), candidate);
    WithoutIsGreatest(Induced(g, known), candidate, a);
    WithoutInduced(g, known, candidate, a);
    NoDetoursNormalized(g, known, Without(g, candidate, a));
    ClosureFixedPoints(Induced(g, known), Without(g, candidate, a));
  }

  /** `remove_with_dependents` yields candidates that `normalize` leaves alone, from every normalized
      candidate, exactly when no dependency takes a detour through an unknown id. */
  lemma RemovalAgreesExactly(g: Graph, known: set<Id>)
    ensures NoDetours(g, known) <==>
      forall c, a | c <= known && Normalized(g, known, c) == c && a in c ::
        Normalized(g, known, Without(g, c, a)) == Without(g, c, a)
  {
    if NoDetours(g, known) {
      forall c, a | c <= known && Normalized(g, known, c) == c && a in c
        ensures Normalized(g, known, Without(g, c, a)) == Without(g, c, a)
      {
        WithoutNormalized(g, known, c, a);
      }
    } else {
      var x :| x in known && !(Normalized(g, known, {x}) <= ClosureOf(Induced(g, known), {x}));
      var y :| y in Normalized(g, known, {x}) && y !in ClosureOf(Induced(g, known), {x});
      DetourDisagrees(g, known, x, y);
    }
  }

  lemma DetourDisagrees(g: Graph, known: set<Id>, x: Id, y: Id)
    requires x in known && y in Normalized(g, known, {x}) && y !in ClosureOf(Induced(g, known), {x})
    ensures var c := Normalized(g, known, {x});
      && Normalized(g, known, c) == c && c <= known && y in c
      && Normalized(g, known, Without(g, c, y)) != Without(g, c, y)
  {
    var c, cut := Normalized(g, known, {x}), Induced(g, known);
    NormalizedIdempotent(g, known, {x});
    WithoutInduced(g, known, c, y);
    InducedInside(g, known, {x});
    ClosureIsClosed(cut, {x});
    var rest := Without(g, c, y);
    // What {x} reaches among known actions keeps clear of `y`, so the removal spares `x`.
    var outside := known + {y} - ClosureOf(cut, {x});
    DependentsStay(cut, c, outside);
    ClosureIsLeast(Dependents(cut, c), {y}, outside);
    ClosureIsClosed(Dependents(cut, c), {y});
    assert x in rest && y !in rest;
    ClosureMonotone(g, {x}, rest);
  }

  /** Such a graph exists: 1 needs the unknown 7, which needs 2. Removing 2 keeps 1; normalizing brings 2 back. */
  lemma DetourExample()
    ensures var g := Graph(map[1 := {7}, 7 := {2}], map[]);
      Without(g, {1, 2}, 2) == {1} && Normalized(g, {1, 2}, {1}) == {1, 2}
  {
    var g := Graph(map[1 := {7}, 7 := {2}], map[]);
    assert DependenciesOf(g, 1) == {7} && DependenciesOf(g, 7) == {2} && DependenciesOf(g, 2) == {};
    ClosureIsClosed(g, {1});
    ClosureIsLeast(g, {1}, {1, 7, 2});
    DependentsStay(g, {1, 2}, {2});
    ClosureIsClosed(Dependents(g, {1, 2}), {2});
    ClosureIsLeast(Dependents(g, {1, 2}), {2}, {2});
  }

  // ---- the code ----

  lemma Shrinks(bound: set<Id>, before: set<Id>, after: set<Id>)
    requires before < after <= bound
    ensures |bound - after| < |bound - before|
  {
    assert bound - before == (bound - after) + (after - before);
    assert after - before != {};
  }

  /** The body of the worklist: queues the dependencies that were not in the closure yet. */
  method Expand(dependencies: set<Id>, closed: set<Id>) returns (grown: set<Id>, added: seq<Id>)
    ensures grown == closed + dependencies
    ensures forall x :: x in added <==> x in dependencies && x !in closed
  {
    grown, added := closed, [];
    var order := Ascending(dependencies);
    AscendingElements(dependencies);
    for i := 0 to |order|
      invariant grown == closed + (set k | 0 <= k < i :: order[k])
      invariant forall x :: x in added <==> x in grown && x !in closed
    {
      if order[i] !in grown {
        grown := grown + {order[i]};
        added := added + [order[i]];
      }
    }
  }

  /** Everything already taken from the worklist has its dependencies in the closure. */
  ghost predicate Expanded(g: Graph, closed: set<Id>, pending: seq<Id>) {
    forall x | x in closed && x !in pending :: DependenciesOf(g, x) <= closed
  }

  lemma ExpandedStep(g: Graph, closed: set<Id>, pending: seq<Id>, grown: set<Id>, added: seq<Id>)
    requires pending != [] && Expanded(g, closed, pending)
    requires grown == closed + DependenciesOf(g, pending[|pending| - 1])
    requires forall x :: x in added <==> x in grown && x !in closed
    ensures Expanded(g, grown, pending[..|pending| - 1] + added)
  {
    var front, last := pending[..|pending| - 1], pending[|pending| - 1];
    assert pending == front + [last];
    forall x | x in grown && x !in front + added ensures DependenciesOf(g, x) <= grown {
      assert x !in front && x !in added;
      assert x in closed;
      if x != last {
        assert x !in pending;
      }
    }
  }

  /** The worklist of `closure`. */
  method Closure(g: Graph, candidate: set<Id>) returns (closed: set<Id>)
    ensures closed == ClosureOf(g, candidate)
  {
    hide ClosureOf;
    closed := candidate;
    var pending := Ascending(candidate);
    AscendingElements(candidate);
    ghost var bound := ClosureOf(g, candidate);
    ClosureIsClosed(g, candidate);
    while pending != []
      invariant candidate <= closed <= bound
      invariant forall x | x in pending :: x in closed
      invariant Expanded(g, closed, pending)
      decreases |bound - closed|, |pending|
    {
      var actionId := pending[|pending| - 1];
      assert DependenciesOf(g, actionId) <= bound;
      var grown, added := Expand(DependenciesOf(g, actionId), closed);
      ExpandedStep(g, closed, pending, grown, added);
      if added == [] {
        assert grown == closed;
      } else {
        assert added[0] in added;
        Shrinks(bound, closed, grown);
      }
      closed, pending := grown, pending[..|pending| - 1] + added;
    }
    ClosureIsLeast(g, candidate, closed);
  }

  /** One sweep over the candidate: an action goes when one of its dependencies went. */
  method Sweep(g: Graph, candidate: set<Id>, removed: set<Id>, ghost doomed: set<Id>) returns (grown: set<Id>, changed: bool)
    requires removed <= doomed
    requires forall y | y in candidate && y !in doomed :: DependenciesOf(g, y) !! doomed
    ensures removed <= grown <= doomed
    ensures changed <==> grown != removed
    ensures !changed ==> forall y | y in candidate && y !in removed :: DependenciesOf(g, y) !! removed
  {
    grown, changed := removed, false;
    var order := Ascending(candidate);
    AscendingElements(candidate);
    for i := 0 to |order|
      invariant removed <= grown <= doomed
      invariant changed <==> grown != removed
      invariant !changed ==> forall k | 0 <= k < i && order[k] !in removed :: DependenciesOf(g, order[k]) !! removed
    {
      if order[i] !in grown && !(DependenciesOf(g, order[i]) !! grown) {
        assert order[i] in candidate;
        grown, changed := grown + {order[i]}, true;
      }
    }
  }

  /** The outer loop of `remove_with_dependents`: sweep until nothing more goes. */
  method RemoveWithDependents(g: Graph, candidate: set<Id>, removedAction: Id) returns (rest: set<Id>)
    ensures rest == Without(g, candidate, removedAction)
  {
    var removed, changed := {removedAction}, true;
    ghost var doomed := Doomed(g, candidate, removedAction);
    ClosureIsClosed(Dependents(g, candidate), {removedAction});
    DependentsStay(g, candidate, doomed);
    while changed
      invariant removedAction in removed && removed <= doomed
      invariant !changed ==> forall y | y in candidate && y !in removed :: DependenciesOf(g, y) !! removed
      decreases |doomed - removed|, changed
    {
      var grown;
      grown, changed := Sweep(g, candidate, removed, doomed);
      if changed {
        Shrinks(doomed, removed, grown);
      }
      removed := grown;
    }
    DependentsStay(g, candidate, removed);
    ClosureIsLeast(Dependents(g, candidate), {removedAction}, removed);
    rest := candidate - removed;
  }
}
