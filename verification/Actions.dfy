/** Recorded actions (src/domain/action.rs) and the stable sort by recording order
    that the replay, the inference and the engine all apply to them. */
module Actions {
  import opened Common

  type Id = nat
  type Path = string
  type Key = string

  datatype Resource = File(path: Path) | EnvironmentVariable(key: Key) | WorkingDirectory

  datatype ResourceAccess = ResourceAccess(readSet: set<Resource>, writeSet: set<Resource>, isOpaque: bool)

  /** `content` is None for a recorded deletion. */
  datatype FileReplacement = FileReplacement(path: Path, content: Option<string>, unixMode: Option<nat>)

  /** A shell command carries the access that the command heuristics computed for it. */
  datatype ActionKind =
    | ShellCommand(command: string, access: ResourceAccess)
    | FilePatch(files: seq<FileReplacement>)
    | SetEnvironment(key: Key, value: string)
    | UnsetEnvironment(key: Key)
    | ChangeDirectory(path: Path)

  datatype Action = Action(id: Id, originalOrder: nat, cwdBefore: Path, kind: ActionKind)

  function Ids(actions: seq<Action>): (ids: seq<Id>)
    ensures |ids| == |actions|
    ensures forall i | 0 <= i < |ids| :: ids[i] == actions[i].id
  {
    seq(|actions|, i requires 0 <= i < |actions| => actions[i].id)
  }

  ghost predicate InOrder(actions: seq<Action>) {
    forall i, j | 0 <= i < j < |actions| :: actions[i].originalOrder <= actions[j].originalOrder
  }

  /** Puts `a` in front of the first element that does not come before it. */
  function InsertByOrder(a: Action, s: seq<Action>): seq<Action> {
    if s == [] || a.originalOrder <= s[0].originalOrder then [a] + s
    else [s[0]] + InsertByOrder(a, s[1..])
  }

  /** A stable sort: `a` was recorded in front of everything in `s[1..]` and stays so among equals. */
  function SortByOrder(s: seq<Action>): seq<Action> {
    if s == [] then [] else InsertByOrder(s[0], SortByOrder(s[1..]))
  }

  lemma {:induction false} InsertMultiset(a: Action, s: seq<Action>)
    ensures multiset(InsertByOrder(a, s)) == multiset{a} + multiset(s)
  {
    if s == [] || a.originalOrder <= s[0].originalOrder {
    } else {
      InsertMultiset(a, s[1..]);
      assert s == [s[0]] + s[1..];
    }
  }

  lemma InOrderCons(a: Action, rest: seq<Action>)
    requires InOrder(rest) && forall x | x in rest :: a.originalOrder <= x.originalOrder
    ensures InOrder([a] + rest)
  {}

  lemma InOrderTail(s: seq<Action>)
    requires InOrder(s) && s != []
    ensures InOrder(s[1..]) && forall x | x in s :: s[0].originalOrder <= x.originalOrder
  {}

  lemma {:induction false} InsertInOrder(a: Action, s: seq<Action>)
    requires InOrder(s)
    ensures InOrder(InsertByOrder(a, s))
  {
    if s != [] {
      InOrderTail(s);
      if a.originalOrder <= s[0].originalOrder {
        InOrderCons(a, s);
      } else {
        InsertInOrder(a, s[1..]);
        var rest := InsertByOrder(a, s[1..]);
        InsertMultiset(a, s[1..]);
        forall x | x in rest ensures s[0].originalOrder <= x.originalOrder {
          assert x in multiset(rest);
        }
        InOrderCons(s[0], rest);
      }
    }
  }

  lemma {:induction false} SortKeeps(s: seq<Action>)
    ensures InOrder(SortByOrder(s))
    ensures multiset(SortByOrder(s)) == multiset(s)
    ensures |SortByOrder(s)| == |s|
  {
    if s != [] {
      SortKeeps(s[1..]);
      InsertInOrder(s[0], SortByOrder(s[1..]));
      InsertMultiset(s[0], SortByOrder(s[1..]));
      assert s == [s[0]] + s[1..];
    }
    assert |multiset(SortByOrder(s))| == |SortByOrder(s)| && |multiset(s)| == |s|;
  }

  /** Sorting what is already in recording order changes nothing. */
  lemma {:induction false} SortOfSorted(s: seq<Action>)
    requires InOrder(s)
    ensures SortByOrder(s) == s
  {
    if s != [] {
      SortOfSorted(s[1..]);
    }
  }

  lemma {:induction false} IdsOfInsert(a: Action, s: seq<Action>)
    ensures multiset(Ids(InsertByOrder(a, s))) == multiset{a.id} + multiset(Ids(s))
  {
    if s == [] || a.originalOrder <= s[0].originalOrder {
      assert Ids([a] + s) == [a.id] + Ids(s);
    } else {
      IdsOfInsert(a, s[1..]);
      assert Ids(s) == [s[0].id] + Ids(s[1..]);
      assert Ids(InsertByOrder(a, s)) == [s[0].id] + Ids(InsertByOrder(a, s[1..]));
    }
  }

  lemma {:induction false} IdsOfSort(s: seq<Action>)
    ensures multiset(Ids(SortByOrder(s))) == multiset(Ids(s))
  {
    if s != [] {
      IdsOfSort(s[1..]);
      IdsOfInsert(s[0], SortByOrder(s[1..]));
      assert Ids(s) == [s[0].id] + Ids(s[1..]);
    }
  }

  // ---- the actions of a candidate, in recording order (engine.rs `ordered_ids`) ----

  ghost predicate KeyedById(actions: map<Id, Action>) {
    forall id | id in actions :: actions[id].id == id
  }

  function Pick(actions: map<Id, Action>, ids: seq<Id>): (r: seq<Action>)
    requires forall id | id in ids :: id in actions
    ensures |r| == |ids|
    ensures forall i | 0 <= i < |ids| :: r[i] == actions[ids[i]]
  {
    seq(|ids|, i requires 0 <= i < |ids| => actions[ids[i]])
  }

  function OrderedActions(actions: map<Id, Action>, candidate: set<Id>): seq<Action> {
    AscendingLists(candidate * actions.Keys);
    SortByOrder(Pick(actions, Ascending(candidate * actions.Keys)))
  }

  function OrderedIds(actions: map<Id, Action>, candidate: set<Id>): seq<Id> {
    Ids(OrderedActions(actions, candidate))
  }

  lemma OrderedIdsMultiset(actions: map<Id, Action>, candidate: set<Id>)
    requires KeyedById(actions)
    ensures multiset(OrderedIds(actions, candidate)) == multiset(candidate * actions.Keys)
  {
    var known := candidate * actions.Keys;
    AscendingElements(known);
    AscendingMultiset(known);
    IdsOfSort(Pick(actions, Ascending(known)));
    assert Ids(Pick(actions, Ascending(known))) == Ascending(known);
  }

  /** `ordered_ids` lists exactly the known members of the candidate, each once. */
  lemma OrderedIdsFaithful(actions: map<Id, Action>, candidate: set<Id>)
    requires KeyedById(actions)
    ensures Distinct(OrderedIds(actions, candidate))
    ensures forall x :: x in OrderedIds(actions, candidate) <==> x in candidate && x in actions
    ensures |OrderedIds(actions, candidate)| == |candidate * actions.Keys|
    ensures InOrder(OrderedActions(actions, candidate))
  {
    var known := candidate * actions.Keys;
    OrderedIdsMultiset(actions, candidate);
    MultisetDistinct(OrderedIds(actions, candidate), known);
    AscendingElements(known);
    SortKeeps(Pick(actions, Ascending(known)));
  }

  /** The cache key determines the candidate: two sets of known ids that list alike are equal. */
  lemma OrderedIdsInjective(actions: map<Id, Action>, a: set<Id>, b: set<Id>)
    requires KeyedById(actions)
    requires a <= actions.Keys && b <= actions.Keys
    requires OrderedIds(actions, a) == OrderedIds(actions, b)
    ensures a == b
  {
    OrderedIdsFaithful(actions, a);
    OrderedIdsFaithful(actions, b);
    assert forall x :: x in a <==> x in OrderedIds(actions, a);
    assert forall x :: x in b <==> x in OrderedIds(actions, b);
  }
}
