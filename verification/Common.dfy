/** Shared value types, and the iteration order of the source's ordered sets. */
module Common {

  datatype Option<+T> = None | Some(value: T)

  datatype Result<+T, +E> = Ok(value: T) | Err(error: E)

  type SessionId = nat

  type Byte = b: nat | b < 256

  function Min(a: int, b: int): int { if a <= b then a else b }

  function Max(a: int, b: int): int { if a <= b then b else a }

  ghost predicate Distinct<T>(s: seq<T>) {
    forall i, j | 0 <= i < j < |s| :: s[i] != s[j]
  }

  ghost predicate StrictlyAscending(s: seq<nat>) {
    forall i, j | 0 <= i < j < |s| :: s[i] < s[j]
  }

  lemma DistinctSnoc<T>(s: seq<T>, x: T)
    ensures Distinct(s + [x]) <==> Distinct(s) && x !in s
  {
    var all := s + [x];
    assert all[|s|] == x;
    if Distinct(all) {
      forall i, j | 0 <= i < j < |s| ensures s[i] != s[j] {
        assert all[i] != all[j];
      }
      forall i | 0 <= i < |s| ensures s[i] != x {
        assert all[i] != all[|s|];
      }
    }
  }

  lemma ProperSubsetSmaller<T>(a: set<T>, b: set<T>)
    requires a < b
    ensures |a| < |b|
  {
    assert b == a + (b - a);
  }

  lemma {:induction false} LeastFrom(s: set<nat>, n: nat, a: nat)
    requires a in s && n <= a && forall x | x in s :: n <= x
    ensures exists m :: m in s && forall x | x in s :: m <= x
    decreases a - n
  {
    if n !in s {
      LeastFrom(s, n + 1, a);
    }
  }

  lemma LeastExists(s: set<nat>)
    requires s != {}
    ensures exists m :: m in s && forall x | x in s :: m <= x
  {
    var a :| a in s;
    LeastFrom(s, 0, a);
  }

  function Least(s: set<nat>): (m: nat)
    requires s != {}
    ensures m in s && forall x | x in s :: m <= x
  {
    LeastExists(s);
    var m :| m in s && forall x | x in s :: m <= x;
    m
  }

  /** The elements of an ordered set in the order its iterator yields them. */
  function Ascending(s: set<nat>): seq<nat> {
    if s == {} then [] else [Least(s)] + Ascending(s - {Least(s)})
  }

  lemma {:induction false} AscendingElements(s: set<nat>)
    ensures |Ascending(s)| == |s|
    ensures forall x :: x in Ascending(s) <==> x in s
  {
    if s != {} {
      AscendingElements(s - {Least(s)});
    }
  }

  lemma AscendingCons(m: nat, rest: seq<nat>)
    requires StrictlyAscending(rest) && forall x | x in rest :: m < x
    ensures StrictlyAscending([m] + rest)
  {
    forall j | 0 <= j < |rest| ensures m < rest[j] {
      assert rest[j] in rest;
    }
  }

  lemma {:induction false} AscendingLists(s: set<nat>)
    ensures |Ascending(s)| == |s|
    ensures forall x :: x in Ascending(s) <==> x in s
    ensures StrictlyAscending(Ascending(s))
  {
    AscendingElements(s);
    if s != {} {
      var rest := s - {Least(s)};
      AscendingLists(rest);
      assert Ascending(s) == [Least(s)] + Ascending(rest);
      AscendingElements(rest);
      hide StrictlyAscending, Ascending;
      AscendingCons(Least(s), Ascending(rest));
    }
  }

  lemma {:induction false} DistinctMultiset<T>(s: seq<T>)
    requires Distinct(s)
    ensures multiset(s) == multiset(set x | x in s)
  {
    if s != [] {
      var rest := s[..|s| - 1];
      var last := s[|s| - 1];
      assert s == rest + [last];
      DistinctMultiset(rest);
      assert last !in rest;
      assert (set x | x in s) == (set x | x in rest) + {last};
    }
  }

  lemma {:induction false} MultisetDistinct<T>(s: seq<T>, elements: set<T>)
    requires multiset(s) == multiset(elements)
    ensures Distinct(s)
    ensures forall x :: x in s <==> x in elements
    ensures |s| == |elements|
  {
    forall x ensures x in s <==> x in elements {
      assert x in s <==> x in multiset(s);
    }
    forall i, j | 0 <= i < j < |s| ensures s[i] != s[j] {
      assert s == s[..j] + s[j..];
      assert s[i] in multiset(s[..j]);
      assert s[j] in multiset(s[j..]);
      assert multiset(s)[s[j]] <= 1;
    }
    assert |multiset(s)| == |multiset(elements)|;
  }

  lemma AscendingMultiset(s: set<nat>)
    ensures multiset(Ascending(s)) == multiset(s)
  {
    AscendingLists(s);
    DistinctMultiset(Ascending(s));
    assert (set x | x in Ascending(s)) == s;
  }
}
