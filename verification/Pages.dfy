/** What the pages of the store (crates/fixtrace-store/src/store.rs) put together: the rows between two numbers, whether
    or not some are missing. */
module Pages {
  import opened Common
  import opened EventLog

  function KeysBetween(stream: Stream, a: nat, b: nat): set<nat> { set k | k in stream.rows && a < k <= b }

  /** What is stored under the numbers a + 1 .. b, in order. */
  function StoredBetween(stream: Stream, a: nat, b: nat): seq<Event> {
    AscendingElements(KeysBetween(stream, a, b));
    assert forall k | k in Ascending(KeysBetween(stream, a, b)) :: k in KeysBetween(stream, a, b);
    Rows(stream, Ascending(KeysBetween(stream, a, b)))
  }

  /** A set cut at a number is listed as its two parts. */
  lemma {:induction false} AscendingSplit(low: set<nat>, high: set<nat>)
    requires forall x, y | x in low && y in high :: x < y
    ensures Ascending(low + high) == Ascending(low) + Ascending(high)
    decreases low
  {
    if low == {} {
      assert low + high == high;
    } else {
      var m := Least(low);
      assert Least(low + high) == m;
      assert (low + high) - {m} == (low - {m}) + high;
      AscendingSplit(low - {m}, high);
    }
  }

  lemma BetweenSplit(stream: Stream, a: nat, b: nat, c: nat)
    requires a <= b <= c
    ensures StoredBetween(stream, a, c) == StoredBetween(stream, a, b) + StoredBetween(stream, b, c)
  {
    assert KeysBetween(stream, a, c) == KeysBetween(stream, a, b) + KeysBetween(stream, b, c);
    AscendingSplit(KeysBetween(stream, a, b), KeysBetween(stream, b, c));
    hide Ascending;
  }

  lemma BetweenKeys(scope: Scope, stream: Stream, a: nat, b: nat)
    requires Keyed(scope, stream)
    ensures var events := StoredBetween(stream, a, b);
      && (forall i | 0 <= i < |events| :: a < events[i].sequence <= b && events[i].sequence in stream.rows)
      && (forall k | k in stream.rows && a < k <= b :: exists i :: 0 <= i < |events| && events[i].sequence == k)
      && (forall i, j | 0 <= i < j < |events| :: events[i].sequence < events[j].sequence)
  {
    var keys := Ascending(KeysBetween(stream, a, b));
    AscendingLists(KeysBetween(stream, a, b));
    hide Ascending;
    assert forall i | 0 <= i < |keys| :: keys[i] in keys;
    forall k | k in stream.rows && a < k <= b
      ensures exists i :: 0 <= i < |StoredBetween(stream, a, b)| && StoredBetween(stream, a, b)[i].sequence == k
    {
      assert k in keys;
      var i :| 0 <= i < |keys| && keys[i] == k;
      assert StoredBetween(stream, a, b)[i].sequence == k;
    }
  }

  /** Past the last key nothing is listed. */
  lemma NothingBetween(stream: Stream, a: nat, b: nat)
    requires forall k | k in stream.rows :: !(a < k <= b)
    ensures StoredBetween(stream, a, b) == []
  {
    assert KeysBetween(stream, a, b) == {};
  }

  lemma LastBetween(scope: Scope, stream: Stream, a: nat, b: nat)
    requires Keyed(scope, stream) && StoredBetween(stream, a, b) != []
    ensures var events := StoredBetween(stream, a, b); var last := events[|events| - 1].sequence;
      a < last <= b && last in stream.rows && events == StoredBetween(stream, a, last)
      && forall k | k in stream.rows && a < k <= b :: k <= last
  {
    var events := StoredBetween(stream, a, b);
    var last := events[|events| - 1].sequence;
    BetweenKeys(scope, stream, a, b);
    forall k | k in stream.rows && a < k <= b ensures k <= last {
      var i :| 0 <= i < |events| && events[i].sequence == k;
    }
    NothingBetween(stream, last, b);
    BetweenSplit(stream, a, last, b);
    assert StoredBetween(stream, a, last) + [] == StoredBetween(stream, a, last);
  }

  /** A page is a first part of what is stored behind the cursor. */
  lemma PageIsBetween(scope: Scope, stream: Stream, after: nat)
    requires Keyed(scope, stream) && after <= MAX_SAFE
    ensures var page := Selected(stream, after, PAGE);
      && (page == [] <==> forall k | k in stream.rows :: k <= after)
      && (page != [] ==> page[|page| - 1].sequence > after && page[|page| - 1].sequence in stream.rows)
      && (page != [] ==> page == StoredBetween(stream, after, page[|page| - 1].sequence))
  {
    var keys := Ascending(KeysAfter(stream, after));
    AscendingLists(KeysAfter(stream, after));
    hide Ascending;
    assert forall k :: k in KeysAfter(stream, after) <==> k in stream.rows && k > after;
    var n := Min(|keys|, PAGE);
    assert forall i | 0 <= i < |keys| :: keys[i] in keys;
    if n == 0 {
      assert KeysAfter(stream, after) == {};
    } else {
      PrefixIsBetween(stream, after, keys, n);
    }
  }

  lemma PrefixIsBetween(stream: Stream, after: nat, keys: seq<nat>, n: nat)
    requires keys == Ascending(set k | k in stream.rows && k > after) && 0 < n <= |keys|
    ensures keys[..n] == Ascending(KeysBetween(stream, after, keys[n - 1]))
  {
    var all := set k | k in stream.rows && k > after;
    var b := keys[n - 1];
    var low := KeysBetween(stream, after, b);
    AscendingLists(all);
    AscendingLists(low);
    assert b in keys;
    assert low <= all;
    hide Ascending, KeysBetween, StrictlyAscending;
    PartSplit(all, low, b);
    PrefixLength(keys, Ascending(low), n);
  }

  /** A set begins with its part up to a number. */
  lemma PartSplit(all: set<nat>, low: set<nat>, b: nat)
    requires low <= all && forall x | x in all :: x in low <==> x <= b
    ensures Ascending(low) <= Ascending(all)
  {
    assert all == low + (all - low);
    AscendingSplit(low, all - low);
    hide Ascending;
  }

  lemma PrefixLength(keys: seq<nat>, part: seq<nat>, n: nat)
    requires StrictlyAscending(keys) && part <= keys && 0 < n <= |keys|
    requires keys[n - 1] in part && forall x | x in part :: x <= keys[n - 1]
    ensures keys[..n] == part
  {
    var i :| 0 <= i < |part| && part[i] == keys[n - 1];
    assert keys[i] == keys[n - 1];
    assert part[|part| - 1] in part && keys[|part| - 1] == part[|part| - 1];
  }

  lemma BetweenSame(before: Stream, after: Stream, a: nat, b: nat)
    requires forall k | a < k <= b :: k in before.rows <==> k in after.rows
    requires forall k | k in before.rows :: k in after.rows && after.rows[k] == before.rows[k]
    ensures StoredBetween(after, a, b) == StoredBetween(before, a, b)
  {
    var keys := Ascending(KeysBetween(before, a, b));
    assert KeysBetween(after, a, b) == KeysBetween(before, a, b);
    AscendingElements(KeysBetween(before, a, b));
    hide Ascending;
    forall i | 0 <= i < |keys| ensures keys[i] in before.rows && keys[i] in after.rows && after.rows[keys[i]] == before.rows[keys[i]] {
      assert keys[i] in keys;
    }
  }

  /** What is stored up to a number that the stream has passed stays the same. */
  lemma BetweenStays(before: Streams, after: Streams, scope: Scope, a: nat, b: nat)
    requires Grows(before, after) && (a >= b || (scope in before && b < before[scope].next))
    ensures StoredBetween(StreamOf(after, scope), a, b) == StoredBetween(StreamOf(before, scope), a, b)
  {
    if a >= b {
      assert KeysBetween(StreamOf(after, scope), a, b) == {} && KeysBetween(StreamOf(before, scope), a, b) == {};
    } else {
      BetweenSame(before[scope], after[scope], a, b);
    }
  }

  /** A page continues what was read before it. */
  lemma PageContinues(streams: Streams, scope: Scope, a: nat, b: nat)
    requires Numbered(streams) && a <= b <= MAX_SAFE
    ensures var page := Loaded(streams, scope, b, PAGE).events;
      page != [] ==>
        var c := page[|page| - 1].sequence;
        && b < c <= MAX_SAFE && scope in streams && c < streams[scope].next
        && StoredBetween(StreamOf(streams, scope), a, b) + page == StoredBetween(StreamOf(streams, scope), a, c)
  {
    if scope in streams {
      PageIsBetween(scope, streams[scope], b);
      hide Selected, StoredBetween;
      var page := Selected(streams[scope], b, PAGE);
      if page != [] { BetweenSplit(streams[scope], a, b, page[|page| - 1].sequence); }
    }
  }
}
