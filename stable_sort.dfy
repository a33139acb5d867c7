/** `messages.sort(key=lambda m: m["timestamp"])`: Python's list sort is
    stable, and the keys are compared as strings. The sort is modelled by
    a stable insertion sort, with its three defining properties proved:
    the result is a permutation, it is ordered by timestamp, and messages
    with equal timestamps keep their relative order. */
module StableSort {
  import opened Records
  import opened Text

  /** Every message has a `timestamp`, so the sort's key function does not raise. */
  predicate Stamped(ms: seq<Record>)
  {
    AllHave(ms, "timestamp")
  }

  function Stamp(m: Record): string
    requires "timestamp" in m
  {
    m["timestamp"]
  }

  predicate SortedByStamp(ms: seq<Record>)
    requires Stamped(ms)
  {
    forall i, j | 0 <= i < j < |ms| :: StrLe(Stamp(ms[i]), Stamp(ms[j]))
  }

  /** The messages whose timestamp is `stamp`, in their order in `ms`. */
  function WithStamp(ms: seq<Record>, stamp: string): seq<Record>
    requires Stamped(ms)
    decreases |ms|
  {
    if ms == [] then []
    else (if Stamp(ms[0]) == stamp then [ms[0]] else []) + WithStamp(ms[1..], stamp)
  }

  /** Places `m` before the first message whose timestamp is not below its own. */
  function Insert(m: Record, ms: seq<Record>): (r: seq<Record>)
    requires "timestamp" in m && Stamped(ms)
    ensures multiset(r) == multiset(ms) + multiset{m}
    ensures Stamped(r)
    decreases |ms|
  {
    if ms == [] || StrLe(Stamp(m), Stamp(ms[0])) then [m] + ms
    else
      assert ms == [ms[0]] + ms[1..];
      [ms[0]] + Insert(m, ms[1..])
  }

  function SortByStamp(ms: seq<Record>): (r: seq<Record>)
    requires Stamped(ms)
    ensures multiset(r) == multiset(ms)
    ensures Stamped(r)
    decreases |ms|
  {
    if ms == [] then []
    else
      assert ms == [ms[0]] + ms[1..];
      Insert(ms[0], SortByStamp(ms[1..]))
  }

  /** No message of `ms` has a timestamp below `x`. */
  predicate Above(x: string, ms: seq<Record>)
    requires Stamped(ms)
  {
    forall k | 0 <= k < |ms| :: StrLe(x, Stamp(ms[k]))
  }

  lemma SortedCons(m: Record, ms: seq<Record>)
    requires "timestamp" in m && Stamped(ms) && SortedByStamp(ms) && Above(Stamp(m), ms)
    ensures Stamped([m] + ms) && SortedByStamp([m] + ms)
  {
    var r := [m] + ms;
    forall i, j | 0 <= i < j < |r| ensures StrLe(Stamp(r[i]), Stamp(r[j])) {
      assert r[j] == ms[j - 1];
      if i > 0 {
        assert r[i] == ms[i - 1];
      }
    }
  }

  /** Being above `x` depends only on which messages there are. */
  lemma AboveByMembers(x: string, r: seq<Record>, ms: seq<Record>)
    requires Stamped(r) && Stamped(ms) && multiset(r) == multiset(ms) && Above(x, ms)
    ensures Above(x, r)
  {
    forall k | 0 <= k < |r| ensures StrLe(x, Stamp(r[k])) {
      assert r[k] in multiset(ms);
      var q :| 0 <= q < |ms| && ms[q] == r[k];
    }
  }

  /** When `m` does not go in front, everything inserted after the head of
      a sorted `ms` sorts no earlier than that head. */
  lemma InsertedAboveHead(m: Record, ms: seq<Record>)
    requires "timestamp" in m && Stamped(ms) && SortedByStamp(ms) && ms != []
    requires StrLe(Stamp(ms[0]), Stamp(m))
    ensures Above(Stamp(ms[0]), Insert(m, ms[1..]))
  {
    var low := Stamp(ms[0]);
    var rest := ms[1..];
    assert Above(low, [m] + rest) by {
      forall k | 0 <= k < |[m] + rest| ensures StrLe(low, Stamp(([m] + rest)[k])) {
        if k > 0 {
          assert ([m] + rest)[k] == ms[k];
        }
      }
    }
    assert multiset([m] + rest) == multiset(rest) + multiset{m};
    AboveByMembers(low, Insert(m, rest), [m] + rest);
  }

  lemma {:induction false} InsertSorted(m: Record, ms: seq<Record>)
    requires "timestamp" in m && Stamped(ms) && SortedByStamp(ms)
    ensures SortedByStamp(Insert(m, ms))
    decreases |ms|
  {
    if ms == [] || StrLe(Stamp(m), Stamp(ms[0])) {
      forall k | 0 <= k < |ms| ensures StrLe(Stamp(m), Stamp(ms[k])) {
        if k > 0 {
          StrLeTransitive(Stamp(m), Stamp(ms[0]), Stamp(ms[k]));
        }
      }
      SortedCons(m, ms);
    } else {
      StrLeTotal(Stamp(m), Stamp(ms[0]));
      InsertSorted(m, ms[1..]);
      InsertedAboveHead(m, ms);
      SortedCons(ms[0], Insert(m, ms[1..]));
    }
  }

  lemma {:induction false} SortSorted(ms: seq<Record>)
    requires Stamped(ms)
    ensures SortedByStamp(SortByStamp(ms))
    decreases |ms|
  {
    if ms != [] {
      SortSorted(ms[1..]);
      InsertSorted(ms[0], SortByStamp(ms[1..]));
    }
  }

  /** Insertion passes only messages with a strictly smaller timestamp, so
      `m` comes before every message of `ms` that shares its timestamp. */
  lemma {:induction false} InsertWithStamp(m: Record, ms: seq<Record>, stamp: string)
    requires "timestamp" in m && Stamped(ms)
    ensures WithStamp(Insert(m, ms), stamp)
         == (if Stamp(m) == stamp then [m] else []) + WithStamp(ms, stamp)
    decreases |ms|
  {
    var r := Insert(m, ms);
    if ms == [] || StrLe(Stamp(m), Stamp(ms[0])) {
      assert r[1..] == ms;
    } else {
      StrLeReflexive(Stamp(m));
      assert Stamp(ms[0]) != Stamp(m);
      assert r[1..] == Insert(m, ms[1..]);
      InsertWithStamp(m, ms[1..], stamp);
    }
  }

  /** Stability: for every timestamp, the messages carrying it appear in
      the sorted list in the same order as in the input. */
  lemma {:induction false} SortStable(ms: seq<Record>, stamp: string)
    requires Stamped(ms)
    ensures WithStamp(SortByStamp(ms), stamp) == WithStamp(ms, stamp)
    decreases |ms|
  {
    if ms != [] {
      SortStable(ms[1..], stamp);
      InsertWithStamp(ms[0], SortByStamp(ms[1..]), stamp);
    }
  }

  /** In a sorted list no timestamp is later than the last one. */
  lemma SortedLastMax(r: seq<Record>)
    requires Stamped(r) && SortedByStamp(r) && r != []
    ensures forall k | 0 <= k < |r| :: StrLe(Stamp(r[k]), Stamp(r[|r| - 1]))
  {
    StrLeReflexive(Stamp(r[|r| - 1]));
  }

  /** The last message of the sorted list carries the greatest timestamp. */
  lemma SortLastIsLatest(ms: seq<Record>)
    requires Stamped(ms) && ms != []
    ensures |SortByStamp(ms)| == |ms|
    ensures var last := SortByStamp(ms)[|ms| - 1];
      last in ms && forall m | m in ms :: StrLe(Stamp(m), Stamp(last))
  {
    var r := SortByStamp(ms);
    assert |r| == |multiset(r)| == |multiset(ms)| == |ms|;
    SortSorted(ms);
    SortedLastMax(r);
    var last := r[|r| - 1];
    assert last in multiset(r);
    forall m | m in ms ensures StrLe(Stamp(m), Stamp(last)) {
      assert m in multiset(r);
      var q :| 0 <= q < |r| && r[q] == m;
    }
  }
}
