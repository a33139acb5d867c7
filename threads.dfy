/** Grouping conversation messages by `thread_id`:
    `threads.setdefault(msg["thread_id"], []).append(msg)` over the history.
    A Python dict keeps its keys in insertion order, so the threads come out
    in the order of their first message; each thread's list keeps the order
    of the history. */
module Threads {
  import opened Records

  predicate Threaded(h: seq<Record>)
  {
    AllHave(h, "thread_id")
  }

  function ThreadId(m: Record): string
    requires "thread_id" in m
  {
    m["thread_id"]
  }

  lemma PrefixThreaded(h: seq<Record>, i: nat)
    requires Threaded(h) && i <= |h|
    ensures Threaded(h[..i])
  {
    forall m | m in h[..i] ensures "thread_id" in m {
      var q :| 0 <= q < i && h[..i][q] == m;
      assert h[q] == m;
    }
  }

  /** The keys of the `threads` dict once every message of `h` is added. */
  function ThreadIds(h: seq<Record>): seq<string>
    requires Threaded(h)
    decreases |h|
  {
    if h == [] then []
    else
      PrefixThreaded(h, |h| - 1);
      var ids := ThreadIds(h[..|h| - 1]);
      var t := ThreadId(h[|h| - 1]);
      if t in ids then ids else ids + [t]
  }

  /** The list stored under `t`: the messages of thread `t`, in history order. */
  function Members(h: seq<Record>, t: string): (r: seq<Record>)
    requires Threaded(h)
    ensures forall m | m in r :: m in h && "thread_id" in m && ThreadId(m) == t
    decreases |h|
  {
    if h == [] then []
    else
      PrefixThreaded(h, |h| - 1);
      var last := h[|h| - 1];
      Members(h[..|h| - 1], t) + (if ThreadId(last) == t then [last] else [])
  }

  /** One more message: its thread becomes a key if it was not one. */
  lemma AppendMessage(h: seq<Record>, m: Record)
    requires Threaded(h) && "thread_id" in m
    ensures Threaded(h + [m])
    ensures ThreadIds(h + [m]) == if ThreadId(m) in ThreadIds(h) then ThreadIds(h) else ThreadIds(h) + [ThreadId(m)]
  {
    assert (h + [m])[..|h|] == h;
  }

  /** One more message joins the end of its own thread's list and no other. */
  lemma AppendMember(h: seq<Record>, m: Record, t: string)
    requires Threaded(h) && "thread_id" in m
    ensures Threaded(h + [m])
    ensures Members(h + [m], t) == Members(h, t) + (if ThreadId(m) == t then [m] else [])
  {
    assert (h + [m])[..|h|] == h;
  }

  /** Each thread id occurs once among the keys. */
  lemma {:induction false} ThreadIdsDistinct(h: seq<Record>)
    requires Threaded(h)
    ensures forall i, j | 0 <= i < j < |ThreadIds(h)| :: ThreadIds(h)[i] != ThreadIds(h)[j]
    decreases |h|
  {
    if h != [] {
      PrefixThreaded(h, |h| - 1);
      ThreadIdsDistinct(h[..|h| - 1]);
    }
  }

  /** The keys are exactly the threads that have messages, and every
      message sits in the list of its own thread. */
  lemma {:induction false} ThreadIdsCover(h: seq<Record>)
    requires Threaded(h)
    ensures forall m | m in h :: ThreadId(m) in ThreadIds(h) && m in Members(h, ThreadId(m))
    ensures forall t | t in ThreadIds(h) :: Members(h, t) != []
    ensures forall t | t !in ThreadIds(h) :: Members(h, t) == []
    decreases |h|
  {
    if h != [] {
      var init := h[..|h| - 1];
      PrefixThreaded(h, |h| - 1);
      ThreadIdsCover(init);
      forall m | m in h ensures ThreadId(m) in ThreadIds(h) && m in Members(h, ThreadId(m)) {
        if m != h[|h| - 1] {
          var q :| 0 <= q < |h| && h[q] == m;
          assert init[q] == m;
        }
      }
    }
  }

  /** The position of the first message of thread `t`, or `|h|` when it has none. */
  function FirstIndex(h: seq<Record>, t: string): (r: nat)
    requires Threaded(h)
    ensures r <= |h|
    ensures r < |h| ==> ThreadId(h[r]) == t
    ensures forall q | 0 <= q < r :: ThreadId(h[q]) != t
    decreases |h|
  {
    if h == [] || ThreadId(h[0]) == t then 0
    else 1 + FirstIndex(h[1..], t)
  }

  /** Adding a message at the end does not move any earlier first message. */
  lemma FirstIndexOfPrefix(h: seq<Record>, t: string)
    requires Threaded(h) && h != []
    ensures Threaded(h[..|h| - 1])
    ensures FirstIndex(h[..|h| - 1], t) < |h| - 1 ==> FirstIndex(h, t) == FirstIndex(h[..|h| - 1], t)
  {
    PrefixThreaded(h, |h| - 1);
    var init := h[..|h| - 1];
    var a, b := FirstIndex(h, t), FirstIndex(init, t);
    if b < |init| {
      assert ThreadId(h[b]) == t;
      assert a <= b;
      assert a < |init| && ThreadId(init[a]) == t;
    }
  }

  /** The threads are ordered by the position of their first message. */
  lemma {:induction false} ThreadIdsInFirstAppearanceOrder(h: seq<Record>)
    requires Threaded(h)
    ensures forall t | t in ThreadIds(h) :: FirstIndex(h, t) < |h|
    ensures forall i, j | 0 <= i < j < |ThreadIds(h)| ::
      FirstIndex(h, ThreadIds(h)[i]) < FirstIndex(h, ThreadIds(h)[j])
    decreases |h|
  {
    if h != [] {
      var init := h[..|h| - 1];
      PrefixThreaded(h, |h| - 1);
      ThreadIdsInFirstAppearanceOrder(init);
      var ids, ids0 := ThreadIds(h), ThreadIds(init);
      var last := h[|h| - 1];
      forall t | t in ids0 ensures FirstIndex(h, t) == FirstIndex(init, t) {
        FirstIndexOfPrefix(h, t);
      }
      forall t | t in ids ensures FirstIndex(h, t) < |h| {
        if t !in ids0 {
          assert ThreadId(h[|h| - 1]) == t;
        }
      }
      if ThreadId(last) !in ids0 {
        ThreadIdsCover(init);
        var t := ThreadId(last);
        forall q | 0 <= q < |init| ensures ThreadId(h[q]) != t {
          assert init[q] in init;
        }
        assert FirstIndex(h, t) == |h| - 1;
        forall i, j | 0 <= i < j < |ids| ensures FirstIndex(h, ids[i]) < FirstIndex(h, ids[j]) {
          if j == |ids| - 1 {
            assert ids[i] in ids0;
          } else {
            assert ids[i] == ids0[i] && ids[j] == ids0[j];
          }
        }
      }
    }
  }
}
