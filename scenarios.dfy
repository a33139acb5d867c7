/** Worked runs of the ingestors and the chunk loop on small inputs. */
module Scenarios {
  import opened Records
  import opened Text
  import opened StableSort
  import opened Threads
  import opened Ingestors
  import opened GraphService
  import opened Chunking

  /** Three price points at one location give three episodes in input order,
      all grouped under `Price_loc1` and anchored at UTC midnight of their date. */
  lemma PricesAtOneLocation(p1: Record, p2: Record, p3: Record)
    requires "date" in p1 && "date" in p2 && "date" in p3
    requires p1["date"] == "2024-01-01" && p2["date"] == "2024-01-02" && p3["date"] == "2024-01-02"
    requires "location_id" in p1 && "location_id" in p2 && "location_id" in p3
    requires p1["location_id"] == p2["location_id"] == p3["location_id"] == "loc1"
    ensures var eps := PriceEpisodes([p1, p2, p3]);
      && eps.Success?
      && |eps.value| == 3
      && (forall i | 0 <= i < 3 :: eps.value[i].groupId == Some("Price_loc1"))
      && eps.value[0].referenceTime == Iso("2024-01-01T00:00:00+00:00")
      && eps.value[1].referenceTime == Iso("2024-01-02T00:00:00+00:00")
      && eps.value[2].referenceTime == Iso("2024-01-02T00:00:00+00:00")
  {
    var ps := [p1, p2, p3];
    assert AllHave(ps, "date");
    PriceEpisodesSpec(ps);
    assert "Price_" + "loc1" == "Price_loc1";
    assert "2024-01-01" + "T00:00:00+00:00" == "2024-01-01T00:00:00+00:00";
    assert "2024-01-02" + "T00:00:00+00:00" == "2024-01-02T00:00:00+00:00";
  }

  const Day := "2024-03-01T"

  /** A message of thread `t` sent at `time` on `Day`. */
  predicate SentAt(m: Record, t: string, time: string)
  {
    "thread_id" in m && m["thread_id"] == t && "timestamp" in m && m["timestamp"] == Day + time
  }

  /** The messages `m1 .. m5` of the example: `t1` at 10:05, `t2` at 09:00,
      `t1` at 10:01, `t2` at 09:30 and `t1` at 10:03. */
  predicate Example(m1: Record, m2: Record, m3: Record, m4: Record, m5: Record)
  {
    && SentAt(m1, "t1", "10:05:00Z")
    && SentAt(m2, "t2", "09:00:00Z")
    && SentAt(m3, "t1", "10:01:00Z")
    && SentAt(m4, "t2", "09:30:00Z")
    && SentAt(m5, "t1", "10:03:00Z")
  }

  lemma GroupedByThread(m1: Record, m2: Record, m3: Record, m4: Record, m5: Record)
    requires Example(m1, m2, m3, m4, m5)
    ensures ThreadIds([m1, m2, m3, m4, m5]) == ["t1", "t2"]
    ensures Members([m1, m2, m3, m4, m5], "t1") == [m1, m3, m5]
    ensures Members([m1, m2, m3, m4, m5], "t2") == [m2, m4]
  {
    ExampleIds(m1, m2, m3, m4, m5);
    assert "t1" != "t2";
    ExampleMembers(m1, m2, m3, m4, m5, "t1");
    ExampleMembers(m1, m2, m3, m4, m5, "t2");
    assert [m1] + [m3] + [m5] == [m1, m3, m5];
    assert [m2] + [m4] == [m2, m4];
  }

  lemma ExampleIds(m1: Record, m2: Record, m3: Record, m4: Record, m5: Record)
    requires Example(m1, m2, m3, m4, m5)
    ensures Threaded([m1, m2, m3, m4, m5]) && ThreadIds([m1, m2, m3, m4, m5]) == ["t1", "t2"]
  {
    var h1: seq<Record> := [m1];
    assert [] + [m1] == h1;
    AppendMessage([], m1);
    AppendMessage(h1, m2);
    var h2 := h1 + [m2];
    AppendMessage(h2, m3);
    var h3 := h2 + [m3];
    AppendMessage(h3, m4);
    var h4 := h3 + [m4];
    AppendMessage(h4, m5);
    assert h4 + [m5] == [m1, m2, m3, m4, m5];
  }

  lemma ExampleMembers(m1: Record, m2: Record, m3: Record, m4: Record, m5: Record, t: string)
    requires Example(m1, m2, m3, m4, m5)
    ensures Threaded([m1, m2, m3, m4, m5])
    ensures Members([m1, m2, m3, m4, m5], t)
         == (if t == "t1" then [m1] else []) + (if t == "t2" then [m2] else []) + (if t == "t1" then [m3] else [])
          + (if t == "t2" then [m4] else []) + (if t == "t1" then [m5] else [])
  {
    var h1: seq<Record> := [m1];
    assert [] + [m1] == h1;
    AppendMember([], m1, t);
    AppendMember(h1, m2, t);
    var h2 := h1 + [m2];
    AppendMember(h2, m3, t);
    var h3 := h2 + [m3];
    AppendMember(h3, m4, t);
    var h4 := h3 + [m4];
    AppendMember(h4, m5, t);
    assert h4 + [m5] == [m1, m2, m3, m4, m5];
  }

  lemma StampOrder(m1: Record, m2: Record, m3: Record, m4: Record, m5: Record)
    requires Example(m1, m2, m3, m4, m5)
    ensures StrLe(Stamp(m3), Stamp(m5)) && StrLe(Stamp(m2), Stamp(m4))
    ensures !StrLe(Stamp(m1), Stamp(m3)) && !StrLe(Stamp(m1), Stamp(m5))
  {
    StrLeCommonPrefix(Day + "10:0", "1:00Z", "3:00Z");
    StrLeCommonPrefix(Day + "10:0", "5:00Z", "1:00Z");
    StrLeCommonPrefix(Day + "10:0", "5:00Z", "3:00Z");
    StrLeCommonPrefix(Day + "09:", "00:00Z", "30:00Z");
    assert Day + "10:01:00Z" == (Day + "10:0") + "1:00Z";
    assert Day + "10:03:00Z" == (Day + "10:0") + "3:00Z";
    assert Day + "10:05:00Z" == (Day + "10:0") + "5:00Z";
    assert Day + "09:00:00Z" == (Day + "09:") + "00:00Z";
    assert Day + "09:30:00Z" == (Day + "09:") + "30:00Z";
  }

  /** Two messages already in timestamp order stay as they are. */
  lemma SortTwo(a: Record, b: Record)
    requires "timestamp" in a && "timestamp" in b && StrLe(Stamp(a), Stamp(b))
    ensures Stamped([a, b]) && SortByStamp([a, b]) == [a, b]
  {
    assert [a, b][1..] == [b];
    assert SortByStamp([b]) == [b];
  }

  /** A first message later than the other two moves behind them. */
  lemma SortThree(a: Record, b: Record, c: Record)
    requires "timestamp" in a && "timestamp" in b && "timestamp" in c
    requires StrLe(Stamp(b), Stamp(c)) && !StrLe(Stamp(a), Stamp(b)) && !StrLe(Stamp(a), Stamp(c))
    ensures Stamped([a, b, c]) && SortByStamp([a, b, c]) == [b, c, a]
  {
    SortTwo(b, c);
    assert [a, b, c][1..] == [b, c];
    assert [b, c][1..] == [c];
    assert Insert(a, [c]) == [c, a];
  }

  lemma SortedThreads(m1: Record, m2: Record, m3: Record, m4: Record, m5: Record)
    requires Example(m1, m2, m3, m4, m5)
    ensures Stamped([m1, m3, m5]) && SortByStamp([m1, m3, m5]) == [m3, m5, m1]
    ensures Stamped([m2, m4]) && SortByStamp([m2, m4]) == [m2, m4]
  {
    StampOrder(m1, m2, m3, m4, m5);
    SortThree(m1, m3, m5);
    SortTwo(m2, m4);
  }

  lemma LatestOffset()
    ensures ReplaceZ(Day + "10:05:00Z") == Day + "10:05:00+00:00"
  {
    var t := "2024-03-01T10:05:00";
    forall i | 0 <= i < |t| ensures t[i] != 'Z' {}
    ReplaceZUtcOffset(t);
    assert t + "Z" == Day + "10:05:00Z";
    assert t + "+00:00" == Day + "10:05:00+00:00";
  }

  lemma ExampleWellFormed(m1: Record, m2: Record, m3: Record, m4: Record, m5: Record)
    requires Example(m1, m2, m3, m4, m5)
    ensures Threaded([m1, m2, m3, m4, m5]) && Stamped([m1, m2, m3, m4, m5])
    ensures forall t | t in ThreadIds([m1, m2, m3, m4, m5]) :: Members([m1, m2, m3, m4, m5], t) != []
    ensures ConversationEpisodes([m1, m2, m3, m4, m5])
         == Success(ThreadEpisodes([m1, m2, m3, m4, m5], ThreadIds([m1, m2, m3, m4, m5])))
  {
    var h := [m1, m2, m3, m4, m5];
    assert AllHave(h, "thread_id") && AllHave(h, "timestamp");
    ThreadIdsCover(h);
  }

  lemma ExampleThreadEpisodes(m1: Record, m2: Record, m3: Record, m4: Record, m5: Record)
    requires Example(m1, m2, m3, m4, m5)
    ensures var eps := ConversationEpisodes([m1, m2, m3, m4, m5]);
      && eps.Success? && |eps.value| == 2
      && eps.value[0] == ThreadEpisode("t1", [m3, m5, m1])
      && eps.value[1] == ThreadEpisode("t2", [m2, m4])
  {
    var h := [m1, m2, m3, m4, m5];
    ExampleWellFormed(m1, m2, m3, m4, m5);
    GroupedByThread(m1, m2, m3, m4, m5);
    SortedThreads(m1, m2, m3, m4, m5);
  }

  /** Five messages in two threads, out of order within `t1`: two episodes,
      `t1` first, with `t1`'s messages in timestamp order and its reference
      time the latest of them. */
  lemma TwoThreads(m1: Record, m2: Record, m3: Record, m4: Record, m5: Record)
    requires Example(m1, m2, m3, m4, m5)
    ensures var eps := ConversationEpisodes([m1, m2, m3, m4, m5]);
      && eps.Success? && |eps.value| == 2
      && eps.value[0].groupId == Some("t1")
      && eps.value[0].content == DumpedList([m3, m5, m1])
      && eps.value[0].referenceTime == Iso(Day + "10:05:00+00:00")
      && eps.value[1].groupId == Some("t2")
      && eps.value[1].content == DumpedList([m2, m4])
  {
    ExampleThreadEpisodes(m1, m2, m3, m4, m5);
    LatestOffset();
  }

  /** Five episodes in chunks of two: three bulk calls of sizes 2, 2 and 1,
      in order, each followed by a pause, so three pauses in all. */
  lemma FiveEpisodesInPairs(eps: seq<Episode>)
    requires |eps| == 5
    ensures var cs := Chunks(eps, 2);
      && cs == [eps[..2], eps[2..4], eps[4..]]
      && Paced(cs) == [Bulk(eps[..2]), Call.Sleep(DelaySeconds), Bulk(eps[2..4]), Call.Sleep(DelaySeconds),
                       Bulk(eps[4..]), Call.Sleep(DelaySeconds)]
  {
    assert eps[4..][..1] == eps[4..];
    assert eps[4..][1..] == [];
    assert Chunks(eps[4..], 2) == [eps[4..]];
    assert eps[2..][..2] == eps[2..4];
    assert eps[2..][2..] == eps[4..];
    assert Chunks(eps[2..], 2) == [eps[2..4], eps[4..]];
    assert Chunks(eps, 2) == [eps[..2], eps[2..4], eps[4..]];
    var cs := [eps[..2], eps[2..4], eps[4..]];
    assert cs[1..][1..] == [eps[4..]];
    assert Paced([eps[4..]]) == [Bulk(eps[4..]), Call.Sleep(DelaySeconds)];
    assert Paced(cs[1..]) == [Bulk(eps[2..4]), Call.Sleep(DelaySeconds), Bulk(eps[4..]), Call.Sleep(DelaySeconds)];
  }
}
