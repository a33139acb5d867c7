/** The three ingestors of `factories/data_ingestion_factory.py`. Each keeps
    the record list loaded by `ingest`, hands it back from `to_json`, and
    turns it into episodes in `to_episodes`. The episode lists are specified
    by the functions ContractEpisodes, PriceEpisodes and ConversationEpisodes,
    whose properties are the lemmas below them. */
module Ingestors {
  import opened Records
  import opened Text
  import opened StableSort
  import opened Threads

  const ContractDescription := "Energy contract data"
  const PriceDescription := "Energy price per kWh for given date"
  const ConversationDescription := "Full customer-bot conversation history"

  /** `json.loads(Path(source).read_text())`: the records stored at each path. */
  type Loader = string -> seq<Record>

  // ---- Contracts ----

  function ContractEpisode(c: Record): Episode
    requires "customer_id" in c
  {
    Episode("Contract-" + c["customer_id"], Dumped(c), ContractDescription, Json, Now, None)
  }

  /** The list comprehension over `self.contracts`; the first contract
      without `customer_id` raises KeyError. */
  function ContractEpisodes(cs: seq<Record>): Result<seq<Episode>>
    decreases |cs|
  {
    if cs == [] then Success([])
    else if "customer_id" !in cs[0] then Failure(MissingKey("customer_id"))
    else match ContractEpisodes(cs[1..])
      case Failure(e) => Failure(e)
      case Success(rest) => Success([ContractEpisode(cs[0])] + rest)
  }

  /** One episode per contract, in input order, named after its customer;
      the list fails exactly when some contract has no `customer_id`. */
  lemma {:induction false} ContractEpisodesSpec(cs: seq<Record>)
    ensures ContractEpisodes(cs).Success? <==> AllHave(cs, "customer_id")
    ensures ContractEpisodes(cs).Failure? ==> ContractEpisodes(cs).error == MissingKey("customer_id")
    ensures ContractEpisodes(cs).Success? ==>
      var eps := ContractEpisodes(cs).value;
      && |eps| == |cs|
      && forall i | 0 <= i < |cs| ::
        && eps[i].name == "Contract-" + cs[i]["customer_id"]
        && eps[i].content == Dumped(cs[i])
        && eps[i].sourceDescription == ContractDescription
        && eps[i].source == Json
        && eps[i].referenceTime == Now
        && eps[i].groupId == None
    decreases |cs|
  {
    if cs != [] {
      ContractEpisodesSpec(cs[1..]);
      assert cs == [cs[0]] + cs[1..];
      if ContractEpisodes(cs).Success? {
        var eps := ContractEpisodes(cs).value;
        forall i | 0 <= i < |cs| ensures eps[i].content == Dumped(cs[i]) {
          if i > 0 {
            assert cs[i] == cs[1..][i - 1];
          }
        }
      }
    }
  }

  class ContractIngestor {
    var contracts: seq<Record>

    constructor ()
      ensures contracts == []
    {
      contracts := [];
    }

    /** Replaces the stored list by the records read from `source`. */
    method Ingest(source: string, load: Loader)
      modifies this
      ensures ToJson() == load(source)
    {
      contracts := load(source);
    }

    function ToJson(): seq<Record>
      reads this
    {
      contracts
    }

    function ToEpisodes(): Result<seq<Episode>>
      reads this
    {
      ContractEpisodes(contracts)
    }
  }

  // ---- Prices ----

  function PriceGroup(p: Record): string
  {
    "Price_" + (if "location_id" in p then p["location_id"] else "default")
  }

  function PriceEpisode(p: Record): Episode
    requires "date" in p
  {
    Episode("EnergyPrice-" + p["date"], Dumped(p), PriceDescription, Json,
            Iso(p["date"] + "T00:00:00+00:00"), Some(PriceGroup(p)))
  }

  /** The episodes the loop of PriceIngestor.ToEpisodes has built after the
      prices `ps`; the first price without `date` raises KeyError. */
  function PriceEpisodes(ps: seq<Record>): Result<seq<Episode>>
    decreases |ps|
  {
    if ps == [] then Success([])
    else match PriceEpisodes(ps[..|ps| - 1])
      case Failure(e) => Failure(e)
      case Success(init) =>
        if "date" !in ps[|ps| - 1] then Failure(MissingKey("date"))
        else Success(init + [PriceEpisode(ps[|ps| - 1])])
  }

  /** One episode per price, in input order: named after its date, anchored
      at midnight UTC of that date, grouped by location or `Price_default`. */
  lemma {:induction false} PriceEpisodesSpec(ps: seq<Record>)
    ensures PriceEpisodes(ps).Success? <==> AllHave(ps, "date")
    ensures PriceEpisodes(ps).Failure? ==> PriceEpisodes(ps).error == MissingKey("date")
    ensures PriceEpisodes(ps).Success? ==>
      var eps := PriceEpisodes(ps).value;
      && |eps| == |ps|
      && forall i | 0 <= i < |ps| ::
        && eps[i].name == "EnergyPrice-" + ps[i]["date"]
        && eps[i].content == Dumped(ps[i])
        && eps[i].sourceDescription == PriceDescription
        && eps[i].source == Json
        && eps[i].referenceTime == Iso(ps[i]["date"] + "T00:00:00+00:00")
        && eps[i].groupId == Some(if "location_id" in ps[i] then "Price_" + ps[i]["location_id"]
                                  else "Price_default")
    decreases |ps|
  {
    if ps != [] {
      var init := ps[..|ps| - 1];
      PriceEpisodesSpec(init);
      assert "Price_" + "default" == "Price_default";
      assert ps == init + [ps[|ps| - 1]];
      if AllHave(ps, "date") {
        assert AllHave(init, "date") by {
          forall r | r in init ensures "date" in r {
            assert r in ps;
          }
        }
        var a := PriceEpisodes(init).value;
        var eps := a + [PriceEpisode(ps[|ps| - 1])];
        assert PriceEpisodes(ps) == Success(eps);
        forall i | 0 <= i < |ps| ensures eps[i] == PriceEpisode(ps[i]) {
          if i < |init| {
            assert ps[i] == init[i] && eps[i] == a[i];
          }
        }
      }
    }
  }

  class PriceIngestor {
    var prices: seq<Record>

    constructor ()
      ensures prices == []
    {
      prices := [];
    }

    method Ingest(source: string, load: Loader)
      modifies this
      ensures ToJson() == load(source)
    {
      prices := load(source);
    }

    function ToJson(): seq<Record>
      reads this
    {
      prices
    }

    method ToEpisodes() returns (r: Result<seq<Episode>>)
      ensures r == PriceEpisodes(prices)
    {
      var episodes := [];
      var i := 0;
      while i < |prices|
        invariant 0 <= i <= |prices|
        invariant PriceEpisodes(prices[..i]) == Success(episodes)
      {
        var p := prices[i];
        assert prices[..i + 1][..i] == prices[..i];
        if "date" !in p {
          PriceEpisodesSpec(prices);
          return Failure(MissingKey("date"));
        }
        episodes := episodes + [PriceEpisode(p)];
        i := i + 1;
      }
      assert prices[..i] == prices;
      r := Success(episodes);
    }
  }

  // ---- Conversations ----

  /** The episode of thread `t`, built from its messages once sorted. */
  function ThreadEpisode(t: string, sorted: seq<Record>): Episode
    requires sorted != [] && Stamped(sorted)
  {
    Episode("ChatbotConversation-" + t, DumpedList(sorted), ConversationDescription, Json,
            Iso(ReplaceZ(Stamp(sorted[|sorted| - 1]))), Some(t))
  }

  lemma MembersStamped(h: seq<Record>, t: string)
    requires Threaded(h) && Stamped(h)
    ensures Stamped(Members(h, t))
  {
  }

  /** The episodes of the threads `ids`, in that order. */
  function ThreadEpisodes(h: seq<Record>, ids: seq<string>): (r: seq<Episode>)
    requires Threaded(h) && Stamped(h)
    requires forall t | t in ids :: Members(h, t) != []
    ensures |r| == |ids|
  {
    seq(|ids|, i requires 0 <= i < |ids| =>
      MembersStamped(h, ids[i]);
      ThreadEpisode(ids[i], SortByStamp(Members(h, ids[i]))))
  }

  /** What ConversationIngestor.ToEpisodes returns for the history `h`. */
  function ConversationEpisodes(h: seq<Record>): Result<seq<Episode>>
  {
    if !AllHave(h, "thread_id") then Failure(MissingKey("thread_id"))
    else if !AllHave(h, "timestamp") then Failure(MissingKey("timestamp"))
    else
      ThreadIdsCover(h);
      Success(ThreadEpisodes(h, ThreadIds(h)))
  }

  /** The episode of one thread: its messages sorted stably by timestamp,
      anchored at the latest timestamp, grouped and named by the thread. */
  lemma ThreadEpisodeSpec(t: string, g: seq<Record>)
    requires g != [] && Stamped(g)
    ensures var s := SortByStamp(g); var e := ThreadEpisode(t, s);
      && |s| == |g|
      && multiset(s) == multiset(g)
      && SortedByStamp(s)
      && (forall stamp :: WithStamp(s, stamp) == WithStamp(g, stamp))
      && s[|s| - 1] in g
      && (forall m | m in g :: StrLe(Stamp(m), Stamp(s[|s| - 1])))
      && e.content == DumpedList(s)
      && e.referenceTime == Iso(ReplaceZ(Stamp(s[|s| - 1])))
      && e.name == "ChatbotConversation-" + t
      && e.groupId == Some(t)
      && e.sourceDescription == ConversationDescription
      && e.source == Json
  {
    SortSorted(g);
    SortLastIsLatest(g);
    forall stamp ensures WithStamp(SortByStamp(g), stamp) == WithStamp(g, stamp) {
      SortStable(g, stamp);
    }
  }

  /** The conversion fails exactly when a message lacks `thread_id` (checked
      first, while grouping) or `timestamp` (while sorting). */
  lemma ConversationEpisodesFailure(h: seq<Record>)
    ensures ConversationEpisodes(h).Success? <==> AllHave(h, "thread_id") && AllHave(h, "timestamp")
    ensures !AllHave(h, "thread_id") ==> ConversationEpisodes(h) == Failure(MissingKey("thread_id"))
    ensures AllHave(h, "thread_id") && !AllHave(h, "timestamp") ==>
      ConversationEpisodes(h) == Failure(MissingKey("timestamp"))
    ensures h == [] ==> ConversationEpisodes(h) == Success([])
  {
  }

  /** One episode per distinct thread, in order of each thread's first
      message; episode `i` is built from all the messages of thread `i`. */
  lemma ConversationEpisodesPerThread(h: seq<Record>)
    requires AllHave(h, "thread_id") && AllHave(h, "timestamp")
    ensures ConversationEpisodes(h).Success?
    ensures var eps := ConversationEpisodes(h).value;
      var ids := ThreadIds(h);
      && |eps| == |ids|
      && (forall m | m in h :: ThreadId(m) in ids)
      && (forall i, j | 0 <= i < j < |ids| :: ids[i] != ids[j])
      && (forall i, j | 0 <= i < j < |ids| :: FirstIndex(h, ids[i]) < FirstIndex(h, ids[j]) < |h|)
      && forall i | 0 <= i < |ids| ::
        && Members(h, ids[i]) != []
        && Stamped(Members(h, ids[i]))
        && eps[i] == ThreadEpisode(ids[i], SortByStamp(Members(h, ids[i])))
  {
    var ids := ThreadIds(h);
    ThreadIdsCover(h);
    ThreadIdsDistinct(h);
    ThreadIdsInFirstAppearanceOrder(h);
    forall i, j | 0 <= i < j < |ids| ensures FirstIndex(h, ids[i]) < FirstIndex(h, ids[j]) < |h| {
      assert ids[j] in ids;
    }
    var eps := ConversationEpisodes(h).value;
    assert eps == ThreadEpisodes(h, ids);
    forall i | 0 <= i < |ids|
      ensures Members(h, ids[i]) != [] && Stamped(Members(h, ids[i]))
      ensures eps[i] == ThreadEpisode(ids[i], SortByStamp(Members(h, ids[i])))
    {
      assert ids[i] in ids;
      MembersStamped(h, ids[i]);
    }
  }

  class ConversationIngestor {
    var history: seq<Record>

    constructor ()
      ensures history == []
    {
      history := [];
    }

    method Ingest(source: string, load: Loader)
      modifies this
      ensures ToJson() == load(source)
    {
      history := load(source);
    }

    function ToJson(): seq<Record>
      reads this
    {
      history
    }

    /** Groups the history into the `threads` dict, then sorts each thread
        and builds its episode. Nothing is modified: the stored history keeps
        its order, only the per-thread lists are sorted. */
    method ToEpisodes() returns (r: Result<seq<Episode>>)
      ensures r == ConversationEpisodes(history)
    {
      var ok, threads, order := GroupByThread(history);
      if !ok {
        return Failure(MissingKey("thread_id"));
      }
      r := EpisodesPerThread(history, threads, order);
    }
  }

  /** `threads` and `order` hold the grouping of the messages `h`. */
  ghost predicate Grouped(h: seq<Record>, threads: map<string, seq<Record>>, order: seq<string>)
  {
    && Threaded(h)
    && order == ThreadIds(h)
    && (forall t :: t in threads <==> t in order)
    && (forall t | t in threads :: threads[t] == Members(h, t))
  }

  /** `threads.setdefault(t, []).append(msg)` keeps the grouping up to date. */
  lemma GroupedStep(h: seq<Record>, i: nat, threads: map<string, seq<Record>>, order: seq<string>)
    requires i < |h| && "thread_id" in h[i]
    requires Grouped(h[..i], threads, order)
    ensures var t := h[i]["thread_id"];
      var known := if t in threads then threads else threads[t := []];
      Grouped(h[..i + 1], known[t := known[t] + [h[i]]], if t in threads then order else order + [t])
  {
    var msg := h[i];
    assert h[..i + 1] == h[..i] + [msg];
    AppendMessage(h[..i], msg);
    ListsStep(h[..i], msg, threads);
  }

  /** The lists part of `GroupedStep`. */
  lemma ListsStep(h: seq<Record>, msg: Record, threads: map<string, seq<Record>>)
    requires Threaded(h) && "thread_id" in msg
    requires forall t :: t in threads <==> t in ThreadIds(h)
    requires forall t | t in threads :: threads[t] == Members(h, t)
    ensures var t := msg["thread_id"];
      var known := if t in threads then threads else threads[t := []];
      var next := known[t := known[t] + [msg]];
      forall u | u in next :: next[u] == Members(h + [msg], u)
  {
    var t := msg["thread_id"];
    var known := if t in threads then threads else threads[t := []];
    var next := known[t := known[t] + [msg]];
    forall u | u in next ensures next[u] == Members(h + [msg], u) {
      AppendMember(h, msg, u);
      if u !in threads {
        ThreadIdsCover(h);
      }
    }
  }

  /** The `setdefault(...).append(msg)` loop. The dict's keys, in insertion
      order, are `order`; `ok` is false when a message has no `thread_id`. */
  method GroupByThread(history: seq<Record>) returns (ok: bool, threads: map<string, seq<Record>>, order: seq<string>)
    ensures ok <==> Threaded(history)
    ensures ok ==> order == ThreadIds(history)
    ensures ok ==> forall t :: t in threads <==> t in order
    ensures ok ==> forall t | t in threads :: threads[t] == Members(history, t)
  {
    threads, order := map[], [];
    var i := 0;
    while i < |history|
      invariant 0 <= i <= |history|
      invariant Grouped(history[..i], threads, order)
    {
      var msg := history[i];
      if "thread_id" !in msg {
        assert msg in history;
        return false, threads, order;
      }
      GroupedStep(history, i, threads, order);
      var t := msg["thread_id"];
      if t !in threads {
        threads := threads[t := []];
        order := order + [t];
      }
      threads := threads[t := threads[t] + [msg]];
      i := i + 1;
    }
    assert history[..i] == history;
    ok := true;
  }

  lemma ThreadNonEmpty(h: seq<Record>, t: string)
    requires Threaded(h) && t in ThreadIds(h)
    ensures Members(h, t) != []
  {
    ThreadIdsCover(h);
  }

  lemma MissingStampFails(h: seq<Record>, t: string)
    requires Threaded(h) && !Stamped(Members(h, t))
    ensures ConversationEpisodes(h) == Failure(MissingKey("timestamp"))
  {
  }

  lemma ThreadsStamped(h: seq<Record>)
    requires Threaded(h)
    requires forall k | 0 <= k < |ThreadIds(h)| :: Stamped(Members(h, ThreadIds(h)[k]))
    ensures Stamped(h)
  {
    ThreadIdsCover(h);
    forall m | m in h ensures "timestamp" in m {
      var q :| 0 <= q < |ThreadIds(h)| && ThreadIds(h)[q] == ThreadId(m);
      assert m in Members(h, ThreadIds(h)[q]);
    }
  }

  /** The episode of thread `t` of the history `h`, or the KeyError its sort raises. */
  function EpisodeOfThread(h: seq<Record>, t: string): Result<Episode>
    requires Threaded(h)
  {
    if Members(h, t) == [] || !Stamped(Members(h, t)) then Failure(MissingKey("timestamp"))
    else Success(ThreadEpisode(t, SortByStamp(Members(h, t))))
  }

  /** Once every thread has its episode, the list is the specified one. */
  lemma EpisodesOfThreadsComplete(h: seq<Record>, episodes: seq<Episode>)
    requires Threaded(h) && |episodes| == |ThreadIds(h)|
    requires forall k | 0 <= k < |episodes| :: EpisodeOfThread(h, ThreadIds(h)[k]) == Success(episodes[k])
    ensures ConversationEpisodes(h) == Success(episodes)
  {
    var ids := ThreadIds(h);
    forall k | 0 <= k < |ids| ensures Stamped(Members(h, ids[k])) {
      assert EpisodeOfThread(h, ids[k]).Success?;
    }
    ThreadsStamped(h);
    ThreadIdsCover(h);
    var eps := ThreadEpisodes(h, ids);
    forall k | 0 <= k < |ids| ensures eps[k] == episodes[k] {
      assert EpisodeOfThread(h, ids[k]).Success?;
    }
    assert eps == episodes;
  }

  /** A thread whose episode cannot be built makes the whole conversion fail. */
  lemma ThreadFailureFails(h: seq<Record>, t: string)
    requires Threaded(h) && t in ThreadIds(h) && EpisodeOfThread(h, t).Failure?
    ensures ConversationEpisodes(h) == Failure(MissingKey("timestamp"))
  {
    ThreadNonEmpty(h, t);
    MissingStampFails(h, t);
  }

  /** One iteration over `threads.items()`: sort the thread's list by
      timestamp and build its episode; a message without `timestamp` raises KeyError. */
  method ThreadStep(history: seq<Record>, threads: map<string, seq<Record>>, t: string)
    returns (r: Result<Episode>)
    requires Threaded(history) && t in ThreadIds(history)
    requires t in threads && threads[t] == Members(history, t)
    ensures r == EpisodeOfThread(history, t)
  {
    var messages := threads[t];
    ThreadNonEmpty(history, t);
    if !Stamped(messages) {
      return Failure(MissingKey("timestamp"));
    }
    messages := SortByStamp(messages);
    r := Success(ThreadEpisode(t, messages));
  }

  lemma AppendThreadEpisode(h: seq<Record>, order: seq<string>, episodes: seq<Episode>, e: Episode)
    requires Threaded(h) && |episodes| < |order|
    requires forall k | 0 <= k < |episodes| :: EpisodeOfThread(h, order[k]) == Success(episodes[k])
    requires EpisodeOfThread(h, order[|episodes|]) == Success(e)
    ensures forall k | 0 <= k < |episodes| + 1 :: EpisodeOfThread(h, order[k]) == Success((episodes + [e])[k])
  {
    forall k | 0 <= k < |episodes| + 1
      ensures EpisodeOfThread(h, order[k]) == Success((episodes + [e])[k])
    {
      if k < |episodes| {
        assert (episodes + [e])[k] == episodes[k];
      }
    }
  }

  /** The loop over `threads.items()`, appending one episode per thread. */
  method EpisodesPerThread(history: seq<Record>, threads: map<string, seq<Record>>, order: seq<string>)
    returns (r: Result<seq<Episode>>)
    requires Threaded(history)
    requires order == ThreadIds(history)
    requires forall t :: t in threads <==> t in order
    requires forall t | t in threads :: threads[t] == Members(history, t)
    ensures r == ConversationEpisodes(history)
  {
    var episodes: seq<Episode> := [];
    var j := 0;
    while j < |order|
      invariant 0 <= j <= |order|
      invariant |episodes| == j
      invariant forall k | 0 <= k < j :: EpisodeOfThread(history, order[k]) == Success(episodes[k])
    {
      var t := order[j];
      assert t in order;
      var e := ThreadStep(history, threads, t);
      if e.Failure? {
        ThreadFailureFails(history, t);
        return Failure(e.error);
      }
      AppendThreadEpisode(history, order, episodes, e.value);
      episodes := episodes + [e.value];
      j := j + 1;
    }
    EpisodesOfThreadsComplete(history, episodes);
    r := Success(episodes);
  }
}
