/** `main` of `ingest_data.py`: build an ingestor per configured source
    through the factory, gather all episodes, submit them in paced chunks,
    then run a search and, when it found something, a second search centred
    on the first hit's source node. */
module Pipeline {
  import opened Records
  import opened Ingestors
  import opened Factory
  import opened GraphService
  import opened Chunking

  const ChunkSize: nat := 1
  /** The `sources` dict: asset type to file, in insertion order. */
  const Sources: seq<(string, string)> := [("price", "data/prices.json")]
  const FirstQuery := "What was the customer_id"
  const RerankQuery := "show customers"

  // ---- Gathering episodes ----

  /** The episodes of one `(asset type, path)` source. */
  function SourceEpisodes(registry: map<string, IngestorClass>, source: (string, string), load: Loader)
    : Result<seq<Episode>>
  {
    match Lookup(registry, source.0)
    case Failure(e) => Failure(e)
    case Success(cls) => EpisodesOf(cls, load(source.1))
  }

  /** Concatenation of two results; the first failure wins. */
  function Concat(a: Result<seq<Episode>>, b: Result<seq<Episode>>): Result<seq<Episode>>
  {
    match a
    case Failure(e) => Failure(e)
    case Success(x) =>
      match b
      case Failure(e) => Failure(e)
      case Success(y) => Success(x + y)
  }

  /** `all_episodes` after the loop has visited `sources`, or the first error. */
  function Collected(registry: map<string, IngestorClass>, sources: seq<(string, string)>, load: Loader)
    : Result<seq<Episode>>
    decreases |sources|
  {
    if sources == [] then Success([])
    else Concat(Collected(registry, sources[..|sources| - 1], load),
                SourceEpisodes(registry, sources[|sources| - 1], load))
  }

  lemma ConcatAssociative(a: Result<seq<Episode>>, b: Result<seq<Episode>>, c: Result<seq<Episode>>)
    ensures Concat(Concat(a, b), c) == Concat(a, Concat(b, c))
  {
    if a.Success? && b.Success? && c.Success? {
      assert a.value + b.value + c.value == a.value + (b.value + c.value);
    }
  }

  lemma ConcatUnit(a: Result<seq<Episode>>)
    ensures Concat(a, Success([])) == a
  {
    if a.Success? {
      assert a.value + [] == a.value;
    }
  }

  /** Gathering is a concatenation in source order: the episodes of `s1 + s2`
      are those of `s1` followed by those of `s2`, nothing reordered, and an
      error in `s1` stops the run before `s2` is read. */
  lemma {:induction false} CollectedAppend(registry: map<string, IngestorClass>, s1: seq<(string, string)>,
                                           s2: seq<(string, string)>, load: Loader)
    ensures Collected(registry, s1 + s2, load) == Concat(Collected(registry, s1, load), Collected(registry, s2, load))
    decreases |s2|
  {
    if s2 == [] {
      assert s1 + s2 == s1;
      ConcatUnit(Collected(registry, s1, load));
    } else {
      var init := s2[..|s2| - 1];
      var last := SourceEpisodes(registry, s2[|s2| - 1], load);
      CollectedAppend(registry, s1, init, load);
      assert (s1 + s2)[..|s1 + s2| - 1] == s1 + init;
      assert (s1 + s2)[|s1 + s2| - 1] == s2[|s2| - 1];
      ConcatAssociative(Collected(registry, s1, load), Collected(registry, init, load), last);
    }
  }

  /** A single source contributes exactly its ingestor's episodes; an asset
      type missing from the registry fails with UnknownAssetType. */
  lemma CollectedOne(registry: map<string, IngestorClass>, source: (string, string), load: Loader)
    ensures Collected(registry, [source], load)
         == if source.0 in registry then EpisodesOf(registry[source.0], load(source.1))
            else Failure(UnknownAssetType(source.0))
  {
    assert [source][..0] == [];
    match SourceEpisodes(registry, source, load)
    case Failure(_) =>
    case Success(eps) => assert [] + eps == eps;
  }

  /** The script's own configuration, with the module's three registrations
      in place: a run ingests the price file and nothing else. */
  lemma ConfiguredSources(registry: map<string, IngestorClass>, load: Loader)
    ensures var builtins := registry["contract" := ContractIngestorClass]["price" := PriceIngestorClass]
                                    ["conversation" := ConversationIngestorClass];
      Collected(builtins, Sources, load) == PriceEpisodes(load("data/prices.json"))
  {
    var builtins := registry["contract" := ContractIngestorClass]["price" := PriceIngestorClass]
                            ["conversation" := ConversationIngestorClass];
    CollectedOne(builtins, ("price", "data/prices.json"), load);
  }

  /** One turn of the loop over `sources.items()`: create the ingestor for
      the asset type, ingest the file, convert. */
  method IngestSource(factory: DataFactory, source: (string, string), load: Loader)
    returns (r: Result<seq<Episode>>)
    ensures r == SourceEpisodes(factory.registry, source, load)
  {
    var created := factory.Create(source.0);
    if created.Failure? {
      return Failure(created.error);
    }
    var ingester := created.value;
    ingester.Ingest(source.1, load);
    r := ingester.ToEpisodes();
  }

  /** Gathering one more source extends the episodes so far, or ends the
      whole gathering with that source's error. */
  lemma CollectedStep(registry: map<string, IngestorClass>, sources: seq<(string, string)>, i: nat,
                      load: Loader, all: seq<Episode>)
    requires i < |sources|
    requires Collected(registry, sources[..i], load) == Success(all)
    ensures var next := SourceEpisodes(registry, sources[i], load);
      && (next.Failure? ==> Collected(registry, sources, load) == Failure(next.error))
      && (next.Success? ==> Collected(registry, sources[..i + 1], load) == Success(all + next.value))
  {
    assert sources[..i + 1][..i] == sources[..i];
    assert sources[..i + 1] + sources[i + 1..] == sources;
    CollectedAppend(registry, sources[..i + 1], sources[i + 1..], load);
  }

  /** The loop over `sources.items()`: create, ingest, extend. */
  method CollectEpisodes(factory: DataFactory, sources: seq<(string, string)>, load: Loader)
    returns (r: Result<seq<Episode>>)
    ensures r == Collected(factory.registry, sources, load)
  {
    var all: seq<Episode> := [];
    var i := 0;
    while i < |sources|
      invariant 0 <= i <= |sources|
      invariant Collected(factory.registry, sources[..i], load) == Success(all)
    {
      var eps := IngestSource(factory, sources[i], load);
      CollectedStep(factory.registry, sources, i, load, all);
      if eps.Failure? {
        return Failure(eps.error);
      }
      all := all + eps.value;
      i := i + 1;
    }
    assert sources[..i] == sources;
    r := Success(all);
  }

  // ---- Submitting episodes ----

  /** The chunks from position `i` on: the slice `eps[i:i+size]`, then the rest. */
  lemma ChunksFrom(eps: seq<Episode>, size: nat, i: nat)
    requires size >= 1 && i < |eps|
    ensures Chunks(eps[i..], size)
         == [eps[i..Min(i + size, |eps|)]] + (if i + size < |eps| then Chunks(eps[i + size..], size) else [])
  {
    var m := Min(size, |eps| - i);
    assert eps[i..][..m] == eps[i..Min(i + size, |eps|)];
    assert eps[i..][m..] == if i + size < |eps| then eps[i + size..] else [];
  }

  /** The chunks still to send once the loop index has reached `i`. */
  function Remaining(eps: seq<Episode>, size: nat, i: nat): seq<seq<Episode>>
    requires size >= 1
  {
    if i < |eps| then Chunks(eps[i..], size) else []
  }

  lemma AfterAfter(done: seq<Call>, k: nat, head: seq<Call>, s: Submitted)
    ensures After(done, k, After(head, 1, s)) == After(done + head, k + 1, s)
  {
    assert done + (head + s.calls) == done + head + s.calls;
  }

  /** Unfolding `Submission` once when the service accepts the first chunk. */
  lemma SubmissionAccept(chunk: seq<Episode>, rest: seq<seq<Episode>>, accepts: seq<Call> -> bool, before: seq<Call>)
    requires accepts(before + [Bulk(chunk)])
    ensures Submission([chunk] + rest, accepts, before)
         == After([Bulk(chunk), Call.Sleep(DelaySeconds)], 1,
                  Submission(rest, accepts, before + [Bulk(chunk), Call.Sleep(DelaySeconds)]))
  {
    assert ([chunk] + rest)[0] == chunk;
    assert ([chunk] + rest)[1..] == rest;
  }

  /** Unfolding `Submission` once when the service rejects the first chunk. */
  lemma SubmissionReject(chunk: seq<Episode>, rest: seq<seq<Episode>>, accepts: seq<Call> -> bool, before: seq<Call>)
    requires !accepts(before + [Bulk(chunk)])
    ensures Submission([chunk] + rest, accepts, before) == Submitted([Bulk(chunk)], Some(0))
  {
    assert ([chunk] + rest)[0] == chunk;
  }

  /** One accepted chunk moves the loop index by `size` and the chunk count by one. */
  lemma AcceptedStep(episodes: seq<Episode>, size: nat, i: nat, k: nat, done: seq<Call>,
                     accepts: seq<Call> -> bool, start: seq<Call>, whole: Submitted)
    requires size >= 1 && i < |episodes|
    requires whole == After(done, k, Submission(Remaining(episodes, size, i), accepts, start + done))
    requires accepts(start + done + [Bulk(episodes[i..Min(i + size, |episodes|)])])
    ensures var head := [Bulk(episodes[i..Min(i + size, |episodes|)]), Call.Sleep(DelaySeconds)];
      whole == After(done + head, k + 1, Submission(Remaining(episodes, size, i + size), accepts, start + (done + head)))
  {
    var chunk := episodes[i..Min(i + size, |episodes|)];
    var rest := Remaining(episodes, size, i + size);
    var head := [Bulk(chunk), Call.Sleep(DelaySeconds)];
    ChunksFrom(episodes, size, i);
    assert Remaining(episodes, size, i) == [chunk] + rest;
    SubmissionAccept(chunk, rest, accepts, start + done);
    assert start + done + head == start + (done + head);
    AfterAfter(done, k, head, Submission(rest, accepts, start + (done + head)));
  }

  /** A rejected chunk is the last call, and it is chunk number `k`. */
  lemma RejectedStep(episodes: seq<Episode>, size: nat, i: nat, k: nat, done: seq<Call>,
                     accepts: seq<Call> -> bool, start: seq<Call>, whole: Submitted)
    requires size >= 1 && i < |episodes|
    requires whole == After(done, k, Submission(Remaining(episodes, size, i), accepts, start + done))
    requires !accepts(start + done + [Bulk(episodes[i..Min(i + size, |episodes|)])])
    ensures start + whole.calls == start + done + [Bulk(episodes[i..Min(i + size, |episodes|)])]
    ensures whole.failed == Some(k)
  {
    var chunk := episodes[i..Min(i + size, |episodes|)];
    var rest := Remaining(episodes, size, i + size);
    ChunksFrom(episodes, size, i);
    assert Remaining(episodes, size, i) == [chunk] + rest;
    SubmissionReject(chunk, rest, accepts, start + done);
    assert start + (done + [Bulk(chunk)]) == start + done + [Bulk(chunk)];
  }

  /** One turn of the chunk loop: bulk-add the slice `eps[i:i+size]` and,
      when the service took it, pause. `ok` says whether it took it. */
  method SubmitChunk(client: GraphClient, episodes: seq<Episode>, size: nat, i: nat, k: nat,
                     ghost done: seq<Call>, ghost start: seq<Call>, ghost whole: Submitted)
    returns (ok: bool)
    requires size >= 1 && i < |episodes|
    requires client.trace == start + done
    requires whole == After(done, k, Submission(Remaining(episodes, size, i), client.accepts, start + done))
    modifies client
    ensures var head := [Bulk(episodes[i..Min(i + size, |episodes|)]), Call.Sleep(DelaySeconds)];
      && (ok ==> client.trace == start + (done + head))
      && (ok ==> whole == After(done + head, k + 1,
                                Submission(Remaining(episodes, size, i + size), client.accepts, start + (done + head))))
      && (!ok ==> client.trace == start + whole.calls && whole.failed == Some(k))
  {
    var chunk := episodes[i..Min(i + size, |episodes|)];
    ok := client.AddEpisodeBulk(chunk);
    if !ok {
      RejectedStep(episodes, size, i, k, done, client.accepts, start, whole);
      return;
    }
    client.Sleep(DelaySeconds);
    AcceptedStep(episodes, size, i, k, done, client.accepts, start, whole);
  }

  /** The `range(0, len(all_episodes), CHUNK_SIZE)` loop: one bulk call per
      slice, then one pause, stopping at the bulk call that raises. */
  method SubmitInChunks(client: GraphClient, episodes: seq<Episode>, size: nat) returns (failed: Option<nat>)
    requires size >= 1
    modifies client
    ensures var s := Submission(Chunks(episodes, size), client.accepts, old(client.trace));
      client.trace == old(client.trace) + s.calls && failed == s.failed
  {
    ghost var start := client.trace;
    ghost var whole := Submission(Chunks(episodes, size), client.accepts, start);
    ghost var done: seq<Call> := [];
    var i, k := 0, 0;
    assert episodes[0..] == episodes;
    assert After([], 0, whole) == whole;
    while i < |episodes|
      invariant client.trace == start + done
      invariant whole == After(done, k, Submission(Remaining(episodes, size, i), client.accepts, start + done))
      decreases |episodes| - i
    {
      var ok := SubmitChunk(client, episodes, size, i, k, done, start, whole);
      if !ok {
        return Some(k);
      }
      done := done + [Bulk(episodes[i..Min(i + size, |episodes|)]), Call.Sleep(DelaySeconds)];
      i, k := i + size, k + 1;
    }
    assert whole == After(done, k, Submitted([], None));
    assert done + [] == done;
    failed := None;
  }

  // ---- Searching ----

  /** The search calls after the calls `before`: the broad search, then the
      centred one only when the broad search returned results. */
  function QueryCalls(answers: seq<Call> -> seq<EntityEdge>, before: seq<Call>): seq<Call>
  {
    var first := Call.Search(FirstQuery, None);
    var results := answers(before + [first]);
    if results == [] then [first]
    else [first, Call.Search(RerankQuery, Some(results[0].sourceNodeUuid))]
  }

  /** The broad search always runs; a second search is issued exactly when
      it returned something, centred on the first result's source node. */
  lemma RerankOnlyAfterResults(answers: seq<Call> -> seq<EntityEdge>, before: seq<Call>)
    ensures var calls := QueryCalls(answers, before);
      var results := answers(before + [Call.Search(FirstQuery, None)]);
      && calls[0] == Call.Search(FirstQuery, None)
      && (|calls| == 2 <==> results != [])
      && (results == [] ==> |calls| == 1)
      && (forall c | c in calls && c.Search? && c.center.Some? ::
            results != [] && c == Call.Search(RerankQuery, Some(results[0].sourceNodeUuid)))
  {
  }

  /** The search part of `main`; `reranked` is None when the broad search
      found nothing. */
  method QueryFlow(client: GraphClient) returns (results: seq<EntityEdge>, reranked: Option<seq<EntityEdge>>)
    modifies client
    ensures client.trace == old(client.trace) + QueryCalls(client.answers, old(client.trace))
    ensures results == client.answers(old(client.trace) + [Call.Search(FirstQuery, None)])
    ensures reranked.Some? <==> results != []
    ensures reranked.Some? ==> reranked.value == client.answers(client.trace)
  {
    results := client.Search(FirstQuery, None);
    reranked := None;
    if results != [] {
      var center := results[0].sourceNodeUuid;
      var second := client.Search(RerankQuery, Some(center));
      reranked := Some(second);
    }
  }

  // ---- The whole run ----

  datatype Outcome =
    | Completed(results: seq<EntityEdge>, reranked: Option<seq<EntityEdge>>)
    | Aborted(error: Error)

  /** `main`: a failure while gathering makes no call to the service; a bulk
      call that raises ends the run after that call; otherwise all chunks
      are sent and paced, then the searches run. */
  method Run(factory: DataFactory, sources: seq<(string, string)>, load: Loader, client: GraphClient)
    returns (outcome: Outcome)
    modifies client
    ensures Collected(factory.registry, sources, load).Failure? ==>
      && outcome == Aborted(Collected(factory.registry, sources, load).error)
      && client.trace == old(client.trace)
    ensures Collected(factory.registry, sources, load).Success? ==>
      var s := Submission(Chunks(Collected(factory.registry, sources, load).value, ChunkSize),
                          client.accepts, old(client.trace));
      && (s.failed.Some? ==>
            outcome == Aborted(BulkRejected(s.failed.value)) && client.trace == old(client.trace) + s.calls)
      && (s.failed.None? ==>
            && outcome.Completed?
            && client.trace == old(client.trace) + s.calls
                               + QueryCalls(client.answers, old(client.trace) + s.calls))
  {
    var all := CollectEpisodes(factory, sources, load);
    if all.Failure? {
      return Aborted(all.error);
    }
    var failed := SubmitInChunks(client, all.value, ChunkSize);
    if failed.Some? {
      return Aborted(BulkRejected(failed.value));
    }
    var results, reranked := QueryFlow(client);
    outcome := Completed(results, reranked);
  }
}
