# Energy data ingestion into a temporal knowledge graph — a Dafny model

The modelled system loads energy contracts, daily energy prices and
customer–chatbot conversations from JSON files. It turns them into
*episodes*, the unit a Graphiti knowledge graph accepts. It submits the
episodes in paced chunks and then queries the graph.

The model covers two source files:

* `factories/data_ingestion_factory.py` — the `DataFactory` registry
  (`register`, `create`) and the three ingestors (`ingest`, `to_json`,
  `to_episodes`).
  * Contracts give one episode each, named after the customer.
  * Prices give one episode each, anchored at UTC midnight of their date and
    grouped by location.
  * Conversations are grouped by thread. Each thread's messages are sorted
    stably by timestamp and give one episode, anchored at the thread's last
    timestamp.
* `ingest_data.py` — the `main` flow, the fact-list formatter and the
  dictionary filter used for printing.
  * `main` gathers the episodes of each configured source in order, submits
    them chunk by chunk with a pause after each bulk call, and runs a broad
    search. It runs a second search centred on the first hit only when the
    broad search found something.

Layout:

| file | module | contents |
|---|---|---|
| `records.dfy` | `Records` | records as `map<string, string>`, episodes, results and errors |
| `text.dfy` | `Text` | Python's `str` order, `replace("Z", "+00:00")`, `join` and `split` |
| `stable_sort.dfy` | `StableSort` | `list.sort(key=timestamp)` as a stable insertion sort |
| `threads.dfy` | `Threads` | grouping by `thread_id` into an insertion-ordered dict |
| `ingestors.dfy` | `Ingestors` | the three ingestor classes and the functions that specify them |
| `factory.dfy` | `Factory` | the registry class and the instances it creates |
| `graph_service.dfy` | `GraphService` | the graph client as a trace of calls |
| `chunking.dfy` | `Chunking` | chunks, pacing and fail-fast submission as functions |
| `pipeline.dfy` | `Pipeline` | the loops of `main` as methods proved against those functions |
| `presentation.dfy` | `Presentation` | `edges_to_facts_string` and the `fact_embedding` filter |
| `scenarios.dfy` | `Scenarios` | three worked inputs |

Outside effects are parameters:

* Reading and parsing a file is a `Loader` function from path to records.
* `json.dumps` is the symbolic content `Dumped(record)` / `DumpedList(records)`.
* `datetime.now(timezone.utc)` is the reference time `Now`.
* A parsed ISO time is kept as its text, `Iso(text)`.
* The graph service is a `GraphClient` object. It appends every bulk call,
  pause and search to its `trace`. Its verdicts (`accepts`) and search results
  (`answers`) are fixed functions of the trace.
* A Python exception is a `Failure` value: `MissingKey` for a `KeyError`,
  `UnknownAssetType` for the `ValueError` of `create`, and `BulkRejected(k)`
  for a failing bulk call on chunk `k`.

Three behaviours of the code, modelled as written:

* `main` sleeps after *every* bulk call, the last one included. A run with
  `n` episodes and chunk size `c` therefore makes `ceil(n / c)` bulk calls
  and `ceil(n / c)` pauses, not `ceil(n / c) - 1` pauses
  (`Chunking.PacedSpec`, `Chunking.ChunkedTrace`,
  `Scenarios.FiveEpisodesInPairs`).
* Contract episodes carry no group id. The code passes no `group_id`, so it
  is not derived from the customer (`Ingestors.ContractEpisodesSpec`).
* There is no cancellation between chunks and no configurable error policy.
  The first exception ends the run.

## Model

| member | source | states |
|---|---|---|
| Text.StrLeReflexive | factories/data_ingestion_factory.py:100 | every timestamp sorts no later than itself |
| Text.StrLeTotal | factories/data_ingestion_factory.py:100 | any two timestamps are comparable, so the sort key order is total |
| Text.StrLeTransitive | factories/data_ingestion_factory.py:100 | the string order on timestamps is transitive |
| Text.StrLeAntisymmetric | factories/data_ingestion_factory.py:100 | two timestamps that each sort no later than the other are equal |
| Text.StrLeCommonPrefix | factories/data_ingestion_factory.py:100 | timestamps with a common prefix compare as their remainders do |
| Text.ReplaceZAppend | factories/data_ingestion_factory.py:110 | replacing `Z` distributes over concatenation |
| Text.ReplaceZIdentity | factories/data_ingestion_factory.py:110 | a string without `Z` is unchanged by the replacement |
| Text.ReplaceZUtcOffset | factories/data_ingestion_factory.py:110 | a timestamp ending in `Z` gets the `+00:00` offset in its place |
| StableSort.SortByStamp | factories/data_ingestion_factory.py:100 | sorting a thread keeps exactly its messages (same multiset) |
| StableSort.SortSorted | factories/data_ingestion_factory.py:100 | the sorted thread has non-decreasing timestamps |
| StableSort.SortStable | factories/data_ingestion_factory.py:100 | messages with equal timestamps keep their relative order |
| StableSort.SortLastIsLatest | factories/data_ingestion_factory.py:100-110 | the last sorted message belongs to the thread, carries its latest timestamp, and the length is kept |
| Threads.Members | factories/data_ingestion_factory.py:93-95 | the list stored under a thread holds only history messages of that thread |
| Threads.ThreadIdsDistinct | factories/data_ingestion_factory.py:93-95 | each thread id is a key once |
| Threads.ThreadIdsCover | factories/data_ingestion_factory.py:93-95 | every message's thread is a key and the message is in its list; keys have non-empty lists, other ids have none |
| Threads.ThreadIdsInFirstAppearanceOrder | factories/data_ingestion_factory.py:93-98 | the keys are iterated in the order of each thread's first message |
| Threads.AppendMessage | factories/data_ingestion_factory.py:93-95 | one more message adds its thread as the last key exactly when the thread is new |
| Threads.AppendMember | factories/data_ingestion_factory.py:93-95 | one more message is appended to its own thread's list and to no other |
| Ingestors.ContractIngestor.constructor | factories/data_ingestion_factory.py:36-37 | a new contract ingestor holds no records |
| Ingestors.ContractIngestor.Ingest | factories/data_ingestion_factory.py:38-41 | after `ingest`, `to_json` returns the records read from the source |
| Ingestors.ContractIngestor.ToJson | factories/data_ingestion_factory.py:40-41 | `to_json` returns the stored contract list, the one the last `ingest` put there |
| Ingestors.ContractIngestor.ToEpisodes | factories/data_ingestion_factory.py:42-52 | `to_episodes` converts the stored contract list: one episode per contract, or the KeyError of the first contract without `customer_id` |
| Ingestors.ContractEpisodesSpec | factories/data_ingestion_factory.py:42-52 | one episode per contract in order, with name, content, description, kind, time `now` and no group; fails with KeyError exactly when a contract lacks `customer_id` |
| Ingestors.PriceIngestor.constructor | factories/data_ingestion_factory.py:55-56 | a new price ingestor holds no records |
| Ingestors.PriceIngestor.Ingest | factories/data_ingestion_factory.py:58-62 | after `ingest`, `to_json` returns the records read from the source |
| Ingestors.PriceIngestor.ToJson | factories/data_ingestion_factory.py:61-62 | `to_json` returns the stored price list |
| Ingestors.PriceEpisodesSpec | factories/data_ingestion_factory.py:64-78 | one episode per price in order, at midnight UTC of its date, grouped `Price_<location>` or `Price_default`; fails exactly when a price lacks `date` |
| Ingestors.PriceIngestor.ToEpisodes | factories/data_ingestion_factory.py:64-78 | the append loop builds exactly the specified price episodes, or stops at the first missing `date` |
| Ingestors.ConversationIngestor.constructor | factories/data_ingestion_factory.py:82-83 | a new conversation ingestor holds no records |
| Ingestors.ConversationIngestor.Ingest | factories/data_ingestion_factory.py:85-89 | after `ingest`, `to_json` returns the records read from the source |
| Ingestors.ConversationIngestor.ToJson | factories/data_ingestion_factory.py:88-89 | `to_json` returns the stored history as loaded, not the sorted copies |
| Ingestors.ThreadEpisodeSpec | factories/data_ingestion_factory.py:98-114 | a thread's episode holds its messages as a stable, sorted permutation, and its time is the latest timestamp with `Z` replaced; it is named and grouped by the thread |
| Ingestors.ConversationEpisodesFailure | factories/data_ingestion_factory.py:93-110 | conversion fails exactly when a message lacks `thread_id` (reported first) or `timestamp`; an empty history gives no episodes |
| Ingestors.ConversationEpisodesPerThread | factories/data_ingestion_factory.py:91-116 | one episode per distinct thread, in first-appearance order, built from all of that thread's messages |
| Ingestors.GroupedStep | factories/data_ingestion_factory.py:93-95 | one `setdefault(...).append` keeps the dict equal to the grouping of the messages read so far |
| Ingestors.GroupByThread | factories/data_ingestion_factory.py:93-95 | the `setdefault` loop builds the dict of threads in insertion order, or fails on a missing `thread_id` |
| Ingestors.ThreadStep | factories/data_ingestion_factory.py:98-114 | one turn of the loop over the threads sorts the thread and builds its episode, or fails on a missing `timestamp` |
| Ingestors.EpisodesPerThread | factories/data_ingestion_factory.py:97-116 | the loop over `threads.items()` builds exactly the specified episodes, or fails on a missing `timestamp` |
| Ingestors.ConversationIngestor.ToEpisodes | factories/data_ingestion_factory.py:91-116 | `to_episodes` returns the specified conversation episodes |
| Factory.Ingestor.Ingest | factories/data_ingestion_factory.py:8-12 | any created ingestor's `to_json` returns what its last `ingest` read |
| Factory.Ingestor.ToEpisodes | factories/data_ingestion_factory.py:13-14 | `to_episodes` dispatches to the episodes of the instance's class |
| Factory.Lookup | factories/data_ingestion_factory.py:28-31 | the class `create` instantiates: the one bound to the asset type, or the unknown-type error when none is |
| Factory.DataFactory.constructor | factories/data_ingestion_factory.py:17-18 | the registry starts empty |
| Factory.DataFactory.Register | factories/data_ingestion_factory.py:20-25 | registering binds the asset type to the class, replacing an earlier binding, and returns the class unchanged |
| Factory.DataFactory.RegisterBuiltins | factories/data_ingestion_factory.py:34-81 | the three decorators bind `contract`, `price` and `conversation` |
| Factory.DataFactory.Create | factories/data_ingestion_factory.py:27-31 | `create` succeeds exactly for a registered type, with a fresh empty instance of the registered class; otherwise it fails with the unknown-type error |
| Factory.RegistrationOverrides | factories/data_ingestion_factory.py:20-31 | after a second registration the later class is created and other types are unaffected |
| GraphService.GraphClient.AddEpisodeBulk | ingest_data.py:85 | one bulk call is appended to the trace; its outcome is the service's verdict |
| GraphService.GraphClient.Sleep | ingest_data.py:86 | one pause is appended to the trace |
| GraphService.GraphClient.Search | ingest_data.py:89 | one search is appended to the trace; the results are the service's answer |
| Chunking.Chunks | ingest_data.py:83-84 | the slices `eps[i:i + size]` for `i` in `range(0, len(eps), size)`, in order |
| Chunking.Submission | ingest_data.py:83-86 | the calls of the chunk loop: per chunk a bulk call, then a pause when it was accepted; the first rejected chunk is the last call and is reported by number |
| Chunking.ChunksFlatten | ingest_data.py:83-84 | the chunks concatenate back to the episode list, in order |
| Chunking.ChunksSizes | ingest_data.py:83-84 | chunks are non-empty and at most the chunk size, all but the last are full, and their number is ceil(n / size) |
| Chunking.ChunksAt | ingest_data.py:83-84 | chunk `k` is the slice starting at `k * size` |
| Chunking.ChunkAt | ingest_data.py:83-84 | the chunk at position `k` is the slice starting after `k` full chunks |
| Chunking.PacedSpec | ingest_data.py:83-86 | without failures, each chunk is one bulk call followed by one pause, and the bulk calls carry the chunks in order |
| Chunking.PacedAt | ingest_data.py:83-86 | chunk `k`'s bulk call is call `2k` and its pause is call `2k + 1` |
| Chunking.SubmissionAccepted | ingest_data.py:83-86 | submission completes exactly when every chunk is accepted, and then makes exactly the paced calls |
| Chunking.SubmissionFailed | ingest_data.py:83-86 | when chunk `k` fails, all earlier chunks were accepted and the trace ends with that bulk call |
| Chunking.NoChunkAfterFailure | ingest_data.py:83-86 | no chunk after the failing one is ever sent |
| Chunking.ChunkedTrace | ingest_data.py:80-86 | a complete run makes ceil(n / size) bulk calls, each followed by a pause; the bulk calls carry the episodes in order, and an empty run makes no call |
| Pipeline.CollectedAppend | ingest_data.py:73-77 | gathered episodes are the concatenation of each source's episodes in source order; the first error stops the run |
| Pipeline.CollectedOne | ingest_data.py:74-77 | one source gives its ingestor's episodes, or the unknown-type error |
| Pipeline.ConfiguredSources | ingest_data.py:67-77 | with the configured sources a run ingests the price file only |
| Pipeline.IngestSource | ingest_data.py:74-77 | one source is created, ingested and converted into exactly its specified episodes, or its error |
| Pipeline.CollectedStep | ingest_data.py:73-77 | one more source extends the gathered episodes, or its error ends the gathering |
| Pipeline.CollectEpisodes | ingest_data.py:73-77 | the create / ingest / extend loop returns the gathered episodes or the first error |
| Pipeline.SubmitChunk | ingest_data.py:84-86 | one turn of the chunk loop sends the slice and pauses only when the service took it, keeping the trace on the submission specification |
| Pipeline.SubmitInChunks | ingest_data.py:83-86 | the chunk loop makes exactly the calls of the submission specification and reports the failing chunk |
| Pipeline.QueryCalls | ingest_data.py:89-110 | the broad search, then the `show customers` search centred on the first result's source node only when the broad search returned results |
| Pipeline.RerankOnlyAfterResults | ingest_data.py:102-110 | the centred search is made exactly when the broad search returned results, centred on the first result's source node |
| Pipeline.QueryFlow | ingest_data.py:89-110 | the search part makes the specified calls and reranks only after a non-empty broad search |
| Pipeline.Run | ingest_data.py:73-110 | a gathering error makes no service call; a rejected chunk ends the run after it; otherwise all chunks are paced and the searches follow |
| Presentation.FactsString | ingest_data.py:30-31 | `'-' + '\n- '.join(facts)`: a dash, then the edge facts joined by a newline and a dash-space |
| Presentation.Facts | ingest_data.py:31 | the fact list has one fact per edge, in order |
| Presentation.FactsStringEmpty | ingest_data.py:30-31 | no edges give the string `-` |
| Presentation.FactsStringLines | ingest_data.py:30-31 | read back line by line, the facts string has one bullet line per edge, in order |
| Presentation.DropEmbedding | ingest_data.py:21 | the edge dictionary without its `fact_embedding` entry |
| Presentation.PrettyData | ingest_data.py:19-27 | one edge is filtered to a dictionary, a list of edges to a list of filtered dictionaries, anything else is passed on unchanged |
| Presentation.DropEmbeddingSpec | ingest_data.py:21 | the filter keeps every key except `fact_embedding` with its value, and removes one entry exactly when the embedding is present |
| Presentation.DropEmbeddingIdempotent | ingest_data.py:21 | filtering twice equals filtering once, and a dictionary without the embedding is unchanged |
| Presentation.PrettyDataElementwise | ingest_data.py:20-27 | a list of edges is filtered edge by edge, and no printed dictionary has the embedding |
| Scenarios.PricesAtOneLocation | factories/data_ingestion_factory.py:64-78 | three prices at `loc1` give three episodes grouped `Price_loc1` at midnight UTC of their dates |
| Scenarios.TwoThreads | factories/data_ingestion_factory.py:91-116 | five messages in two threads give two episodes, with the out-of-order thread sorted and anchored at its latest message |
| Scenarios.FiveEpisodesInPairs | ingest_data.py:83-86 | five episodes in chunks of two make three bulk calls of sizes 2, 2 and 1, each followed by a pause |

## Left out

- File reading and JSON parsing are the `Loader` parameter. A missing file or malformed JSON is not modelled.
- `json.dumps` is not rendered. Episode content is the symbolic `Dumped` / `DumpedList` of the records.
- `datetime.fromisoformat` is not modelled. A reference time is its ISO text, so a malformed date or timestamp is not rejected as it would be with a ValueError.
- `datetime.now` is the constant `Now`, since the clock is outside the model.
- Record values are strings. A non-string `timestamp` (which would fail on `.replace`) and non-string ids are not modelled.
- Python's `range` raises ValueError for step 0. The model instead requires a chunk size of at least 1 and allows any such size, where `main` fixes `CHUNK_SIZE = 1`.
- The pause is a recorded call carrying `DELAY_SECONDS`. No time passes, and asyncio scheduling is not modelled.
- Exceptions from `client.search` are not modelled. A search always answers.
- Printing is not modelled: `print_facts`, the result listings in `main`, and `pprint` formatting. `PrettyData` stops at the value handed to `pprint`.
- The Graphiti and Gemini client construction, environment variables and `load_dotenv` are not modelled.
- The registry is a field of a `DataFactory` object, not a class attribute shared by the process. `create` passes no constructor arguments, as in every call site.
- `BaseDataIngestor` is not modelled as a class of its own, and neither are its `NotImplementedError` methods. Its interface (`ingest`, `to_json`, `to_episodes`) is the `Factory.Ingestor` datatype, which dispatches over the closed set of the three registered classes; that is why `Factory.Ingestor.Ingest` and `Factory.Ingestor.ToEpisodes` cite the base-class methods.
- `data/generate_contract_types.py` and `db_bootstrap.py` are not part of this model.
