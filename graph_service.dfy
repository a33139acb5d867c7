/** The Graphiti client as seen from `ingest_data.py`: every call the script
    makes is appended to a trace, and the service's replies are fixed
    functions of the trace up to and including the call. */
module GraphService {
  import opened Records

  /** A field value in an edge's `model_dump()`. */
  datatype Value = Str(s: string) | Floats(xs: seq<real>) | Null

  /** An EntityEdge search result: the attributes the script reads, and the
      dictionary `model_dump()` returns. */
  datatype EntityEdge = EntityEdge(
    uuid: string,
    fact: string,
    sourceNodeUuid: string,
    dump: map<string, Value>)

  /** One external effect of the script. */
  datatype Call =
    | Bulk(chunk: seq<Episode>)                    // client.add_episode_bulk(chunk)
    | Sleep(seconds: nat)                          // asyncio.sleep(seconds)
    | Search(query: string, center: Option<string>) // client.search(query, center_node_uuid=...)

  class GraphClient {
    /** Every call made so far, oldest first. */
    var trace: seq<Call>
    /** Whether the service accepts the bulk call that ends the given trace. */
    const accepts: seq<Call> -> bool
    /** The results of the search call that ends the given trace. */
    const answers: seq<Call> -> seq<EntityEdge>

    constructor (accepts: seq<Call> -> bool, answers: seq<Call> -> seq<EntityEdge>)
      ensures trace == [] && this.accepts == accepts && this.answers == answers
    {
      trace := [];
      this.accepts := accepts;
      this.answers := answers;
    }

    /** `add_episode_bulk(chunk)`; `ok` is false when the call raises. */
    method AddEpisodeBulk(chunk: seq<Episode>) returns (ok: bool)
      modifies this
      ensures trace == old(trace) + [Bulk(chunk)]
      ensures ok == accepts(trace)
    {
      trace := trace + [Bulk(chunk)];
      ok := accepts(trace);
    }

    /** `asyncio.sleep(seconds)`, recorded in the same trace. */
    method Sleep(seconds: nat)
      modifies this
      ensures trace == old(trace) + [Call.Sleep(seconds)]
    {
      trace := trace + [Call.Sleep(seconds)];
    }

    /** `search(query)` or `search(query, center_node_uuid=center)`. */
    method Search(query: string, center: Option<string>) returns (results: seq<EntityEdge>)
      modifies this
      ensures trace == old(trace) + [Call.Search(query, center)]
      ensures results == answers(trace)
    {
      trace := trace + [Call.Search(query, center)];
      results := answers(trace);
    }
  }
}
