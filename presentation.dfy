/** The two pure helpers `ingest_data.py` uses to show search results: the
    bulleted fact list handed to a prompt, and the edge dictionaries with
    their embedding vector removed before pretty-printing. */
module Presentation {
  import opened Text
  import opened GraphService

  const EmbeddingKey := "fact_embedding"

  /** `[edge.fact for edge in entities]` */
  function Facts(edges: seq<EntityEdge>): (r: seq<string>)
    ensures |r| == |edges|
    ensures forall i | 0 <= i < |edges| :: r[i] == edges[i].fact
  {
    seq(|edges|, i requires 0 <= i < |edges| => edges[i].fact)
  }

  /** `edges_to_facts_string`: a dash, then the facts joined by a newline and a dash-space. */
  function FactsString(edges: seq<EntityEdge>): string
  {
    "-" + Join("\n- ", Facts(edges))
  }

  /** With no edges the string is a lone dash. */
  lemma FactsStringEmpty()
    ensures FactsString([]) == "-"
  {
    assert Facts([]) == [];
  }

  /** The lines of a bulleted list whose first line starts with `first`
      and whose later lines start with a dash and a space. */
  function Bullets(first: string, xs: seq<string>): seq<string>
    requires |xs| >= 1
    decreases |xs|
  {
    [first + xs[0]] + if |xs| == 1 then [] else Bullets("- ", xs[1..])
  }

  lemma {:induction false} BulletsAt(first: string, xs: seq<string>)
    requires |xs| >= 1
    ensures |Bullets(first, xs)| == |xs|
    ensures Bullets(first, xs)[0] == first + xs[0]
    ensures forall i | 1 <= i < |xs| :: Bullets(first, xs)[i] == "- " + xs[i]
    decreases |xs|
  {
    if |xs| > 1 {
      BulletsAt("- ", xs[1..]);
    }
  }

  lemma JoinCons(first: string, xs: seq<string>)
    requires |xs| >= 2
    ensures first + Join("\n- ", xs) == (first + xs[0]) + ['\n'] + ("- " + Join("\n- ", xs[1..]))
  {
  }

  lemma {:induction false} SplitJoined(first: string, xs: seq<string>)
    requires |xs| >= 1
    requires '\n' !in first
    requires forall i | 0 <= i < |xs| :: '\n' !in xs[i]
    ensures Split(first + Join("\n- ", xs), '\n') == Bullets(first, xs)
    decreases |xs|
  {
    assert '\n' !in first + xs[0];
    if |xs| == 1 {
      SplitNoSeparator(first + xs[0], '\n');
    } else {
      var rest := xs[1..];
      JoinCons(first, xs);
      SplitAtSeparator(first + xs[0], '\n', "- " + Join("\n- ", rest));
      SplitJoined("- ", rest);
    }
  }

  /** Read back line by line, the facts string has one line per edge: the
      first fact after a bare dash, each later fact after a dash and a space,
      provided no fact contains a newline. */
  lemma FactsStringLines(edges: seq<EntityEdge>)
    requires |edges| >= 1
    requires forall i | 0 <= i < |edges| :: '\n' !in edges[i].fact
    ensures var lines := Split(FactsString(edges), '\n');
      && |lines| == |edges|
      && lines[0] == "-" + edges[0].fact
      && (forall i | 1 <= i < |edges| :: lines[i] == "- " + edges[i].fact)
  {
    SplitJoined("-", Facts(edges));
    BulletsAt("-", Facts(edges));
  }

  /** `{k: v for k, v in d.items() if k != 'fact_embedding'}` */
  function DropEmbedding(d: map<string, Value>): map<string, Value>
  {
    map k | k in d && k != EmbeddingKey :: d[k]
  }

  /** The filter removes the embedding and keeps every other pair as it was. */
  lemma DropEmbeddingSpec(d: map<string, Value>)
    ensures forall k :: k in DropEmbedding(d) <==> k in d && k != EmbeddingKey
    ensures forall k | k in DropEmbedding(d) :: DropEmbedding(d)[k] == d[k]
    ensures |DropEmbedding(d)| == if EmbeddingKey in d then |d| - 1 else |d|
  {
    var r := DropEmbedding(d);
    if EmbeddingKey in d {
      assert d.Keys == r.Keys + {EmbeddingKey};
      assert |d.Keys| == |r.Keys| + 1;
    } else {
      assert d.Keys == r.Keys;
    }
  }

  /** Filtering twice is filtering once; a dictionary without an embedding is left alone. */
  lemma DropEmbeddingIdempotent(d: map<string, Value>)
    ensures DropEmbedding(DropEmbedding(d)) == DropEmbedding(d)
    ensures EmbeddingKey !in d ==> DropEmbedding(d) == d
  {
  }

  /** What `pretty_print` is handed. */
  datatype Printable =
    | EdgeItem(edge: EntityEdge)
    | EdgeList(edges: seq<EntityEdge>)
    | OtherItem(shown: string)

  /** What `pretty_print` hands to `pprint`. */
  datatype Printed =
    | Fields(fields: map<string, Value>)
    | FieldsList(items: seq<map<string, Value>>)
    | AsIs(shown: string)

  function PrettyData(entity: Printable): Printed
  {
    match entity
    case EdgeItem(e) => Fields(DropEmbedding(e.dump))
    case EdgeList(es) => FieldsList(seq(|es|, i requires 0 <= i < |es| => DropEmbedding(es[i].dump)))
    case OtherItem(s) => AsIs(s)
  }

  /** A list is printed element by element as each edge alone would be, and
      no printed dictionary carries the embedding. */
  lemma PrettyDataElementwise(es: seq<EntityEdge>)
    ensures PrettyData(EdgeList(es)).FieldsList?
    ensures |PrettyData(EdgeList(es)).items| == |es|
    ensures forall i | 0 <= i < |es| ::
      PrettyData(EdgeList(es)).items[i] == PrettyData(EdgeItem(es[i])).fields
    ensures forall i | 0 <= i < |es| :: EmbeddingKey !in PrettyData(EdgeList(es)).items[i]
  {
  }
}
