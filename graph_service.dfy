/** The argument-graph service (server/app/whisperx/graph_service.py): each
    transcript segment becomes a node classified CLAIM or FACT, nearby pairs
    of nodes are sent to a language model for their relationship, and the
    meaningful relationships become edges. The model's reply is an input:
    what its two regular-expression searches found, or a failure. */
module GraphService {
  import opened Common

  /** `SentenceType`. The schema module that declares it is not part of
      this model; these are the two values the code uses. */
  datatype SentenceType = Claim | Fact

  /** `parse_classification_result(text)`: CLAIM when the upper-cased text
      mentions CLAIM; FACT when it mentions FACT and, by default, otherwise. */
  function ParseClassification(text: string): (t: SentenceType)
    ensures t == Claim <==> Contains(Upper(text), "CLAIM")
  {
    if Contains(Upper(text), "CLAIM") then Claim
    else if Contains(Upper(text), "FACT") then Fact
    else Fact
  }

  datatype Segment = Segment(start: real, end: real, text: string)

  /** `ClassifiedSegment`. */
  datatype Node = Node(id: string, start: real, end: real, text: string, classification: SentenceType)

  /** `GraphEdge`. */
  datatype Edge = Edge(sourceId: string, targetId: string, relationship: string, confidence: real)

  /** `ArgumentGraph`. */
  datatype Graph = Graph(nodes: seq<Node>, edges: seq<Edge>)

  /** The id of the node made from the `i`-th segment (counting from 0). */
  function SegId(i: nat): (id: string)
    ensures StartsWith(id, "seg_") && id[4..] == NatToString(i + 1)
  {
    "seg_" + NatToString(i + 1)
  }

  /** Different positions get different ids. */
  lemma SegIdInjective(i: nat, j: nat)
    requires SegId(i) == SegId(j)
    ensures i == j
  {
    NatToStringInjective(i + 1, j + 1);
  }

  function Min(a: nat, b: nat): nat
  {
    if a < b then a else b
  }

  /** The node the loop makes from the `i`-th pair of `zip(segments,
      classification_results)`. */
  function NodeAt(segments: seq<Segment>, texts: seq<string>, i: nat): (n: Node)
    requires i < |segments| && i < |texts|
    ensures n.id == SegId(i) && n.classification == ParseClassification(texts[i])
    ensures n.start == segments[i].start && n.end == segments[i].end && n.text == segments[i].text
  {
    Node(SegId(i), segments[i].start, segments[i].end, segments[i].text, ParseClassification(texts[i]))
  }

  /** The node loop of `build_argument_graph`: one node per zipped pair, so
      as many as the shorter list has. */
  method BuildNodes(segments: seq<Segment>, texts: seq<string>) returns (nodes: seq<Node>)
    ensures |nodes| == Min(|segments|, |texts|)
    ensures forall i :: 0 <= i < |nodes| ==> nodes[i] == NodeAt(segments, texts, i)
  {
    nodes := [];
    var i := 0;
    while i < |segments| && i < |texts|
      invariant 0 <= i <= Min(|segments|, |texts|)
      invariant |nodes| == i
      invariant forall k :: 0 <= k < i ==> nodes[k] == NodeAt(segments, texts, k)
    {
      var node := Node(SegId(i), segments[i].start, segments[i].end, segments[i].text, ParseClassification(texts[i]));
      nodes := nodes + [node];
      i := i + 1;
    }
  }

  /** The nodes made from `segments` and `texts` have pairwise distinct
      ids. */
  lemma NodeIdsDistinct(segments: seq<Segment>, texts: seq<string>, nodes: seq<Node>)
    requires |nodes| <= Min(|segments|, |texts|)
    requires forall i :: 0 <= i < |nodes| ==> nodes[i] == NodeAt(segments, texts, i)
    ensures forall i, j :: 0 <= i < j < |nodes| ==> nodes[i].id != nodes[j].id
  {
    forall i, j | 0 <= i < j < |nodes|
      ensures nodes[i].id != nodes[j].id
    {
      if nodes[i].id == nodes[j].id {
        SegIdInjective(i, j);
      }
    }
  }

  // ---------------------------------------------------------------------
  // Relationships
  // ---------------------------------------------------------------------

  /** The alternatives of the relationship pattern. */
  datatype Relation = Supports | Contradicts | Relates | NoRelation

  function RelationName(r: Relation): string
  {
    match r
    case Supports => "supports"
    case Contradicts => "contradicts"
    case Relates => "relates"
    case NoRelation => "none"
  }

  /** What the confidence search found: nothing, a number, or digits and
      dots that `float` rejects. */
  datatype ConfidenceMatch = NoNumber | Number(value: real) | Malformed

  /** What the model's reply to one pair yields under the two searches. */
  datatype RelationReply = RelationReply(relation: Option<Relation>, confidence: ConfidenceMatch)

  /** The model behind the service: `None` when the call raises. */
  type Analyzer = (Node, Node) -> Option<RelationReply>

  /** `self.client`: what the constructor stored. */
  datatype Client = NoClient | ModelClient(analyzer: Analyzer)

  /** `analyze_relationship(n1, n2)`: the relationship defaults to "none"
      and the confidence to 0.5, and any failure gives ("none", 0.0). With
      no client, reading `self.client.models` is such a failure. The
      relationship is kept as a `Relation`: the pattern only ever matches
      one of the four names, and `RelationName` spells it. */
  function AnalyzeRelationship(client: Client, n1: Node, n2: Node): (Relation, real)
  {
    match client
    case NoClient => (NoRelation, 0.0)
    case ModelClient(analyzer) =>
      match analyzer(n1, n2)
      case None => (NoRelation, 0.0)
      case Some(reply) =>
        var rel := match reply.relation case Some(x) => x case None => NoRelation;
        match reply.confidence
        case Malformed => (NoRelation, 0.0)
        case NoNumber => (rel, 0.5)
        case Number(c) => (rel, c)
  }

  /** The names are distinct, so a relationship is "none" only when it is
      `NoRelation`. */
  lemma RelationNameInjective(a: Relation, b: Relation)
    ensures RelationName(a) == RelationName(b) <==> a == b
  {
    if a != b {
      assert RelationName(a)[0] != RelationName(b)[0] || |RelationName(a)| != |RelationName(b)|;
    }
  }

  /** The failures give ("none", 0.0); otherwise the relationship found
      (or "none") is paired with the confidence found, or with 0.5 when
      there is no number. */
  lemma AnalyzeRelationshipOutcomes(client: Client, n1: Node, n2: Node)
    ensures client.NoClient? ==> AnalyzeRelationship(client, n1, n2) == (NoRelation, 0.0)
    ensures client.ModelClient? && client.analyzer(n1, n2).None? ==> AnalyzeRelationship(client, n1, n2) == (NoRelation, 0.0)
    ensures client.ModelClient? && client.analyzer(n1, n2).Some? ==>
      var reply := client.analyzer(n1, n2).value;
      var r := AnalyzeRelationship(client, n1, n2);
      && (reply.confidence.Malformed? ==> r == (NoRelation, 0.0))
      && (reply.confidence.NoNumber? ==> r.1 == 0.5)
      && (reply.confidence.Number? ==> r.1 == reply.confidence.value)
      && (!reply.confidence.Malformed? ==> r.0 == if reply.relation.Some? then reply.relation.value else NoRelation)
  {
  }

  /** `j in range(i + 1, min(i + 3, n))` for `i in range(n)`. */
  predicate Considered(i: int, j: int, n: int)
  {
    0 <= i < j < n && j <= i + 2
  }

  /** `should_analyze`: the types differ, or the nodes are adjacent. */
  predicate ShouldAnalyze(nodes: seq<Node>, i: int, j: int)
    requires 0 <= i < |nodes| && 0 <= j < |nodes|
  {
    nodes[i].classification != nodes[j].classification || j == i + 1
  }

  /** Only a relationship other than "none" with confidence above 0.3 makes
      an edge. */
  predicate Meaningful(r: (Relation, real))
  {
    r.0 != NoRelation && r.1 > 0.3
  }

  /** The edges pair `(i, j)` contributes: none, or the one edge from node
      `i` to node `j`. */
  function PairEdges(nodes: seq<Node>, client: Client, i: nat, j: nat): seq<Edge>
    requires i < |nodes| && j < |nodes|
  {
    if ShouldAnalyze(nodes, i, j) then
      var r := AnalyzeRelationship(client, nodes[i], nodes[j]);
      if Meaningful(r) then [Edge(nodes[i].id, nodes[j].id, RelationName(r.0), r.1)] else []
    else []
  }

  /** Where row `i` ends. */
  function RowEnd(i: nat, n: nat): nat
  {
    Min(i + 3, n)
  }

  /** `edges` followed by the edges of the pairs `(i, j)` .. `(i, RowEnd - 1)`. */
  function RowOnto(nodes: seq<Node>, client: Client, edges: seq<Edge>, i: nat, j: nat): seq<Edge>
    requires i < |nodes| && i + 1 <= j <= RowEnd(i, |nodes|)
    decreases RowEnd(i, |nodes|) - j
  {
    if j == RowEnd(i, |nodes|) then edges
    else RowOnto(nodes, client, edges + PairEdges(nodes, client, i, j), i, j + 1)
  }

  /** `edges` followed by the edges of rows `i` .. `|nodes| - 1`, in loop
      order. */
  function RowsOnto(nodes: seq<Node>, client: Client, edges: seq<Edge>, i: nat): seq<Edge>
    requires i <= |nodes|
    decreases |nodes| - i
  {
    if i == |nodes| then edges
    else RowsOnto(nodes, client, RowOnto(nodes, client, edges, i, i + 1), i + 1)
  }

  /** All the edges `build_argument_graph` adds for `nodes`. */
  function AllEdges(nodes: seq<Node>, client: Client): seq<Edge>
  {
    RowsOnto(nodes, client, [], 0)
  }

  /** `e` is the edge that the considered, analysed pair `(i, j)` yields. */
  predicate EdgeOfPair(nodes: seq<Node>, client: Client, e: Edge, i: int, j: int)
  {
    Considered(i, j, |nodes|) && ShouldAnalyze(nodes, i, j)
    && Meaningful(AnalyzeRelationship(client, nodes[i], nodes[j]))
    && e == Edge(nodes[i].id, nodes[j].id, RelationName(AnalyzeRelationship(client, nodes[i], nodes[j]).0),
                 AnalyzeRelationship(client, nodes[i], nodes[j]).1)
  }

  /** `e` is an edge the considered pair `(i, j)` contributes. */
  predicate FromPair(nodes: seq<Node>, client: Client, e: Edge, i: int, j: int)
  {
    Considered(i, j, |nodes|) && e in PairEdges(nodes, client, i, j)
  }

  lemma PairEdgesExact(nodes: seq<Node>, client: Client, e: Edge, i: int, j: int)
    ensures FromPair(nodes, client, e, i, j) <==> EdgeOfPair(nodes, client, e, i, j)
  {
  }

  /** An edge added to row `i` from column `j` on comes from one of its
      pairs... */
  lemma {:induction false} RowEdgeSource(nodes: seq<Node>, client: Client, edges: seq<Edge>, i: nat, j: nat, e: Edge)
    returns (m: nat)
    requires i < |nodes| && i + 1 <= j <= RowEnd(i, |nodes|)
    requires e in RowOnto(nodes, client, edges, i, j) && e !in edges
    ensures j <= m < RowEnd(i, |nodes|) && FromPair(nodes, client, e, i, m)
    decreases RowEnd(i, |nodes|) - j
  {
    if e in PairEdges(nodes, client, i, j) {
      m := j;
    } else {
      m := RowEdgeSource(nodes, client, edges + PairEdges(nodes, client, i, j), i, j + 1, e);
    }
  }

  /** ... the row keeps what came before it... */
  lemma {:induction false} RowKeeps(nodes: seq<Node>, client: Client, edges: seq<Edge>, i: nat, j: nat, e: Edge)
    requires i < |nodes| && i + 1 <= j <= RowEnd(i, |nodes|)
    requires e in edges
    ensures e in RowOnto(nodes, client, edges, i, j)
    decreases RowEnd(i, |nodes|) - j
  {
    if j < RowEnd(i, |nodes|) {
      RowKeeps(nodes, client, edges + PairEdges(nodes, client, i, j), i, j + 1, e);
    }
  }

  /** ... and adds every edge of its pairs. */
  lemma {:induction false} RowEdgeFromPair(nodes: seq<Node>, client: Client, edges: seq<Edge>, i: nat, j: nat, m: nat, e: Edge)
    requires i < |nodes| && i + 1 <= j <= m < RowEnd(i, |nodes|)
    requires FromPair(nodes, client, e, i, m)
    ensures e in RowOnto(nodes, client, edges, i, j)
    decreases RowEnd(i, |nodes|) - j
  {
    var next := edges + PairEdges(nodes, client, i, j);
    if m == j {
      RowKeeps(nodes, client, next, i, j + 1, e);
    } else {
      RowEdgeFromPair(nodes, client, next, i, j + 1, m, e);
    }
  }

  /** An edge added by rows `i` on comes from one of them... */
  lemma {:induction false} EdgeRow(nodes: seq<Node>, client: Client, edges: seq<Edge>, i: nat, e: Edge)
    returns (k: nat, m: nat)
    requires i <= |nodes|
    requires e in RowsOnto(nodes, client, edges, i) && e !in edges
    ensures i <= k && FromPair(nodes, client, e, k, m)
    decreases |nodes| - i
  {
    var next := RowOnto(nodes, client, edges, i, i + 1);
    if e in next {
      k := i;
      m := RowEdgeSource(nodes, client, edges, i, i + 1, e);
    } else {
      k, m := EdgeRow(nodes, client, next, i + 1, e);
    }
  }

  /** ... the rows keep what came before them... */
  lemma {:induction false} RowsKeep(nodes: seq<Node>, client: Client, edges: seq<Edge>, i: nat, e: Edge)
    requires i <= |nodes| && e in edges
    ensures e in RowsOnto(nodes, client, edges, i)
    decreases |nodes| - i
  {
    if i < |nodes| {
      RowKeeps(nodes, client, edges, i, i + 1, e);
      RowsKeep(nodes, client, RowOnto(nodes, client, edges, i, i + 1), i + 1, e);
    }
  }

  /** ... and add every edge of their pairs. */
  lemma {:induction false} RowEdgeIncluded(nodes: seq<Node>, client: Client, edges: seq<Edge>, i: nat, k: nat, m: nat, e: Edge)
    requires i <= k && FromPair(nodes, client, e, k, m)
    ensures e in RowsOnto(nodes, client, edges, i)
    decreases |nodes| - i
  {
    var next := RowOnto(nodes, client, edges, i, i + 1);
    if k == i {
      RowEdgeFromPair(nodes, client, edges, i, i + 1, m, e);
      RowsKeep(nodes, client, next, i + 1, e);
    } else {
      RowEdgeIncluded(nodes, client, next, i + 1, k, m, e);
    }
  }

  /** An edge is in the graph exactly when it comes from a pair at most two
      apart that is adjacent or mixes the two types, and whose relationship
      is meaningful. */
  lemma EdgesExactly(nodes: seq<Node>, client: Client, e: Edge)
    ensures e in AllEdges(nodes, client) <==> exists i, j :: EdgeOfPair(nodes, client, e, i, j)
  {
    if e in AllEdges(nodes, client) {
      var i, j := EdgeRow(nodes, client, [], 0, e);
      PairEdgesExact(nodes, client, e, i, j);
    }
    if exists i, j :: EdgeOfPair(nodes, client, e, i, j) {
      var i, j :| EdgeOfPair(nodes, client, e, i, j);
      PairEdgesExact(nodes, client, e, i, j);
      RowEdgeIncluded(nodes, client, [], 0, i, j, e);
    }
  }

  /** So every edge runs forward, from a node to one of the next two, with
      a meaningful relationship; and both ends are node ids. */
  lemma EdgeShape(nodes: seq<Node>, client: Client, e: Edge)
    requires e in AllEdges(nodes, client)
    ensures exists i, j :: 0 <= i < j < |nodes| && j <= i + 2 && e.sourceId == nodes[i].id && e.targetId == nodes[j].id
    ensures e.relationship != "none" && e.confidence > 0.3
  {
    EdgesExactly(nodes, client, e);
    var i, j :| EdgeOfPair(nodes, client, e, i, j);
    RelationNameInjective(AnalyzeRelationship(client, nodes[i], nodes[j]).0, NoRelation);
  }

  /** The constructor stores the result of `genai.configure(api_key=...)`,
      which is `None`: the service as written has no client. */
  const CLIENT_AS_WRITTEN := NoClient

  /** Without a client every analysis fails, so the graph has no edges at
      all, however many segments there are. */
  lemma {:induction false} NoClientRowAddsNothing(nodes: seq<Node>, edges: seq<Edge>, i: nat, j: nat)
    requires i < |nodes| && i + 1 <= j <= RowEnd(i, |nodes|)
    ensures RowOnto(nodes, CLIENT_AS_WRITTEN, edges, i, j) == edges
    decreases RowEnd(i, |nodes|) - j
  {
    if j < RowEnd(i, |nodes|) {
      assert edges + PairEdges(nodes, CLIENT_AS_WRITTEN, i, j) == edges;
      NoClientRowAddsNothing(nodes, edges, i, j + 1);
    }
  }

  lemma {:induction false} NoClientRowsAddNothing(nodes: seq<Node>, edges: seq<Edge>, i: nat)
    requires i <= |nodes|
    ensures RowsOnto(nodes, CLIENT_AS_WRITTEN, edges, i) == edges
    decreases |nodes| - i
  {
    if i < |nodes| {
      NoClientRowAddsNothing(nodes, edges, i, i + 1);
      NoClientRowsAddNothing(nodes, edges, i + 1);
    }
  }

  lemma NoClientNoEdges(nodes: seq<Node>)
    ensures AllEdges(nodes, CLIENT_AS_WRITTEN) == []
  {
    NoClientRowsAddNothing(nodes, [], 0);
  }

  /** With a client, two adjacent nodes the model relates with confidence
      above 0.3 are joined by an edge. */
  lemma AdjacentPairRelated(nodes: seq<Node>, analyzer: Analyzer, i: nat, rel: Relation, c: real)
    requires i + 1 < |nodes| && rel != NoRelation && c > 0.3
    requires analyzer(nodes[i], nodes[i + 1]) == Some(RelationReply(Some(rel), Number(c)))
    ensures Edge(nodes[i].id, nodes[i + 1].id, RelationName(rel), c) in AllEdges(nodes, ModelClient(analyzer))
  {
    var e := Edge(nodes[i].id, nodes[i + 1].id, RelationName(rel), c);
    assert EdgeOfPair(nodes, ModelClient(analyzer), e, i, i + 1);
    EdgesExactly(nodes, ModelClient(analyzer), e);
  }

  /** One pass of the inner loop of `build_argument_graph`: the pairs of
      row `i`, appended to `edges`. */
  method AddRowEdges(nodes: seq<Node>, client: Client, i: nat, edges: seq<Edge>) returns (result: seq<Edge>)
    requires i < |nodes|
    ensures result == RowOnto(nodes, client, edges, i, i + 1)
  {
    result := edges;
    var j := i + 1;
    while j < Min(i + 3, |nodes|)
      invariant i + 1 <= j <= RowEnd(i, |nodes|)
      invariant RowOnto(nodes, client, result, i, j) == RowOnto(nodes, client, edges, i, i + 1)
      decreases RowEnd(i, |nodes|) - j
    {
      var node1, node2 := nodes[i], nodes[j];
      var shouldAnalyze := node1.classification != node2.classification || j == i + 1;
      ghost var before := result;
      if shouldAnalyze {
        var r := AnalyzeRelationship(client, node1, node2);
        if r.0 != NoRelation && r.1 > 0.3 {
          result := result + [Edge(node1.id, node2.id, RelationName(r.0), r.1)];
        }
      }
      assert result == before + PairEdges(nodes, client, i, j);
      j := j + 1;
    }
  }

  /** `build_argument_graph(segments, classification_results)` with the
      service's client. */
  method BuildArgumentGraph(segments: seq<Segment>, texts: seq<string>, client: Client) returns (g: Graph)
    ensures |g.nodes| == Min(|segments|, |texts|)
    ensures forall i :: 0 <= i < |g.nodes| ==> g.nodes[i] == NodeAt(segments, texts, i)
    ensures g.edges == AllEdges(g.nodes, client)
  {
    var nodes := BuildNodes(segments, texts);
    var edges: seq<Edge> := [];
    var i := 0;
    while i < |nodes|
      invariant 0 <= i <= |nodes|
      invariant RowsOnto(nodes, client, edges, i) == AllEdges(nodes, client)
    {
      edges := AddRowEdges(nodes, client, i, edges);
      i := i + 1;
    }
    g := Graph(nodes, edges);
  }

  // ---------------------------------------------------------------------
  // generate_graph_summary
  // ---------------------------------------------------------------------

  /** The number of nodes of type `t` (the two list comprehensions). */
  function CountType(nodes: seq<Node>, t: SentenceType): nat
    decreases |nodes|
  {
    if nodes == [] then 0 else (if nodes[0].classification == t then 1 else 0) + CountType(nodes[1..], t)
  }

  /** Every node is a claim or a fact. */
  lemma {:induction false} ClaimsAndFacts(nodes: seq<Node>)
    ensures CountType(nodes, Claim) + CountType(nodes, Fact) == |nodes|
    decreases |nodes|
  {
    if nodes != [] {
      ClaimsAndFacts(nodes[1..]);
    }
  }

  function Increment(n: nat): nat
  {
    n + 1
  }

  /** `relationship_counts[rel] = relationship_counts.get(rel, 0) + 1`. */
  function Bump(c: Assoc<string, nat>, rel: string): Assoc<string, nat>
  {
    Upsert(c, rel, Increment, 1)
  }

  /** `relationship_counts` after the loop has seen `edges`. */
  function RelationshipCounts(edges: seq<Edge>): Assoc<string, nat>
    decreases |edges|
  {
    if edges == [] then [] else Bump(RelationshipCounts(edges[..|edges| - 1]), edges[|edges| - 1].relationship)
  }

  /** The number of edges labelled `rel`. */
  function EdgesLabelled(edges: seq<Edge>, rel: string): nat
    decreases |edges|
  {
    if edges == [] then 0
    else EdgesLabelled(edges[..|edges| - 1], rel) + (if edges[|edges| - 1].relationship == rel then 1 else 0)
  }

  /** Every key of the dict has a positive count. */
  predicate PositiveCounts(c: Assoc<string, nat>)
  {
    forall i :: 0 <= i < |c| ==> c[i].1 > 0
  }

  function SumCounts(a: Assoc<string, nat>): nat
    decreases |a|
  {
    if a == [] then 0 else a[0].1 + SumCounts(a[1..])
  }

  lemma {:induction false} BumpSum(c: Assoc<string, nat>, rel: string)
    ensures SumCounts(Bump(c, rel)) == SumCounts(c) + 1
    decreases |c|
  {
    if c != [] && c[0].0 != rel {
      BumpSum(c[1..], rel);
      assert Bump(c, rel)[1..] == Bump(c[1..], rel);
    }
  }

  /** One more edge labelled `last` adds one to its count and to nothing
      else. */
  lemma BumpSeen(c: Assoc<string, nat>, last: string, rel: string)
    ensures GetOr(Bump(c, last), rel, 0) == GetOr(c, rel, 0) + (if rel == last then 1 else 0)
  {
    UpsertGet(c, last, Increment, 1, rel, 0);
    if last !in KeysOf(c) {
      GetOrAbsent(c, last, 0);
    }
  }

  /** The count of a label is the number of edges with it. */
  lemma {:induction false} RelationshipCountsGet(edges: seq<Edge>, rel: string)
    ensures GetOr(RelationshipCounts(edges), rel, 0) == EdgesLabelled(edges, rel)
    decreases |edges|
  {
    if edges != [] {
      var init := edges[..|edges| - 1];
      RelationshipCountsGet(init, rel);
      BumpSeen(RelationshipCounts(init), edges[|edges| - 1].relationship, rel);
    }
  }

  /** The keys are distinct, each counted at least once, and the counts add
      up to the number of edges. */
  lemma {:induction false} RelationshipCountsShape(edges: seq<Edge>)
    ensures DistinctKeys(RelationshipCounts(edges)) && PositiveCounts(RelationshipCounts(edges))
    ensures SumCounts(RelationshipCounts(edges)) == |edges|
    decreases |edges|
  {
    if edges != [] {
      var init := edges[..|edges| - 1];
      var rel := edges[|edges| - 1].relationship;
      var c := RelationshipCounts(init);
      RelationshipCountsShape(init);
      BumpSum(c, rel);
      UpsertDistinct(c, rel, Increment, 1);
      UpsertValues(c, rel, Increment, 1, (n: nat) => n > 0);
    }
  }

  /** With positive counts, a label is a key exactly when its count is
      positive. */
  lemma {:induction false} CountedKeys(c: Assoc<string, nat>, rel: string)
    requires PositiveCounts(c)
    ensures rel in KeysOf(c) <==> GetOr(c, rel, 0) > 0
    decreases |c|
  {
    if c != [] {
      assert KeysOf(c) == [c[0].0] + KeysOf(c[1..]);
      assert c[0].1 > 0;
      assert PositiveCounts(c[1..]) by {
        forall i | 0 <= i < |c[1..]|
          ensures c[1..][i].1 > 0
        {
          assert c[1..][i] == c[i + 1];
        }
      }
      CountedKeys(c[1..], rel);
    }
  }

  /** Some edge carries a label exactly when the label is counted. */
  lemma {:induction false} LabelOccurs(edges: seq<Edge>, rel: string)
    ensures EdgesLabelled(edges, rel) > 0 <==> exists i :: 0 <= i < |edges| && edges[i].relationship == rel
    decreases |edges|
  {
    if edges != [] {
      var n := |edges| - 1;
      var init := edges[..n];
      LabelOccurs(init, rel);
      if exists i :: 0 <= i < |edges| && edges[i].relationship == rel {
        var i :| 0 <= i < |edges| && edges[i].relationship == rel;
        if i < n {
          assert init[i].relationship == rel;
        }
      }
      if EdgesLabelled(init, rel) > 0 {
        var i :| 0 <= i < n && init[i].relationship == rel;
        assert edges[i].relationship == rel;
      }
    }
  }

  /** The keys are exactly the labels that occur. */
  lemma RelationshipCountsKeys(edges: seq<Edge>, rel: string)
    ensures rel in KeysOf(RelationshipCounts(edges)) <==> exists i :: 0 <= i < |edges| && edges[i].relationship == rel
  {
    RelationshipCountsShape(edges);
    RelationshipCountsGet(edges, rel);
    CountedKeys(RelationshipCounts(edges), rel);
    LabelOccurs(edges, rel);
  }

  /** The dict holds, for every label, the number of edges with it; its
      keys are distinct, each counted at least once, and they are exactly
      the labels that occur. */
  lemma RelationshipCountsExact(edges: seq<Edge>)
    ensures forall rel :: GetOr(RelationshipCounts(edges), rel, 0) == EdgesLabelled(edges, rel)
    ensures DistinctKeys(RelationshipCounts(edges)) && PositiveCounts(RelationshipCounts(edges))
    ensures forall rel :: rel in KeysOf(RelationshipCounts(edges)) <==> exists i :: 0 <= i < |edges| && edges[i].relationship == rel
    ensures SumCounts(RelationshipCounts(edges)) == |edges|
  {
    forall rel
      ensures GetOr(RelationshipCounts(edges), rel, 0) == EdgesLabelled(edges, rel)
    {
      RelationshipCountsGet(edges, rel);
    }
    forall rel
      ensures rel in KeysOf(RelationshipCounts(edges)) <==> exists i :: 0 <= i < |edges| && edges[i].relationship == rel
    {
      RelationshipCountsKeys(edges, rel);
    }
    RelationshipCountsShape(edges);
  }

  function SumConfidence(edges: seq<Edge>): real
    decreases |edges|
  {
    if edges == [] then 0.0 else SumConfidence(edges[..|edges| - 1]) + edges[|edges| - 1].confidence
  }

  /** The summary dict. */
  datatype GraphSummary = GraphSummary(
    totalSegments: nat,
    claims: nat,
    facts: nat,
    relationships: nat,
    relationshipTypes: Assoc<string, nat>,
    avgConfidence: real)

  /** The `relationship_counts` loop of `generate_graph_summary`. */
  method CountRelationships(edges: seq<Edge>) returns (counts: Assoc<string, nat>)
    ensures counts == RelationshipCounts(edges)
  {
    counts := [];
    var i := 0;
    while i < |edges|
      invariant 0 <= i <= |edges|
      invariant counts == RelationshipCounts(edges[..i])
    {
      assert edges[..i + 1][..i] == edges[..i];
      var rel := edges[i].relationship;
      counts := Bump(counts, rel);
      i := i + 1;
    }
    assert edges[..i] == edges;
  }

  /** `generate_graph_summary(graph)`. */
  method GenerateGraphSummary(g: Graph) returns (s: GraphSummary)
    ensures s.totalSegments == |g.nodes| && s.relationships == |g.edges|
    ensures s.claims == CountType(g.nodes, Claim) && s.facts == CountType(g.nodes, Fact)
    ensures s.relationshipTypes == RelationshipCounts(g.edges)
    ensures s.avgConfidence == (if g.edges == [] then 0.0 else SumConfidence(g.edges) / |g.edges| as real)
  {
    var counts := CountRelationships(g.edges);
    var avg := if g.edges == [] then 0.0 else SumConfidence(g.edges) / |g.edges| as real;
    s := GraphSummary(|g.nodes|, CountType(g.nodes, Claim), CountType(g.nodes, Fact), |g.edges|, counts, avg);
  }

  /** Claims and facts add up to the segment count, the label counts add up
      to the edge count, and a graph without edges averages 0.0. */
  lemma SummaryConsistent(g: Graph, s: GraphSummary)
    requires s.totalSegments == |g.nodes| && s.relationships == |g.edges|
    requires s.claims == CountType(g.nodes, Claim) && s.facts == CountType(g.nodes, Fact)
    requires s.relationshipTypes == RelationshipCounts(g.edges)
    requires s.avgConfidence == (if g.edges == [] then 0.0 else SumConfidence(g.edges) / |g.edges| as real)
    ensures s.claims + s.facts == s.totalSegments
    ensures SumCounts(s.relationshipTypes) == s.relationships
    ensures s.relationships == 0 ==> s.avgConfidence == 0.0 && s.relationshipTypes == []
  {
    ClaimsAndFacts(g.nodes);
    RelationshipCountsExact(g.edges);
  }
}
