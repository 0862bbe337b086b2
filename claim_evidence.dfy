/** The claim-evidence view of an argument graph
    (server/app/whisperx/convert_claim_fact_mapped.py): which facts support
    which claims, a summary of it, and its text rendering. */
module ClaimEvidence {
  import opened Common
  import opened GraphService

  // ---------------------------------------------------------------------
  // The id maps (`node_types`, `node_texts`): the last node with an id wins
  // ---------------------------------------------------------------------

  function NodeTypes(nodes: seq<Node>): map<string, SentenceType>
    decreases |nodes|
  {
    if nodes == [] then map[]
    else NodeTypes(nodes[..|nodes| - 1])[nodes[|nodes| - 1].id := nodes[|nodes| - 1].classification]
  }

  function NodeTexts(nodes: seq<Node>): map<string, string>
    decreases |nodes|
  {
    if nodes == [] then map[]
    else NodeTexts(nodes[..|nodes| - 1])[nodes[|nodes| - 1].id := nodes[|nodes| - 1].text]
  }

  /** `nodes[i]` is the last node with id `id`. */
  predicate LastWithId(nodes: seq<Node>, id: string, i: int)
  {
    0 <= i < |nodes| && nodes[i].id == id && forall j :: i < j < |nodes| ==> nodes[j].id != id
  }

  /** An id is mapped exactly when some node has it, in both maps. */
  lemma {:induction false} NodeMapsDomain(nodes: seq<Node>, id: string)
    ensures id in NodeTypes(nodes) <==> id in NodeTexts(nodes)
    ensures id in NodeTypes(nodes) <==> exists i :: 0 <= i < |nodes| && nodes[i].id == id
    decreases |nodes|
  {
    if nodes != [] {
      var init := nodes[..|nodes| - 1];
      NodeMapsDomain(init, id);
      if exists i :: 0 <= i < |nodes| && nodes[i].id == id {
        var i :| 0 <= i < |nodes| && nodes[i].id == id;
        if i < |nodes| - 1 {
          assert init[i].id == id;
        }
      }
    }
  }

  /** An id some node has has a last such node. */
  lemma {:induction false} LastExists(nodes: seq<Node>, id: string)
    requires exists i :: 0 <= i < |nodes| && nodes[i].id == id
    ensures exists i :: LastWithId(nodes, id, i)
    decreases |nodes|
  {
    var last := |nodes| - 1;
    if nodes[last].id == id {
      assert LastWithId(nodes, id, last);
    } else {
      var init := nodes[..last];
      var k :| 0 <= k < |nodes| && nodes[k].id == id;
      assert init[k].id == id;
      LastExists(init, id);
      var i :| LastWithId(init, id, i);
      assert LastWithId(nodes, id, i);
    }
  }

  /** Both maps send an id to the type and the text of the last node with
      it. */
  lemma {:induction false} NodeMapsLastWins(nodes: seq<Node>, id: string, i: int)
    requires LastWithId(nodes, id, i)
    ensures id in NodeTypes(nodes) && NodeTypes(nodes)[id] == nodes[i].classification
    ensures id in NodeTexts(nodes) && NodeTexts(nodes)[id] == nodes[i].text
    decreases |nodes|
  {
    var last := |nodes| - 1;
    if i < last {
      var init := nodes[..last];
      assert LastWithId(init, id, i);
      NodeMapsLastWins(init, id, i);
    }
  }

  /** `node_types.get(id)`. */
  function TypeOf(types: map<string, SentenceType>, id: string): Option<SentenceType>
  {
    if id in types then Some(types[id]) else None
  }

  /** The ids of the nodes of type `t` (`all_claim_ids` for claims). */
  function IdsOfType(nodes: seq<Node>, t: SentenceType): set<string>
    decreases |nodes|
  {
    if nodes == [] then {}
    else (if nodes[0].classification == t then {nodes[0].id} else {}) + IdsOfType(nodes[1..], t)
  }

  lemma {:induction false} IdsOfTypeMembers(nodes: seq<Node>, t: SentenceType, id: string)
    ensures id in IdsOfType(nodes, t) <==> exists i :: 0 <= i < |nodes| && nodes[i].id == id && nodes[i].classification == t
    decreases |nodes|
  {
    if nodes != [] {
      IdsOfTypeMembers(nodes[1..], t, id);
      if exists i :: 0 <= i < |nodes| && nodes[i].id == id && nodes[i].classification == t {
        var i :| 0 <= i < |nodes| && nodes[i].id == id && nodes[i].classification == t;
        if i > 0 {
          assert nodes[1..][i - 1] == nodes[i];
        }
      }
    }
  }

  /** There are no more ids of a type than nodes of it. */
  lemma {:induction false} IdsOfTypeCard(nodes: seq<Node>, t: SentenceType)
    ensures |IdsOfType(nodes, t)| <= CountType(nodes, t)
    decreases |nodes|
  {
    if nodes != [] {
      IdsOfTypeCard(nodes[1..], t);
    }
  }

  /** An id whose mapped type is `t` belongs to a node of type `t`. */
  lemma TypedIdIsNode(nodes: seq<Node>, id: string, t: SentenceType)
    requires TypeOf(NodeTypes(nodes), id) == Some(t)
    ensures id in IdsOfType(nodes, t)
  {
    NodeMapsDomain(nodes, id);
    LastExists(nodes, id);
    var i :| LastWithId(nodes, id, i);
    NodeMapsLastWins(nodes, id, i);
    IdsOfTypeMembers(nodes, t, id);
  }

  // ---------------------------------------------------------------------
  // convert_to_claim_evidence
  // ---------------------------------------------------------------------

  /** The (claim id, fact id) pair an edge contributes: only "supports" and
      "relates" edges between a FACT and a CLAIM count, in either direction,
      and the claim end is always the key. */
  function Link(types: map<string, SentenceType>, e: Edge): Option<(string, string)>
  {
    if e.relationship == "supports" || e.relationship == "relates" then
      var st, tt := TypeOf(types, e.sourceId), TypeOf(types, e.targetId);
      if st == Some(Fact) && tt == Some(Claim) then Some((e.targetId, e.sourceId))
      else if st == Some(Claim) && tt == Some(Fact) then Some((e.sourceId, e.targetId))
      else None
    else None
  }

  /** The pair's claim end is a known CLAIM id and its fact end a known
      FACT id, and they are the edge's two ends; every such edge counts. */
  lemma LinkRules(types: map<string, SentenceType>, e: Edge)
    ensures Link(types, e).Some? <==>
      (e.relationship == "supports" || e.relationship == "relates")
      && ((TypeOf(types, e.sourceId) == Some(Fact) && TypeOf(types, e.targetId) == Some(Claim))
          || (TypeOf(types, e.sourceId) == Some(Claim) && TypeOf(types, e.targetId) == Some(Fact)))
    ensures Link(types, e).Some? ==>
      var (c, f) := Link(types, e).value;
      TypeOf(types, c) == Some(Claim) && TypeOf(types, f) == Some(Fact)
      && ((c, f) == (e.targetId, e.sourceId) || (c, f) == (e.sourceId, e.targetId))
  {
  }

  /** The claim-evidence mapping: claim id to fact ids, in first-seen key
      order. */
  type Mapping = Assoc<string, seq<string>>

  function AppendFact(fact: string): seq<string> -> seq<string>
  {
    (l: seq<string>) => l + [fact]
  }

  /** `claim_evidence.setdefault(claim, []).append(fact)`. */
  function AddEvidence(m: Mapping, claim: string, fact: string): Mapping
  {
    Upsert(m, claim, AppendFact(fact), [fact])
  }

  /** The mapping after the loop has seen `edges`. */
  function EvidenceMap(types: map<string, SentenceType>, edges: seq<Edge>): Mapping
    decreases |edges|
  {
    if edges == [] then []
    else
      var m := EvidenceMap(types, edges[..|edges| - 1]);
      match Link(types, edges[|edges| - 1])
      case Some((c, f)) => AddEvidence(m, c, f)
      case None => m
  }

  /** The facts linked to `claim`, in edge order. */
  function EvidenceFor(types: map<string, SentenceType>, edges: seq<Edge>, claim: string): seq<string>
    decreases |edges|
  {
    if edges == [] then []
    else
      EvidenceFor(types, edges[..|edges| - 1], claim)
      + match Link(types, edges[|edges| - 1])
        case Some((c, f)) => if c == claim then [f] else []
        case None => []
  }

  /** The number of edges that contribute a pair. */
  function LinkCount(types: map<string, SentenceType>, edges: seq<Edge>): nat
    decreases |edges|
  {
    if edges == [] then 0
    else LinkCount(types, edges[..|edges| - 1]) + (if Link(types, edges[|edges| - 1]).Some? then 1 else 0)
  }

  function SumLengths(m: Mapping): nat
    decreases |m|
  {
    if m == [] then 0 else |m[0].1| + SumLengths(m[1..])
  }

  predicate NonEmptyLists(m: Mapping)
  {
    forall i :: 0 <= i < |m| ==> m[i].1 != []
  }

  /** Every key is a CLAIM id and every listed id a FACT id. */
  predicate WellTyped(types: map<string, SentenceType>, m: Mapping)
  {
    forall i :: 0 <= i < |m| ==>
      TypeOf(types, m[i].0) == Some(Claim) && forall x :: x in m[i].1 ==> TypeOf(types, x) == Some(Fact)
  }

  lemma {:induction false} AddEvidenceSum(m: Mapping, claim: string, fact: string)
    ensures SumLengths(AddEvidence(m, claim, fact)) == SumLengths(m) + 1
    decreases |m|
  {
    if m != [] && m[0].0 != claim {
      AddEvidenceSum(m[1..], claim, fact);
      assert AddEvidence(m, claim, fact)[1..] == AddEvidence(m[1..], claim, fact);
    }
  }

  lemma AddEvidenceGet(m: Mapping, claim: string, fact: string, k: string)
    ensures GetOr(AddEvidence(m, claim, fact), k, []) == GetOr(m, k, []) + (if k == claim then [fact] else [])
  {
    UpsertGet(m, claim, AppendFact(fact), [fact], k, []);
    if claim !in KeysOf(m) {
      GetOrAbsent(m, claim, []);
    }
  }

  lemma {:induction false} AddEvidenceTyped(types: map<string, SentenceType>, m: Mapping, claim: string, fact: string)
    requires WellTyped(types, m)
    requires TypeOf(types, claim) == Some(Claim) && TypeOf(types, fact) == Some(Fact)
    ensures WellTyped(types, AddEvidence(m, claim, fact))
    decreases |m|
  {
    var u := AddEvidence(m, claim, fact);
    if m != [] && m[0].0 != claim {
      AddEvidenceTyped(types, m[1..], claim, fact);
      assert u[1..] == AddEvidence(m[1..], claim, fact);
      forall i | 0 <= i < |u|
        ensures TypeOf(types, u[i].0) == Some(Claim) && forall x :: x in u[i].1 ==> TypeOf(types, x) == Some(Fact)
      {
        if i > 0 {
          assert u[i] == AddEvidence(m[1..], claim, fact)[i - 1];
        }
      }
    } else if m != [] {
      forall i | 0 <= i < |u|
        ensures TypeOf(types, u[i].0) == Some(Claim) && forall x :: x in u[i].1 ==> TypeOf(types, x) == Some(Fact)
      {
        if i == 0 {
          assert u[0].1 == m[0].1 + [fact];
        } else {
          assert u[i] == m[i];
        }
      }
    }
  }

  /** The mapping is exactly the grouping of the contributing edges by
      claim: each claim's list is its facts in edge order, the keys are
      distinct and are exactly the claims with at least one fact (so no
      list is empty), every key is a CLAIM id and every listed id a FACT
      id, and there are as many listed ids as contributing edges. */
  lemma {:induction false} EvidenceMapExact(types: map<string, SentenceType>, edges: seq<Edge>)
    ensures forall k :: GetOr(EvidenceMap(types, edges), k, []) == EvidenceFor(types, edges, k)
    ensures forall k :: k in KeysOf(EvidenceMap(types, edges)) <==> EvidenceFor(types, edges, k) != []
    ensures DistinctKeys(EvidenceMap(types, edges)) && NonEmptyLists(EvidenceMap(types, edges))
    ensures WellTyped(types, EvidenceMap(types, edges))
    ensures SumLengths(EvidenceMap(types, edges)) == LinkCount(types, edges)
    decreases |edges|
  {
    if edges != [] {
      var init := edges[..|edges| - 1];
      var m := EvidenceMap(types, init);
      EvidenceMapExact(types, init);
      match Link(types, edges[|edges| - 1])
      case None =>
      case Some((c, f)) =>
        LinkRules(types, edges[|edges| - 1]);
        forall k
          ensures GetOr(EvidenceMap(types, edges), k, []) == EvidenceFor(types, edges, k)
        {
          AddEvidenceGet(m, c, f, k);
        }
        UpsertKeys(m, c, AppendFact(f), [f]);
        UpsertDistinct(m, c, AppendFact(f), [f]);
        UpsertValues(m, c, AppendFact(f), [f], (l: seq<string>) => l != []);
        AddEvidenceTyped(types, m, c, f);
        AddEvidenceSum(m, c, f);
    }
  }

  /** `convert_to_claim_evidence(graph)`. */
  method ConvertToClaimEvidence(g: Graph) returns (m: Mapping)
    ensures m == EvidenceMap(NodeTypes(g.nodes), g.edges)
  {
    var types := NodeTypes(g.nodes);
    m := [];
    var i := 0;
    while i < |g.edges|
      invariant 0 <= i <= |g.edges|
      invariant m == EvidenceMap(types, g.edges[..i])
    {
      assert g.edges[..i + 1][..i] == g.edges[..i];
      var e := g.edges[i];
      var sourceType, targetType := TypeOf(types, e.sourceId), TypeOf(types, e.targetId);
      if e.relationship == "supports" || e.relationship == "relates" {
        if sourceType == Some(Fact) && targetType == Some(Claim) {
          m := AddEvidence(m, e.targetId, e.sourceId);
        } else if sourceType == Some(Claim) && targetType == Some(Fact) {
          m := AddEvidence(m, e.sourceId, e.targetId);
        }
      }
      i := i + 1;
    }
    assert g.edges[..i] == g.edges;
  }

  // ---------------------------------------------------------------------
  // get_claim_evidence_summary
  // ---------------------------------------------------------------------

  /** The number of keys with a non-empty list (`supported_claims`). */
  function NonEmptyEntries(m: Mapping): nat
    decreases |m|
  {
    if m == [] then 0 else (if m[0].1 != [] then 1 else 0) + NonEmptyEntries(m[1..])
  }

  /** The distinct ids in all the lists. */
  function UsedEvidence(m: Mapping): set<string>
    decreases |m|
  {
    if m == [] then {} else (set x | x in m[0].1) + UsedEvidence(m[1..])
  }

  datatype Summary = Summary(
    totalClaims: nat,
    totalFacts: nat,
    supportedClaims: nat,
    unsupportedClaims: int,
    usedEvidences: nat,
    unusedEvidences: int,
    pairs: nat,
    mapping: Mapping)

  /** `get_claim_evidence_summary(graph)`. */
  method GetClaimEvidenceSummary(g: Graph) returns (s: Summary)
    ensures s.mapping == EvidenceMap(NodeTypes(g.nodes), g.edges)
    ensures s.totalClaims == CountType(g.nodes, Claim) && s.totalFacts == CountType(g.nodes, Fact)
    ensures s.supportedClaims == NonEmptyEntries(s.mapping) && s.unsupportedClaims == s.totalClaims - s.supportedClaims
    ensures s.usedEvidences == |UsedEvidence(s.mapping)| && s.unusedEvidences == s.totalFacts - s.usedEvidences
    ensures s.pairs == SumLengths(s.mapping)
  {
    var m := ConvertToClaimEvidence(g);
    var claims, facts := CountType(g.nodes, Claim), CountType(g.nodes, Fact);
    var supported := NonEmptyEntries(m);
    var used := |UsedEvidence(m)|;
    s := Summary(claims, facts, supported, claims as int - supported, used, facts as int - used, SumLengths(m), m);
  }

  lemma {:induction false} NonEmptyEntriesAll(m: Mapping)
    requires NonEmptyLists(m)
    ensures NonEmptyEntries(m) == |m|
    decreases |m|
  {
    if m != [] {
      NonEmptyEntriesAll(m[1..]);
    }
  }

  lemma {:induction false} DistinctKeysCard(m: Mapping)
    requires DistinctKeys(m)
    ensures |set k | k in KeysOf(m)| == |m|
    decreases |m|
  {
    if m != [] {
      DistinctKeysCard(m[1..]);
      assert KeysOf(m) == [m[0].0] + KeysOf(m[1..]);
      assert m[0].0 !in KeysOf(m[1..]);
      assert (set k | k in KeysOf(m)) == {m[0].0} + (set k | k in KeysOf(m[1..]));
    }
  }

  lemma {:induction false} UsedEvidenceMembers(m: Mapping, x: string)
    ensures x in UsedEvidence(m) <==> exists i :: 0 <= i < |m| && x in m[i].1
    decreases |m|
  {
    if m != [] {
      UsedEvidenceMembers(m[1..], x);
      if exists i :: 0 <= i < |m| && x in m[i].1 {
        var i :| 0 <= i < |m| && x in m[i].1;
        if i > 0 {
          assert m[1..][i - 1] == m[i];
        }
      }
    }
  }

  lemma SubsetCard(a: set<string>, b: set<string>)
    requires a <= b
    ensures |a| <= |b|
  {
    assert b == a + (b - a);
  }

  /** Every key of the mapping is supported, the pairs are the contributing
      edges, and neither "unsupported" nor "unused" can come out negative:
      the keys are distinct CLAIM ids and the used ids are FACT ids. */
  lemma SummaryBounds(nodes: seq<Node>, edges: seq<Edge>)
    ensures var m := EvidenceMap(NodeTypes(nodes), edges);
      NonEmptyEntries(m) == |m| && SumLengths(m) == LinkCount(NodeTypes(nodes), edges)
      && NonEmptyEntries(m) <= CountType(nodes, Claim)
      && |UsedEvidence(m)| <= CountType(nodes, Fact)
  {
    var types := NodeTypes(nodes);
    var m := EvidenceMap(types, edges);
    EvidenceMapExact(types, edges);
    NonEmptyEntriesAll(m);
    DistinctKeysCard(m);
    forall k | k in KeysOf(m)
      ensures k in IdsOfType(nodes, Claim)
    {
      var i :| 0 <= i < |m| && KeysOf(m)[i] == k;
      TypedIdIsNode(nodes, k, Claim);
    }
    SubsetCard((set k | k in KeysOf(m)), IdsOfType(nodes, Claim));
    IdsOfTypeCard(nodes, Claim);
    forall x | x in UsedEvidence(m)
      ensures x in IdsOfType(nodes, Fact)
    {
      UsedEvidenceMembers(m, x);
      var i :| 0 <= i < |m| && x in m[i].1;
      TypedIdIsNode(nodes, x, Fact);
    }
    SubsetCard(UsedEvidence(m), IdsOfType(nodes, Fact));
    IdsOfTypeCard(nodes, Fact);
  }

  // ---------------------------------------------------------------------
  // format_claim_evidence_text
  // ---------------------------------------------------------------------

  const HEADER := "=== CLAIM-EVIDENCE 관계 ===\n"
  const EVIDENCE_HEADING := "  지지 근거:"
  const NO_EVIDENCE := "  지지 근거: 없음"
  const UNSUPPORTED_HEADER := "=== 지지받지 못한 주장들 ==="
  const UNKNOWN := "Unknown"

  /** `node_texts.get(id, "Unknown")`. */
  function TextOf(texts: map<string, string>, id: string): string
  {
    if id in texts then texts[id] else UNKNOWN
  }

  function ClaimLine(texts: map<string, string>, id: string): string
  {
    "주장 (" + id + "): " + TextOf(texts, id)
  }

  function EvidenceLine(texts: map<string, string>, id: string): string
  {
    "    - (" + id + "): " + TextOf(texts, id)
  }

  /** `lines` followed by one evidence line per id. */
  function EvidenceOnto(texts: map<string, string>, lines: seq<string>, ids: seq<string>): seq<string>
    decreases |ids|
  {
    if ids == [] then lines else EvidenceOnto(texts, lines + [EvidenceLine(texts, ids[0])], ids[1..])
  }

  /** `lines` followed by the lines for one claim of the mapping. */
  function BlockOnto(texts: map<string, string>, lines: seq<string>, id: string, ids: seq<string>): seq<string>
  {
    (if ids != [] then EvidenceOnto(texts, lines + [ClaimLine(texts, id), EVIDENCE_HEADING], ids)
     else lines + [ClaimLine(texts, id), NO_EVIDENCE])
    + [""]
  }

  /** `lines` followed by the lines for every claim of the mapping, in key
      order. */
  function BlocksOnto(texts: map<string, string>, lines: seq<string>, m: Mapping): seq<string>
    decreases |m|
  {
    if m == [] then lines else BlocksOnto(texts, BlockOnto(texts, lines, m[0].0, m[0].1), m[1..])
  }

  /** `lines` followed by one claim line per id. */
  function ClaimLinesOnto(texts: map<string, string>, lines: seq<string>, ids: seq<string>): seq<string>
    decreases |ids|
  {
    if ids == [] then lines else ClaimLinesOnto(texts, lines, ids[..|ids| - 1]) + [ClaimLine(texts, ids[|ids| - 1])]
  }

  /** `all_claim_ids - set(claim_evidence.keys())`. */
  function UnsupportedIds(nodes: seq<Node>, m: Mapping): set<string>
  {
    IdsOfType(nodes, Claim) - (set k | k in KeysOf(m))
  }

  /** `order` lists the members of `s`, each once: the order in which the
      set is iterated. */
  ghost predicate Enumerates(order: seq<string>, s: set<string>)
  {
    (forall i, j :: 0 <= i < j < |order| ==> order[i] != order[j])
    && (forall x :: x in order <==> x in s)
  }

  /** `lines` followed by the unsupported section, which is there only when
      some claim is unsupported. */
  function SectionOnto(texts: map<string, string>, lines: seq<string>, order: seq<string>): seq<string>
  {
    if order == [] then lines else ClaimLinesOnto(texts, lines + [UNSUPPORTED_HEADER], order) + [""]
  }

  /** The list `result` that is joined with newlines. */
  function ReportLines(texts: map<string, string>, m: Mapping, order: seq<string>): seq<string>
  {
    SectionOnto(texts, BlocksOnto(texts, [HEADER], m), order)
  }

  /** The body of the loop over `claim_evidence.items()` for one claim. */
  method AppendClaimBlock(texts: map<string, string>, claimId: string, evidenceIds: seq<string>, lines: seq<string>)
    returns (result: seq<string>)
    ensures result == BlockOnto(texts, lines, claimId, evidenceIds)
  {
    if evidenceIds != [] {
      result := lines + [ClaimLine(texts, claimId), EVIDENCE_HEADING];
      ghost var start := result;
      var j := 0;
      while j < |evidenceIds|
        invariant 0 <= j <= |evidenceIds|
        invariant EvidenceOnto(texts, result, evidenceIds[j..]) == EvidenceOnto(texts, start, evidenceIds)
      {
        assert evidenceIds[j..][1..] == evidenceIds[j + 1..];
        result := result + [EvidenceLine(texts, evidenceIds[j])];
        j := j + 1;
      }
      assert evidenceIds[j..] == [];
    } else {
      result := lines + [ClaimLine(texts, claimId), NO_EVIDENCE];
    }
    result := result + [""];
  }

  /** The unsupported section, appended to `lines`, visiting `unsupported`
      in whatever order the set yields its members. */
  method AppendUnsupported(texts: map<string, string>, unsupported: set<string>, lines: seq<string>)
    returns (result: seq<string>, order: seq<string>)
    ensures Enumerates(order, unsupported)
    ensures result == SectionOnto(texts, lines, order)
  {
    order := [];
    if unsupported == {} {
      return lines, order;
    }
    var heading := lines + [UNSUPPORTED_HEADER];
    result := heading;
    var rest := unsupported;
    while rest != {}
      invariant rest <= unsupported
      invariant forall x :: x in order <==> x in unsupported && x !in rest
      invariant forall a, b :: 0 <= a < b < |order| ==> order[a] != order[b]
      invariant result == ClaimLinesOnto(texts, heading, order)
      decreases rest
    {
      var claimId :| claimId in rest;
      assert (order + [claimId])[..|order|] == order;
      result := result + [ClaimLine(texts, claimId)];
      order := order + [claimId];
      rest := rest - {claimId};
    }
    result := result + [""];
    var x :| x in unsupported;
    assert x in order;
  }

  /** The loop over `claim_evidence.items()`, appending to `lines`. */
  method AppendBlocks(texts: map<string, string>, m: Mapping, lines: seq<string>) returns (result: seq<string>)
    ensures result == BlocksOnto(texts, lines, m)
  {
    result := lines;
    var i := 0;
    while i < |m|
      invariant 0 <= i <= |m|
      invariant BlocksOnto(texts, result, m[i..]) == BlocksOnto(texts, lines, m)
    {
      assert m[i..][1..] == m[i + 1..];
      result := AppendClaimBlock(texts, m[i].0, m[i].1, result);
      i := i + 1;
    }
  }

  /** `format_claim_evidence_text(graph)`; `order` is the order in which it
      happened to visit the unsupported claims. */
  method FormatClaimEvidenceText(g: Graph) returns (text: string, order: seq<string>)
    ensures var m := EvidenceMap(NodeTypes(g.nodes), g.edges);
      Enumerates(order, UnsupportedIds(g.nodes, m)) && text == Join(ReportLines(NodeTexts(g.nodes), m, order), "\n")
  {
    var m := ConvertToClaimEvidence(g);
    var texts := NodeTexts(g.nodes);
    var result := AppendBlocks(texts, m, [HEADER]);
    result, order := AppendUnsupported(texts, UnsupportedIds(g.nodes, m), result);
    text := Join(result, "\n");
  }

  /** The unsupported section lists exactly the CLAIM nodes' ids that have
      no key in the mapping, each once, and it is there exactly when there
      is such a claim. */
  lemma UnsupportedSectionExact(nodes: seq<Node>, m: Mapping, order: seq<string>, id: string)
    requires Enumerates(order, UnsupportedIds(nodes, m))
    ensures id in order <==> (exists i :: 0 <= i < |nodes| && nodes[i].id == id && nodes[i].classification == Claim)
                             && id !in KeysOf(m)
    ensures order == [] <==> UnsupportedIds(nodes, m) == {}
  {
    IdsOfTypeMembers(nodes, Claim, id);
    if UnsupportedIds(nodes, m) != {} {
      var x :| x in UnsupportedIds(nodes, m);
      assert x in order;
    }
    if order != [] {
      assert order[0] in UnsupportedIds(nodes, m);
    }
  }

  /** Appending evidence or claim lines adds one line per id and never the
      "no evidence" line. */
  lemma {:induction false} EvidenceOntoShape(texts: map<string, string>, lines: seq<string>, ids: seq<string>)
    ensures |EvidenceOnto(texts, lines, ids)| == |lines| + |ids|
    ensures NO_EVIDENCE !in lines ==> NO_EVIDENCE !in EvidenceOnto(texts, lines, ids)
    decreases |ids|
  {
    if ids != [] {
      assert EvidenceLine(texts, ids[0])[2] == ' ' != NO_EVIDENCE[2];
      EvidenceOntoShape(texts, lines + [EvidenceLine(texts, ids[0])], ids[1..]);
    }
  }

  lemma {:induction false} ClaimLinesOntoShape(texts: map<string, string>, lines: seq<string>, ids: seq<string>)
    ensures |ClaimLinesOnto(texts, lines, ids)| == |lines| + |ids|
    ensures NO_EVIDENCE !in lines ==> NO_EVIDENCE !in ClaimLinesOnto(texts, lines, ids)
    decreases |ids|
  {
    if ids != [] {
      assert ClaimLine(texts, ids[|ids| - 1])[0] == '주' != NO_EVIDENCE[0];
      ClaimLinesOntoShape(texts, lines, ids[..|ids| - 1]);
    }
  }

  lemma BlockOntoShape(texts: map<string, string>, lines: seq<string>, id: string, ids: seq<string>)
    requires ids != []
    ensures |BlockOnto(texts, lines, id, ids)| == |lines| + 3 + |ids|
    ensures NO_EVIDENCE !in lines ==> NO_EVIDENCE !in BlockOnto(texts, lines, id, ids)
  {
    assert ClaimLine(texts, id)[0] == '주' != NO_EVIDENCE[0];
    assert |EVIDENCE_HEADING| != |NO_EVIDENCE|;
    EvidenceOntoShape(texts, lines + [ClaimLine(texts, id), EVIDENCE_HEADING], ids);
  }

  /** With no empty list, the blocks add three lines per claim and one per
      listed fact, and never the "no evidence" line. */
  lemma {:induction false} BlocksOntoShape(texts: map<string, string>, lines: seq<string>, m: Mapping)
    requires NonEmptyLists(m)
    ensures |BlocksOnto(texts, lines, m)| == |lines| + 3 * |m| + SumLengths(m)
    ensures NO_EVIDENCE !in lines ==> NO_EVIDENCE !in BlocksOnto(texts, lines, m)
    decreases |m|
  {
    if m != [] {
      assert m[0].1 != [];
      assert NonEmptyLists(m[1..]) by {
        forall i | 0 <= i < |m[1..]|
          ensures m[1..][i].1 != []
        {
          assert m[1..][i] == m[i + 1];
        }
      }
      BlockOntoShape(texts, lines, m[0].0, m[0].1);
      BlocksOntoShape(texts, BlockOnto(texts, lines, m[0].0, m[0].1), m[1..]);
    }
  }

  /** For a mapping `convert_to_claim_evidence` made, the "no evidence"
      line never appears (every list has an entry), and the report has one
      header line, three lines per claim plus one per pair, and, when some
      claim is unsupported, a section of one line per such claim plus two. */
  lemma ReportShape(nodes: seq<Node>, edges: seq<Edge>, order: seq<string>)
    ensures var m := EvidenceMap(NodeTypes(nodes), edges);
      var lines := ReportLines(NodeTexts(nodes), m, order);
      NO_EVIDENCE !in lines
      && |lines| == 1 + 3 * |m| + LinkCount(NodeTypes(nodes), edges) + (if order == [] then 0 else |order| + 2)
  {
    var texts := NodeTexts(nodes);
    var m := EvidenceMap(NodeTypes(nodes), edges);
    EvidenceMapExact(NodeTypes(nodes), edges);
    assert HEADER[0] == '=' != NO_EVIDENCE[0];
    BlocksOntoShape(texts, [HEADER], m);
    var blocks := BlocksOnto(texts, [HEADER], m);
    if order != [] {
      assert UNSUPPORTED_HEADER[0] == '=' != NO_EVIDENCE[0];
      ClaimLinesOntoShape(texts, blocks + [UNSUPPORTED_HEADER], order);
    }
  }
}
