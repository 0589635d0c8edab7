/** How many relations a chunk yields, and why any is rejected. */
module GraphLaws {
  import opened Graph
  import opened Values

  // ----- The validator -----

  /** A candidate is accepted exactly if it has a chunk, some lexical evidence and an allowed combination
      of types. The two codes for causal markers and temporal anchors never come from here: an earlier
      check always speaks first. */
  lemma ValidateMeans(c: Candidate)
    ensures Validate(c).Accepted? <==> c.chunk != "" && c.evidence != [] && Allowed(c)
    ensures Validate(c) == Refused(MissingProvenance) <==> c.chunk == "" || c.evidence == []
    ensures Validate(c) != Refused(MissingCausalMarker) && Validate(c) != Refused(MissingTemporalAnchor)
  {
  }

  /** What may be related to what, and in which graph. */
  const COMBINATIONS: seq<(GraphType, Relation, Label, Label)> := [
    (EntityGraph, HasContext, Named, Semantic),
    (SemanticGraph, RelatedTo, Named, Named), (SemanticGraph, RelatedTo, Named, Semantic),
    (SemanticGraph, RelatedTo, Semantic, Named), (SemanticGraph, RelatedTo, Semantic, Semantic),
    (TemporalGraph, OccursAt, Named, Temporal), (TemporalGraph, OccursAt, Semantic, Temporal),
    (CausalGraph, Causes, Named, Named), (CausalGraph, Causes, Named, Semantic),
    (CausalGraph, Causes, Semantic, Named), (CausalGraph, Causes, Semantic, Semantic)]

  /** A combination of types is legal if and only if it is one of these eleven. */
  lemma AllowedIff(c: Candidate)
    ensures Allowed(c) <==> (c.graph, c.relation, c.headLabel, c.tailLabel) in COMBINATIONS
  {
    var k := match c.graph
      case EntityGraph => 0
      case SemanticGraph => 1 + (if c.headLabel.Named? then 0 else 2) + (if c.tailLabel.Named? then 0 else 1)
      case TemporalGraph => 5 + (if c.headLabel.Named? then 0 else 1)
      case CausalGraph => 7 + (if c.headLabel.Named? then 0 else 2) + (if c.tailLabel.Named? then 0 else 1);
    if Allowed(c) { assert COMBINATIONS[k] == (c.graph, c.relation, c.headLabel, c.tailLabel); }
  }

  ghost predicate Proposed(c: Candidate, chunk: string) {
    c.chunk == chunk && Allowed(c)
  }

  ghost predicate AllProposed(cs: seq<Candidate>, chunk: string) {
    forall c :: c in cs ==> Proposed(c, chunk)
  }

  lemma {:induction false} PickPicks(entities: seq<Entity>, wanted: Label -> bool)
    ensures forall e :: e in Pick(entities, wanted) ==> wanted(e.kind) && e in entities
  {
    if entities != [] { PickPicks(entities[1..], wanted); }
  }

  lemma {:induction false} LinksAreProposed(graph: GraphType, relation: Relation, head: Entity, tails: seq<Entity>, chunk: string)
    requires forall t :: t in tails ==> Allowed(Link(graph, relation, head, t, chunk))
    ensures AllProposed(LinkEach(graph, relation, head, tails, chunk), chunk)
  {
    hide Allowed;
    if tails != [] {
      assert tails[0] in tails && forall t :: t in tails[1..] ==> t in tails;
      LinksAreProposed(graph, relation, head, tails[1..], chunk);
    }
  }

  lemma {:induction false} EntityPassIsProposed(named: seq<Entity>, semantic: seq<Entity>, chunk: string)
    requires (forall e :: e in named ==> e.kind.Named?) && (forall e :: e in semantic ==> e.kind.Semantic?)
    ensures AllProposed(EntityPass(named, semantic, chunk), chunk)
  {
    if named != [] {
      assert forall t :: t in FirstOf(3, semantic) ==> t in semantic;
      assert named[0].kind.Named?;
      LinksAreProposed(EntityGraph, HasContext, named[0], FirstOf(3, semantic), chunk);
      EntityPassIsProposed(named[1..], semantic, chunk);
    }
  }

  lemma {:induction false} SemanticPassIsProposed(topics: seq<Entity>, chunk: string)
    requires forall e :: e in topics ==> IsTopic(e.kind)
    ensures AllProposed(SemanticPass(topics, chunk), chunk)
  {
    if topics != [] {
      assert forall t :: t in FirstOf(3, topics[1..]) ==> t in topics;
      assert IsTopic(topics[0].kind);
      LinksAreProposed(SemanticGraph, RelatedTo, topics[0], FirstOf(3, topics[1..]), chunk);
      SemanticPassIsProposed(topics[1..], chunk);
    }
  }

  lemma {:induction false} AnchorsAreProposed(temporal: Entity, targets: seq<Entity>, chunk: string)
    requires temporal.kind.Temporal? && forall e :: e in targets ==> IsTopic(e.kind)
    ensures AllProposed(Anchor(temporal, targets, chunk), chunk)
  {
    if targets != [] {
      assert IsTopic(targets[0].kind);
      AnchorsAreProposed(temporal, targets[1..], chunk);
    }
  }

  lemma {:induction false} TemporalPassIsProposed(temporals: seq<Entity>, targets: seq<Entity>, chunk: string)
    requires (forall e :: e in temporals ==> e.kind.Temporal?) && (forall e :: e in targets ==> IsTopic(e.kind))
    ensures AllProposed(TemporalPass(temporals, targets, chunk), chunk)
  {
    if temporals != [] {
      assert temporals[0].kind.Temporal?;
      assert forall t :: t in FirstOf(4, targets) ==> t in targets;
      AnchorsAreProposed(temporals[0], FirstOf(4, targets), chunk);
      TemporalPassIsProposed(temporals[1..], targets, chunk);
    }
  }

  lemma CausalPassIsProposed(entities: seq<Entity>, text: string, chunk: string)
    ensures AllProposed(CausalPass(entities, text, chunk), chunk)
  {
    hide Pick;
    PickPicks(entities, IsTopic);
    var topics := Pick(entities, IsTopic);
    if |topics| >= 2 { assert topics[0] in topics && topics[|topics| - 1] in topics; }
  }

  /** The passes only propose allowed combinations, so lack of evidence is the one ground for rejection. */
  lemma CandidatesAreProposed(entities: seq<Entity>, text: string, chunk: string)
    ensures AllProposed(ChunkCandidates(entities, text, chunk), chunk)
  {
    hide Pick, EntityPass, SemanticPass, TemporalPass, CausalPass, Proposed;
    PickPicks(entities, IsNamed);
    PickPicks(entities, IsSemantic);
    PickPicks(entities, IsTemporal);
    PickPicks(entities, IsTopic);
    EntityPassIsProposed(Pick(entities, IsNamed), Pick(entities, IsSemantic), chunk);
    SemanticPassIsProposed(Pick(entities, IsTopic), chunk);
    TemporalPassIsProposed(Pick(entities, IsTemporal), Pick(entities, IsTopic), chunk);
    CausalPassIsProposed(entities, text, chunk);
  }

  /** The candidates without any evidence. */
  function Bare(cs: seq<Candidate>): nat {
    if cs == [] then 0 else (if cs[0].evidence == [] then 1 else 0) + Bare(cs[1..])
  }

  lemma {:induction false} JudgeAllSplits(g: Compiled, cs: seq<Candidate>, chunk: string)
    requires chunk != "" && AllProposed(cs, chunk)
    ensures |JudgeAll(g, cs).rejected| == |g.rejected| + Bare(cs)
    ensures |JudgeAll(g, cs).accepted| == |g.accepted| + |cs| - Bare(cs)
    decreases |cs|
  {
    hide Allowed;
    if cs != [] {
      assert Proposed(cs[0], chunk);
      ValidateMeans(cs[0]);
      JudgeAllSplits(Judge(g, cs[0]), cs[1..], chunk);
    }
  }

  /** One chunk: what is rejected is what lacks evidence, and the missing causal marker. */
  lemma ChunkIsAccountedFor(g: Compiled, entities: seq<Entity>, text: string, chunk: string)
    requires chunk != ""
    ensures var cs, done := ChunkCandidates(entities, text, chunk), CompileChunk(g, entities, text, chunk);
            && |done.accepted| == |g.accepted| + |cs| - Bare(cs)
            && |done.rejected| == |g.rejected| + Bare(cs) + if LacksMarker(entities, text) then 1 else 0
  {
    hide JudgeAll, ChunkCandidates, LacksMarker;
    CandidatesAreProposed(entities, text, chunk);
    JudgeAllSplits(g, ChunkCandidates(entities, text, chunk), chunk);
  }

  function CandidateCount(chunks: seq<string>, entities: seq<Entity>, texts: map<string, string>): nat {
    if chunks == [] then 0
    else
      |ChunkCandidates(Members(entities, chunks[0]), TextOf(texts, chunks[0]), chunks[0])|
      + CandidateCount(chunks[1..], entities, texts)
  }

  function MarkerlessChunks(chunks: seq<string>, entities: seq<Entity>, texts: map<string, string>): nat {
    if chunks == [] then 0
    else
      (if LacksMarker(Members(entities, chunks[0]), TextOf(texts, chunks[0])) then 1 else 0)
      + MarkerlessChunks(chunks[1..], entities, texts)
  }

  lemma {:induction false} ChunksAreAccountedFor(g: Compiled, chunks: seq<string>, entities: seq<Entity>, texts: map<string, string>)
    requires "" !in chunks
    ensures var done := CompileChunks(g, chunks, entities, texts);
            |done.accepted| + |done.rejected| == |g.accepted| + |g.rejected|
              + CandidateCount(chunks, entities, texts) + MarkerlessChunks(chunks, entities, texts)
    decreases |chunks|
  {
    hide CompileChunk, ChunkCandidates, Members, LacksMarker;
    if chunks != [] {
      var members, text := Members(entities, chunks[0]), TextOf(texts, chunks[0]);
      ChunkIsAccountedFor(g, members, text, chunks[0]);
      ChunksAreAccountedFor(CompileChunk(g, members, text, chunks[0]), chunks[1..], entities, texts);
    }
  }

  /** Accepted and rejected relations are together all candidates, and one more for every chunk that is
      refused for want of a causal marker. */
  lemma NothingIsLost(entities: seq<Entity>, texts: map<string, string>)
    ensures var done, chunks := CompileRelations(entities, texts), Dedup(ChunkIds(entities));
            |done.accepted| + |done.rejected| ==
            CandidateCount(chunks, entities, texts) + MarkerlessChunks(chunks, entities, texts)
  {
    hide CompileChunks, ChunkIds;
    NoBlankChunk(entities);
    DedupOfSum(ChunkIds(entities), "");
    ChunksAreAccountedFor(Compiled([], []), Dedup(ChunkIds(entities)), entities, texts);
  }

  // ----- Exact counts -----

  function Min(a: nat, b: nat): nat {
    if a < b then a else b
  }

  ghost predicate DistinctIds(entities: seq<Entity>) {
    forall i, j :: 0 <= i < j < |entities| ==> entities[i].id != entities[j].id
  }

  lemma {:induction false} LinkCount(graph: GraphType, relation: Relation, head: Entity, tails: seq<Entity>, chunk: string)
    requires forall t :: t in tails ==> t.id != head.id
    ensures |LinkEach(graph, relation, head, tails, chunk)| == |tails|
  {
    hide Link;
    if tails != [] {
      assert tails[0] in tails && forall t :: t in tails[1..] ==> t in tails;
      LinkCount(graph, relation, head, tails[1..], chunk);
    }
  }

  /** The sum of min(3, n - 1 - i) over all positions i of n topics. */
  function SemanticEdges(n: nat): nat {
    if n == 0 then 0 else Min(3, n - 1) + SemanticEdges(n - 1)
  }

  lemma {:induction false} SemanticEdgesClosed(n: nat)
    ensures SemanticEdges(n) == if n >= 3 then 3 * n - 6 else if n == 2 then 1 else 0
  {
    if n > 0 { SemanticEdgesClosed(n - 1); }
  }

  lemma {:induction false} SemanticPassCount(topics: seq<Entity>, chunk: string)
    requires DistinctIds(topics)
    ensures |SemanticPass(topics, chunk)| == SemanticEdges(|topics|)
  {
    hide LinkEach;
    if topics != [] {
      var next := FirstOf(3, topics[1..]);
      forall t | t in next ensures t.id != topics[0].id {
        var i :| 0 <= i < |next| && next[i] == t;
        assert topics[i + 1] == t;
      }
      LinkCount(SemanticGraph, RelatedTo, topics[0], next, chunk);
      SemanticPassCount(topics[1..], chunk);
    }
  }

  lemma {:induction false} EntityPassCount(named: seq<Entity>, semantic: seq<Entity>, chunk: string)
    requires forall a, b :: a in named && b in semantic ==> a.id != b.id
    ensures |EntityPass(named, semantic, chunk)| == |named| * Min(3, |semantic|)
  {
    hide LinkEach;
    if named != [] {
      var tails := FirstOf(3, semantic);
      assert named[0] in named && forall t :: t in tails ==> t in semantic;
      LinkCount(EntityGraph, HasContext, named[0], tails, chunk);
      EntityPassCount(named[1..], semantic, chunk);
    }
  }

  lemma {:induction false} AnchorCount(temporal: Entity, targets: seq<Entity>, chunk: string)
    ensures |Anchor(temporal, targets, chunk)| == |targets|
  {
    hide Link;
    if targets != [] { AnchorCount(temporal, targets[1..], chunk); }
  }

  lemma {:induction false} TemporalPassCount(temporals: seq<Entity>, targets: seq<Entity>, chunk: string)
    ensures |TemporalPass(temporals, targets, chunk)| == |temporals| * Min(4, |targets|)
  {
    hide Anchor;
    if temporals != [] {
      AnchorCount(temporals[0], FirstOf(4, targets), chunk);
      TemporalPassCount(temporals[1..], targets, chunk);
    }
  }

  lemma {:induction false} PickKeepsOrder(entities: seq<Entity>, wanted: Label -> bool)
    requires DistinctIds(entities)
    ensures DistinctIds(Pick(entities, wanted))
  {
    if entities != [] {
      PickKeepsOrder(entities[1..], wanted);
      PickPicks(entities[1..], wanted);
      forall e | e in Pick(entities[1..], wanted) ensures e.id != entities[0].id {
        var i :| 0 <= i < |entities[1..]| && entities[1..][i] == e;
        assert entities[i + 1] == e;
      }
    }
  }

  lemma KindsApart(entities: seq<Entity>)
    requires DistinctIds(entities)
    ensures forall a, b :: a in Pick(entities, IsNamed) && b in Pick(entities, IsSemantic) ==> a.id != b.id
  {
    PickPicks(entities, IsNamed);
    PickPicks(entities, IsSemantic);
    forall a, b | a in Pick(entities, IsNamed) && b in Pick(entities, IsSemantic) ensures a.id != b.id {
      var i, j :| 0 <= i < |entities| && entities[i] == a && 0 <= j < |entities| && entities[j] == b;
      assert i != j;
    }
  }

  /** The exact number of candidates of a chunk whose entities have distinct ids. */
  lemma ExactCandidateCount(entities: seq<Entity>, text: string, chunk: string)
    requires DistinctIds(entities)
    ensures var named, semantic := |Pick(entities, IsNamed)|, |Pick(entities, IsSemantic)|;
            var temporal, topics := |Pick(entities, IsTemporal)|, |Pick(entities, IsTopic)|;
            |ChunkCandidates(entities, text, chunk)| ==
              named * Min(3, semantic) + SemanticEdges(topics) + temporal * Min(4, topics)
              + if CausalApplies(entities, text) && Pick(entities, IsCausal) != [] then 1 else 0
  {
    hide Pick, EntityPass, SemanticPass, TemporalPass, DistinctIds;
    KindsApart(entities);
    PickKeepsOrder(entities, IsTopic);
    EntityPassCount(Pick(entities, IsNamed), Pick(entities, IsSemantic), chunk);
    SemanticPassCount(Pick(entities, IsTopic), chunk);
    TemporalPassCount(Pick(entities, IsTemporal), Pick(entities, IsTopic), chunk);
  }

  lemma {:induction false} SupportedLinks(graph: GraphType, relation: Relation, head: Entity, tails: seq<Entity>, chunk: string)
    requires head.support != ""
    ensures Bare(LinkEach(graph, relation, head, tails, chunk)) == 0
  {
    if tails != [] {
      SupportedLinks(graph, relation, head, tails[1..], chunk);
      assert [] + LinkEach(graph, relation, head, tails[1..], chunk) == LinkEach(graph, relation, head, tails[1..], chunk);
      var link := Link(graph, relation, head, tails[0], chunk);
      assert link.evidence[0] == head.support;
      BareOfSum([link], LinkEach(graph, relation, head, tails[1..], chunk));
      assert [link][1..] == [];
    }
  }

  lemma {:induction false} BareOfSum(a: seq<Candidate>, b: seq<Candidate>)
    ensures Bare(a + b) == Bare(a) + Bare(b)
  {
    if a == [] {
      assert a + b == b;
    } else {
      assert (a + b)[1..] == a[1..] + b;
      BareOfSum(a[1..], b);
    }
  }

  lemma {:induction false} SupportedTopics(topics: seq<Entity>, chunk: string)
    requires forall e :: e in topics ==> e.support != ""
    ensures Bare(SemanticPass(topics, chunk)) == 0
  {
    hide LinkEach;
    if topics != [] {
      assert topics[0] in topics;
      SupportedLinks(SemanticGraph, RelatedTo, topics[0], FirstOf(3, topics[1..]), chunk);
      SupportedTopics(topics[1..], chunk);
      BareOfSum(LinkEach(SemanticGraph, RelatedTo, topics[0], FirstOf(3, topics[1..]), chunk), SemanticPass(topics[1..], chunk));
    }
  }

  /** For n entities with distinct ids, all semantic or named and all with support, the semantic pass
      yields exactly 3n - 6 relations (n >= 3), and all of them are accepted. */
  lemma SemanticPassIsExact(g: Compiled, topics: seq<Entity>, chunk: string)
    requires chunk != "" && DistinctIds(topics)
    requires forall e :: e in topics ==> IsTopic(e.kind) && e.support != ""
    ensures var done, n := JudgeAll(g, SemanticPass(topics, chunk)), |topics|;
            && |done.accepted| == |g.accepted| + (if n >= 3 then 3 * n - 6 else if n == 2 then 1 else 0)
            && |done.rejected| == |g.rejected|
  {
    hide SemanticPass, JudgeAll;
    SemanticPassCount(topics, chunk);
    SemanticEdgesClosed(|topics|);
    SemanticPassIsProposed(topics, chunk);
    SupportedTopics(topics, chunk);
    JudgeAllSplits(g, SemanticPass(topics, chunk), chunk);
  }
}
