/** Compiling a knowledge graph: four passes propose candidate relations between the entities of a
    chunk, and a validator accepts or rejects each. */
module Graph {
  import opened ListLaws
  import opened Values

  datatype Label = Named | Semantic | Temporal | Causal | OtherLabel(text: string)

  datatype GraphType = EntityGraph | SemanticGraph | TemporalGraph | CausalGraph

  datatype Relation = HasContext | RelatedTo | OccursAt | Causes

  datatype Entity = Entity(id: string, kind: Label, support: string, chunk: string)

  /** `evidence` are the lexical match ids, and the graph type also names the template. */
  datatype Candidate = Candidate(
    head: string, headLabel: Label, relation: Relation, tail: string, tailLabel: Label,
    graph: GraphType, evidence: seq<string>, chunk: string)

  datatype Code = MissingProvenance | IllegalTypeCombo | MissingCausalMarker | MissingTemporalAnchor

  datatype Rejection = Rejection(code: Code, graph: GraphType)

  datatype Verdict = Accepted | Refused(code: Code)

  // ----- The validator -----

  predicate Allowed(c: Candidate) {
    var entities := (c.headLabel.Named? || c.headLabel.Semantic?) && (c.tailLabel.Named? || c.tailLabel.Semantic?);
    match c.graph
    case EntityGraph => c.relation.HasContext? && c.headLabel.Named? && c.tailLabel.Semantic?
    case SemanticGraph => c.relation.RelatedTo? && entities
    case TemporalGraph => c.relation.OccursAt? && (c.headLabel.Named? || c.headLabel.Semantic?) && c.tailLabel.Temporal?
    case CausalGraph => c.relation.Causes? && entities
  }

  function Validate(c: Candidate): Verdict {
    if c.chunk == "" || c.evidence == [] then Refused(MissingProvenance)
    else if !Allowed(c) then Refused(IllegalTypeCombo)
    else if c.graph.CausalGraph? && c.evidence == [] then Refused(MissingCausalMarker)
    else if c.graph.TemporalGraph? && !c.tailLabel.Temporal? then Refused(MissingTemporalAnchor)
    else Accepted
  }

  datatype Compiled = Compiled(accepted: seq<Candidate>, rejected: seq<Rejection>)

  function Judge(g: Compiled, c: Candidate): Compiled {
    match Validate(c)
    case Accepted => g.(accepted := g.accepted + [c])
    case Refused(code) => g.(rejected := g.rejected + [Rejection(code, c.graph)])
  }

  function JudgeAll(g: Compiled, candidates: seq<Candidate>): Compiled
    decreases |candidates|
  {
    if candidates == [] then g else JudgeAll(Judge(g, candidates[0]), candidates[1..])
  }

  // ----- The passes -----

  function Present(ids: seq<string>): seq<string> {
    if ids == [] then [] else (if ids[0] != "" then [ids[0]] else []) + Present(ids[1..])
  }

  function Link(graph: GraphType, relation: Relation, head: Entity, tail: Entity, chunk: string): Candidate {
    Candidate(head.id, head.kind, relation, tail.id, tail.kind, graph, Present([head.support, tail.support]), chunk)
  }

  function Pick(entities: seq<Entity>, wanted: Label -> bool): seq<Entity> {
    if entities == [] then []
    else (if wanted(entities[0].kind) then [entities[0]] else []) + Pick(entities[1..], wanted)
  }

  predicate IsNamed(kind: Label) { kind.Named? }
  predicate IsSemantic(kind: Label) { kind.Semantic? }
  predicate IsTemporal(kind: Label) { kind.Temporal? }
  predicate IsCausal(kind: Label) { kind.Causal? }
  predicate IsTopic(kind: Label) { kind.Named? || kind.Semantic? }

  function FirstOf<T>(n: nat, xs: seq<T>): seq<T> {
    if |xs| <= n then xs else xs[..n]
  }

  /** One head with each of the tails; an entity is not linked to its own id. */
  function LinkEach(graph: GraphType, relation: Relation, head: Entity, tails: seq<Entity>, chunk: string): seq<Candidate> {
    if tails == [] then []
    else
      (if head.id == tails[0].id then [] else [Link(graph, relation, head, tails[0], chunk)])
      + LinkEach(graph, relation, head, tails[1..], chunk)
  }

  function EntityPass(named: seq<Entity>, semantic: seq<Entity>, chunk: string): seq<Candidate> {
    if named == [] then []
    else LinkEach(EntityGraph, HasContext, named[0], FirstOf(3, semantic), chunk) + EntityPass(named[1..], semantic, chunk)
  }

  /** Every topic with the next three. */
  function SemanticPass(topics: seq<Entity>, chunk: string): seq<Candidate> {
    if topics == [] then []
    else LinkEach(SemanticGraph, RelatedTo, topics[0], FirstOf(3, topics[1..]), chunk) + SemanticPass(topics[1..], chunk)
  }

  function Anchor(temporal: Entity, targets: seq<Entity>, chunk: string): seq<Candidate> {
    if targets == [] then []
    else [Link(TemporalGraph, OccursAt, targets[0], temporal, chunk)] + Anchor(temporal, targets[1..], chunk)
  }

  function TemporalPass(temporals: seq<Entity>, targets: seq<Entity>, chunk: string): seq<Candidate> {
    if temporals == [] then []
    else Anchor(temporals[0], FirstOf(4, targets), chunk) + TemporalPass(temporals[1..], targets, chunk)
  }

  /** The causal pass applies to a chunk with text and at least two topics. */
  predicate CausalApplies(entities: seq<Entity>, text: string) {
    text != "" && |Pick(entities, IsTopic)| >= 2
  }

  function CausalPass(entities: seq<Entity>, text: string, chunk: string): seq<Candidate> {
    var markers, topics := Pick(entities, IsCausal), Pick(entities, IsTopic);
    if !CausalApplies(entities, text) || markers == [] then []
    else
      var first, last := topics[0], topics[|topics| - 1];
      [Link(CausalGraph, Causes, first, last, chunk).(evidence := Present([first.support, last.support, markers[0].support]))]
  }

  predicate LacksMarker(entities: seq<Entity>, text: string) {
    CausalApplies(entities, text) && Pick(entities, IsCausal) == []
  }

  function ChunkCandidates(entities: seq<Entity>, text: string, chunk: string): seq<Candidate> {
    EntityPass(Pick(entities, IsNamed), Pick(entities, IsSemantic), chunk)
    + SemanticPass(Pick(entities, IsTopic), chunk)
    + TemporalPass(Pick(entities, IsTemporal), Pick(entities, IsTopic), chunk)
    + CausalPass(entities, text, chunk)
  }

  function CompileChunk(g: Compiled, entities: seq<Entity>, text: string, chunk: string): Compiled {
    var done := JudgeAll(g, ChunkCandidates(entities, text, chunk));
    if LacksMarker(entities, text) then done.(rejected := done.rejected + [Rejection(MissingCausalMarker, CausalGraph)]) else done
  }

  // ----- All chunks -----

  function ChunkIds(entities: seq<Entity>): seq<string> {
    if entities == [] then [] else ChunkIdOf(entities[0]) + ChunkIds(entities[1..])
  }

  function ChunkIdOf(e: Entity): seq<string> {
    if e.chunk != "" then [e.chunk] else []
  }

  function Members(entities: seq<Entity>, chunk: string): seq<Entity> {
    if entities == [] then [] else MemberOf(entities[0], chunk) + Members(entities[1..], chunk)
  }

  function MemberOf(e: Entity, chunk: string): seq<Entity> {
    if e.chunk == chunk then [e] else []
  }

  function TextOf(texts: map<string, string>, chunk: string): string {
    if chunk in texts then texts[chunk] else ""
  }

  function CompileChunks(g: Compiled, chunks: seq<string>, entities: seq<Entity>, texts: map<string, string>): Compiled
    decreases |chunks|
  {
    if chunks == [] then g
    else CompileChunks(CompileChunk(g, Members(entities, chunks[0]), TextOf(texts, chunks[0]), chunks[0]), chunks[1..], entities, texts)
  }

  function CompileRelations(entities: seq<Entity>, texts: map<string, string>): Compiled {
    CompileChunks(Compiled([], []), Dedup(ChunkIds(entities)), entities, texts)
  }

  // ----- As it runs -----

  lemma {:induction false} JudgeSum(g: Compiled, a: seq<Candidate>, b: seq<Candidate>)
    ensures JudgeAll(g, a + b) == JudgeAll(JudgeAll(g, a), b)
    decreases |a|
  {
    hide Judge;
    if a == [] {
      assert a + b == b;
    } else {
      assert (a + b)[1..] == a[1..] + b;
      JudgeSum(Judge(g, a[0]), a[1..], b);
    }
  }

  class GraphCompiler {
    var accepted: seq<Candidate>
    var rejected: seq<Rejection>

    constructor ()
      ensures Graph() == Compiled([], [])
    {
      accepted, rejected := [], [];
    }

    ghost function Graph(): Compiled
      reads this
    {
      Compiled(accepted, rejected)
    }

    method ValidateCandidate(c: Candidate)
      modifies this
      ensures Graph() == JudgeAll(old(Graph()), [c])
    {
      assert [c][1..] == [];
      match Validate(c) {
        case Accepted => accepted := accepted + [c];
        case Refused(code) => rejected := rejected + [Rejection(code, c.graph)];
      }
    }

    method CompileEntityGraph(entities: seq<Entity>, chunk: string)
      modifies this
      ensures Graph() == JudgeAll(old(Graph()), EntityPass(Pick(entities, IsNamed), Pick(entities, IsSemantic), chunk))
    {
      hide JudgeAll, Pick, Link;
      var named, semantic := Pick(entities, IsNamed), Pick(entities, IsSemantic);
      ghost var goal := JudgeAll(Graph(), EntityPass(named, semantic, chunk));
      var i := 0;
      while i < |named|
        invariant 0 <= i <= |named|
        invariant JudgeAll(Graph(), EntityPass(named[i..], semantic, chunk)) == goal
      {
        assert named[i..][1..] == named[i + 1..];
        JudgeSum(Graph(), LinkEach(EntityGraph, HasContext, named[i], FirstOf(3, semantic), chunk), EntityPass(named[i + 1..], semantic, chunk));
        LinkAll(EntityGraph, HasContext, named[i], FirstOf(3, semantic), chunk);
        i := i + 1;
      }
      NothingToJudge(Graph());
    }

    method CompileSemanticGraph(entities: seq<Entity>, chunk: string)
      modifies this
      ensures Graph() == JudgeAll(old(Graph()), SemanticPass(Pick(entities, IsTopic), chunk))
    {
      hide JudgeAll, Pick, Link;
      var topics := Pick(entities, IsTopic);
      ghost var goal := JudgeAll(Graph(), SemanticPass(topics, chunk));
      var i := 0;
      while i < |topics|
        invariant 0 <= i <= |topics|
        invariant JudgeAll(Graph(), SemanticPass(topics[i..], chunk)) == goal
      {
        var next := topics[i + 1..if i + 4 < |topics| then i + 4 else |topics|];
        assert topics[i..][1..] == topics[i + 1..] && next == FirstOf(3, topics[i + 1..]);
        JudgeSum(Graph(), LinkEach(SemanticGraph, RelatedTo, topics[i], next, chunk), SemanticPass(topics[i + 1..], chunk));
        LinkAll(SemanticGraph, RelatedTo, topics[i], next, chunk);
        i := i + 1;
      }
      NothingToJudge(Graph());
    }

    /** The inner loop of both: one head, its tails in order. */
    method LinkAll(graph: GraphType, relation: Relation, head: Entity, tails: seq<Entity>, chunk: string)
      modifies this
      ensures Graph() == JudgeAll(old(Graph()), LinkEach(graph, relation, head, tails, chunk))
    {
      hide JudgeAll, Link;
      ghost var goal := JudgeAll(Graph(), LinkEach(graph, relation, head, tails, chunk));
      var i := 0;
      while i < |tails|
        invariant 0 <= i <= |tails|
        invariant JudgeAll(Graph(), LinkEach(graph, relation, head, tails[i..], chunk)) == goal
      {
        assert tails[i..][1..] == tails[i + 1..];
        ghost var rest := LinkEach(graph, relation, head, tails[i + 1..], chunk);
        if head.id == tails[i].id {
          assert [] + rest == rest;
        } else {
          JudgeSum(Graph(), [Link(graph, relation, head, tails[i], chunk)], rest);
          ValidateCandidate(Link(graph, relation, head, tails[i], chunk));
        }
        i := i + 1;
      }
      NothingToJudge(Graph());
    }

    method CompileTemporalGraph(entities: seq<Entity>, chunk: string)
      modifies this
      ensures Graph() == JudgeAll(old(Graph()), TemporalPass(Pick(entities, IsTemporal), Pick(entities, IsTopic), chunk))
    {
      hide JudgeAll, Pick, Link;
      var temporals, targets := Pick(entities, IsTemporal), Pick(entities, IsTopic);
      ghost var goal := JudgeAll(Graph(), TemporalPass(temporals, targets, chunk));
      var i := 0;
      while i < |temporals|
        invariant 0 <= i <= |temporals|
        invariant JudgeAll(Graph(), TemporalPass(temporals[i..], targets, chunk)) == goal
      {
        assert temporals[i..][1..] == temporals[i + 1..];
        JudgeSum(Graph(), Anchor(temporals[i], FirstOf(4, targets), chunk), TemporalPass(temporals[i + 1..], targets, chunk));
        AnchorAll(temporals[i], FirstOf(4, targets), chunk);
        i := i + 1;
      }
      NothingToJudge(Graph());
    }

    method AnchorAll(temporal: Entity, targets: seq<Entity>, chunk: string)
      modifies this
      ensures Graph() == JudgeAll(old(Graph()), Anchor(temporal, targets, chunk))
    {
      hide JudgeAll, Link;
      ghost var goal := JudgeAll(Graph(), Anchor(temporal, targets, chunk));
      var i := 0;
      while i < |targets|
        invariant 0 <= i <= |targets|
        invariant JudgeAll(Graph(), Anchor(temporal, targets[i..], chunk)) == goal
      {
        assert targets[i..][1..] == targets[i + 1..];
        JudgeSum(Graph(), [Link(TemporalGraph, OccursAt, targets[i], temporal, chunk)], Anchor(temporal, targets[i + 1..], chunk));
        ValidateCandidate(Link(TemporalGraph, OccursAt, targets[i], temporal, chunk));
        i := i + 1;
      }
      NothingToJudge(Graph());
    }

    method CompileCausalGraph(entities: seq<Entity>, text: string, chunk: string)
      modifies this
      ensures var judged := JudgeAll(old(Graph()), CausalPass(entities, text, chunk));
              Graph() == if LacksMarker(entities, text)
                         then judged.(rejected := judged.rejected + [Rejection(MissingCausalMarker, CausalGraph)])
                         else judged
    {
      hide JudgeAll, Pick, Link;
      NothingToJudge(Graph());
      var markers, topics := Pick(entities, IsCausal), Pick(entities, IsTopic);
      if text == "" || |topics| < 2 { return; }
      if markers == [] {
        rejected := rejected + [Rejection(MissingCausalMarker, CausalGraph)];
        return;
      }
      var first, last := topics[0], topics[|topics| - 1];
      ValidateCandidate(Link(CausalGraph, Causes, first, last, chunk).(evidence := Present([first.support, last.support, markers[0].support])));
    }

    method CompileOneChunk(entities: seq<Entity>, text: string, chunk: string)
      modifies this
      ensures Graph() == CompileChunk(old(Graph()), entities, text, chunk)
    {
      hide JudgeAll, Pick, EntityPass, SemanticPass, TemporalPass, CausalPass, LacksMarker;
      ghost var start := Graph();
      CompileEntityGraph(entities, chunk);
      CompileSemanticGraph(entities, chunk);
      CompileTemporalGraph(entities, chunk);
      CompileCausalGraph(entities, text, chunk);
      ghost var a := EntityPass(Pick(entities, IsNamed), Pick(entities, IsSemantic), chunk);
      ghost var b := SemanticPass(Pick(entities, IsTopic), chunk);
      ghost var c := TemporalPass(Pick(entities, IsTemporal), Pick(entities, IsTopic), chunk);
      JudgeSum(start, a, b);
      JudgeSum(start, a + b, c);
      JudgeSum(start, a + b + c, CausalPass(entities, text, chunk));
    }
  }

  lemma NothingToJudge(g: Compiled)
    ensures JudgeAll(g, []) == g
  {
  }

  /** Group the entities by chunk, chunks in order of first appearance, then compile chunk by chunk. */
  method RunCompileRelations(entities: seq<Entity>, texts: map<string, string>) returns (result: Compiled)
    ensures result == CompileRelations(entities, texts)
  {
    hide CompileChunk, ChunkIds, Members;
    var order, grouped := GroupByChunk(entities);
    var compiler := new GraphCompiler();
    var i := 0;
    while i < |order|
      invariant 0 <= i <= |order|
      invariant CompileChunks(compiler.Graph(), order[i..], entities, texts) == CompileRelations(entities, texts)
    {
      assert order[i..][1..] == order[i + 1..] && order[i] in order;
      compiler.CompileOneChunk(grouped[order[i]], TextOf(texts, order[i]), order[i]);
      i := i + 1;
    }
    result := Compiled(compiler.accepted, compiler.rejected);
  }

  ghost predicate Grouped(order: seq<string>, grouped: map<string, seq<Entity>>, entities: seq<Entity>) {
    && order == Dedup(ChunkIds(entities))
    && (forall chunk :: chunk in grouped <==> chunk in order)
    && (forall chunk :: chunk in grouped ==> grouped[chunk] == Members(entities, chunk))
  }

  method GroupByChunk(entities: seq<Entity>) returns (order: seq<string>, grouped: map<string, seq<Entity>>)
    ensures Grouped(order, grouped, entities)
  {
    hide Grouped;
    order, grouped := [], map[];
    NothingGrouped();
    var i := 0;
    while i < |entities|
      invariant 0 <= i <= |entities|
      invariant Grouped(order, grouped, entities[..i])
    {
      var e := entities[i];
      assert entities[..i + 1] == entities[..i] + [e];
      GroupGrows(order, grouped, entities[..i], e);
      if e.chunk != "" {
        var members := [];
        if e.chunk in grouped {
          members := grouped[e.chunk];
        } else {
          order := order + [e.chunk];
        }
        grouped := grouped[e.chunk := members + [e]];
      }
      i := i + 1;
    }
    assert entities[..|entities|] == entities;
  }

  lemma NothingGrouped()
    ensures Grouped([], map[], [])
  {
  }

  lemma {:induction false} ChunkIdsOfSum(entities: seq<Entity>, e: Entity)
    ensures ChunkIds(entities + [e]) == ChunkIds(entities) + ChunkIdOf(e)
  {
    hide ChunkIdOf;
    if entities == [] {
      assert [] + [e] == [e] && [e][1..] == [];
    } else {
      assert (entities + [e])[1..] == entities[1..] + [e];
      ChunkIdsOfSum(entities[1..], e);
    }
  }

  lemma {:induction false} MembersOfSum(entities: seq<Entity>, e: Entity, chunk: string)
    ensures Members(entities + [e], chunk) == Members(entities, chunk) + MemberOf(e, chunk)
  {
    hide MemberOf;
    if entities == [] {
      assert [] + [e] == [e] && [e][1..] == [];
    } else {
      assert (entities + [e])[1..] == entities[1..] + [e];
      MembersOfSum(entities[1..], e, chunk);
    }
  }

  lemma {:induction false} NoMembers(entities: seq<Entity>, chunk: string)
    requires chunk !in ChunkIds(entities) && chunk != ""
    ensures Members(entities, chunk) == []
  {
    if entities != [] { NoMembers(entities[1..], chunk); }
  }

  lemma DedupOfSum(ids: seq<string>, id: string)
    ensures Dedup(ids + [id]) == Dedup(ids) + if id in ids then [] else [id]
    ensures forall x :: x in Dedup(ids) <==> x in ids
  {
    FreshOfSum([], ids, [id]);
    assert [] + Dedup(ids) == Dedup(ids);
    forall x ensures x in Dedup(ids) <==> x in ids { FreshMembers([], ids, x); }
    assert [id][1..] == [];
  }

  lemma {:induction false} NoBlankChunk(entities: seq<Entity>)
    ensures "" !in ChunkIds(entities)
  {
    if entities != [] { NoBlankChunk(entities[1..]); }
  }

  lemma GroupGrows(order: seq<string>, grouped: map<string, seq<Entity>>, entities: seq<Entity>, e: Entity)
    requires Grouped(order, grouped, entities)
    ensures e.chunk == "" ==> Grouped(order, grouped, entities + [e])
    ensures e.chunk != "" && e.chunk in grouped ==>
              Grouped(order, grouped[e.chunk := grouped[e.chunk] + [e]], entities + [e])
    ensures e.chunk != "" && e.chunk !in grouped ==>
              Grouped(order + [e.chunk], grouped[e.chunk := [] + [e]], entities + [e])
  {
    hide ChunkIds, Members, Dedup;
    var ids := ChunkIds(entities);
    ChunkIdsOfSum(entities, e);
    DedupOfSum(ids, e.chunk);
    assert ids + [] == ids && order + [] == order;
    NoBlankChunk(entities);
    forall chunk | chunk in grouped || chunk == e.chunk
      ensures Members(entities + [e], chunk) == Members(entities, chunk) + MemberOf(e, chunk)
    {
      MembersOfSum(entities, e, chunk);
    }
    forall chunk | chunk in grouped && chunk != e.chunk ensures Members(entities + [e], chunk) == Members(entities, chunk) {
      assert Members(entities, chunk) + [] == Members(entities, chunk);
    }
    if e.chunk != "" && e.chunk !in grouped { NoMembers(entities, e.chunk); }
  }
}
