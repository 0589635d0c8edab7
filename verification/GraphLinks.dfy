/** Which relations are compiled: exactly those that the four rules name, over the entities of each chunk. */
module GraphLinks {
  import opened ListLaws
  import opened Values
  import opened Graph
  import opened GraphLaws

  // ----- Choosing entities -----

  /** `part` is `whole` without the items that are not wanted: these are the positions of the others. */
  ghost predicate Selects(whole: seq<Entity>, part: seq<Entity>, at: seq<nat>, wanted: Entity -> bool) {
    && |at| == |part|
    && (forall k :: 0 <= k < |at| ==> at[k] < |whole| && part[k] == whole[at[k]] && wanted(part[k]))
    && (forall k, l :: 0 <= k < l < |at| ==> at[k] < at[l])
    && (forall i: nat :: i < |whole| && wanted(whole[i]) ==> i in at)
  }

  lemma SelectsOne(whole: seq<Entity>, part: seq<Entity>, at: seq<nat>, wanted: Entity -> bool, e: Entity)
    requires Selects(whole, part, at, wanted)
    ensures !wanted(e) ==> Selects(whole + [e], part, at, wanted)
    ensures wanted(e) ==> Selects(whole + [e], part + [e], at + [|whole|], wanted)
  {
    var more := at + [|whole|];
    assert forall i :: i in at ==> i in more;
    assert more[|at|] == |whole|;
    assert forall i: nat :: i < |whole| ==> (whole + [e])[i] == whole[i];
  }

  lemma {:induction false} PickOfSum(a: seq<Entity>, b: seq<Entity>, wanted: Label -> bool)
    ensures Pick(a + b, wanted) == Pick(a, wanted) + Pick(b, wanted)
  {
    if a == [] {
      assert a + b == b;
    } else {
      assert (a + b)[1..] == a[1..] + b;
      PickOfSum(a[1..], b, wanted);
    }
  }

  lemma {:induction false} PickSelects(entities: seq<Entity>, wanted: Label -> bool) returns (at: seq<nat>)
    ensures Selects(entities, Pick(entities, wanted), at, (e: Entity) => wanted(e.kind))
  {
    if entities == [] {
      at := [];
    } else {
      var init, e := entities[..|entities| - 1], entities[|entities| - 1];
      at := PickSelects(init, wanted);
      assert entities == init + [e];
      PickOfSum(init, [e], wanted);
      assert Pick([e], wanted) == (if wanted(e.kind) then [e] else []) by { assert [e][1..] == []; }
      assert Pick(init, wanted) + [] == Pick(init, wanted);
      SelectsOne(init, Pick(init, wanted), at, (e: Entity) => wanted(e.kind), e);
      if wanted(e.kind) { at := at + [|init|]; }
    }
  }

  lemma {:induction false} MembersSelect(entities: seq<Entity>, chunk: string) returns (at: seq<nat>)
    ensures Selects(entities, Members(entities, chunk), at, (e: Entity) => e.chunk == chunk)
  {
    if entities == [] {
      at := [];
    } else {
      var init, e := entities[..|entities| - 1], entities[|entities| - 1];
      at := MembersSelect(init, chunk);
      assert entities == init + [e];
      MembersOfSum(init, e, chunk);
      assert Members(init, chunk) + [] == Members(init, chunk);
      SelectsOne(init, Members(init, chunk), at, (e: Entity) => e.chunk == chunk, e);
      if e.chunk == chunk { at := at + [|init|]; }
    }
  }

  // ----- One pass -----

  /** Texts that are given. */
  function Given(text: string): seq<string> {
    if text != "" then [text] else []
  }

  /** A relation of this kind between two entities, with the matches that support them. */
  predicate Relates(c: Candidate, graph: GraphType, relation: Relation, head: Entity, tail: Entity, chunk: string) {
    && c.graph == graph && c.relation == relation && c.chunk == chunk
    && c.head == head.id && c.headLabel == head.kind && c.tail == tail.id && c.tailLabel == tail.kind
    && c.evidence == Given(head.support) + Given(tail.support)
  }

  lemma PresentStep(a: string, rest: seq<string>)
    ensures Present([a] + rest) == Given(a) + Present(rest)
  {
    assert ([a] + rest)[1..] == rest;
  }

  lemma PresentTwo(a: string, b: string)
    ensures Present([a, b]) == Given(a) + Given(b)
  {
    hide Given;
    PresentStep(a, [b]);
    PresentStep(b, []);
    assert [a, b] == [a] + [b] && [b] == [b] + [] && Given(b) + [] == Given(b);
  }

  lemma PresentThree(a: string, b: string, c: string)
    ensures Present([a, b, c]) == Given(a) + Given(b) + Given(c)
  {
    hide Given;
    PresentStep(a, [b, c]);
    PresentTwo(b, c);
    assert [a, b, c] == [a] + [b, c];
    assert Given(a) + (Given(b) + Given(c)) == Given(a) + Given(b) + Given(c);
  }

  lemma LinkRelates(c: Candidate, graph: GraphType, relation: Relation, head: Entity, tail: Entity, chunk: string)
    ensures Relates(c, graph, relation, head, tail, chunk) <==> c == Link(graph, relation, head, tail, chunk)
  {
    hide Present, Given;
    PresentTwo(head.support, tail.support);
  }

  lemma {:induction false} LinkEachMeans(graph: GraphType, relation: Relation, head: Entity, tails: seq<Entity>, chunk: string, c: Candidate)
    ensures c in LinkEach(graph, relation, head, tails, chunk) <==>
            exists j :: 0 <= j < |tails| && tails[j].id != head.id && Relates(c, graph, relation, head, tails[j], chunk)
  {
    hide Link, Relates;
    if tails != [] {
      LinkEachMeans(graph, relation, head, tails[1..], chunk, c);
      LinkRelates(c, graph, relation, head, tails[0], chunk);
      assert forall j :: 0 < j < |tails| ==> tails[j] == tails[1..][j - 1];
    }
  }

  /** A named entity and one of the first three semantic ones. */
  ghost predicate HasItsContext(c: Candidate, named: seq<Entity>, semantic: seq<Entity>, chunk: string) {
    exists i, j :: 0 <= i < |named| && 0 <= j < |semantic| && j < 3 && named[i].id != semantic[j].id
                   && Relates(c, EntityGraph, HasContext, named[i], semantic[j], chunk)
  }

  lemma {:induction false} EntityPassMeans(named: seq<Entity>, semantic: seq<Entity>, chunk: string, c: Candidate)
    ensures c in EntityPass(named, semantic, chunk) <==> HasItsContext(c, named, semantic, chunk)
  {
    hide LinkEach, Relates;
    if named != [] {
      EntityPassMeans(named[1..], semantic, chunk, c);
      LinkEachMeans(EntityGraph, HasContext, named[0], FirstOf(3, semantic), chunk, c);
      assert forall i :: 0 < i < |named| ==> named[i] == named[1..][i - 1];
      assert forall j :: 0 <= j < |FirstOf(3, semantic)| ==> FirstOf(3, semantic)[j] == semantic[j];
    }
  }

  /** Two topics at most three apart, the earlier one first. */
  ghost predicate IsNear(c: Candidate, topics: seq<Entity>, chunk: string) {
    exists i, j :: 0 <= i < j < |topics| && j <= i + 3 && topics[i].id != topics[j].id
                   && Relates(c, SemanticGraph, RelatedTo, topics[i], topics[j], chunk)
  }

  lemma {:induction false} SemanticPassMeans(topics: seq<Entity>, chunk: string, c: Candidate)
    ensures c in SemanticPass(topics, chunk) <==> IsNear(c, topics, chunk)
  {
    hide LinkEach, Relates;
    if topics != [] {
      var next := FirstOf(3, topics[1..]);
      SemanticPassMeans(topics[1..], chunk, c);
      LinkEachMeans(SemanticGraph, RelatedTo, topics[0], next, chunk, c);
      assert forall i :: 0 < i < |topics| ==> topics[i] == topics[1..][i - 1];
      assert forall j :: 0 <= j < |next| ==> next[j] == topics[j + 1];
      NearFromHead(topics, chunk, c);
    }
  }

  lemma NearFromHead(topics: seq<Entity>, chunk: string, c: Candidate)
    requires topics != []
    ensures var next := FirstOf(3, topics[1..]);
            IsNear(c, topics, chunk) <==>
              || IsNear(c, topics[1..], chunk)
              || exists j :: 0 <= j < |next| && next[j].id != topics[0].id && Relates(c, SemanticGraph, RelatedTo, topics[0], next[j], chunk)
  {
    hide Relates;
    var next, rest := FirstOf(3, topics[1..]), topics[1..];
    assert forall j :: 0 <= j < |next| ==> next[j] == topics[j + 1];
    if IsNear(c, topics, chunk) {
      var i, j :| 0 <= i < j < |topics| && j <= i + 3 && topics[i].id != topics[j].id
                  && Relates(c, SemanticGraph, RelatedTo, topics[i], topics[j], chunk);
      if i > 0 { assert rest[i - 1] == topics[i] && rest[j - 1] == topics[j]; } else { assert next[j - 1] == topics[j]; }
    }
    if IsNear(c, rest, chunk) {
      var i, j :| 0 <= i < j < |rest| && j <= i + 3 && rest[i].id != rest[j].id
                  && Relates(c, SemanticGraph, RelatedTo, rest[i], rest[j], chunk);
      assert topics[i + 1] == rest[i] && topics[j + 1] == rest[j];
    }
    if j :| 0 <= j < |next| && next[j].id != topics[0].id && Relates(c, SemanticGraph, RelatedTo, topics[0], next[j], chunk) {
      assert topics[j + 1] == next[j];
    }
  }

  /** One of the first four topics, at a temporal entity, be it itself. */
  ghost predicate IsDated(c: Candidate, temporals: seq<Entity>, topics: seq<Entity>, chunk: string) {
    exists i, j :: 0 <= i < |temporals| && 0 <= j < |topics| && j < 4
                   && Relates(c, TemporalGraph, OccursAt, topics[j], temporals[i], chunk)
  }

  lemma {:induction false} AnchorMeans(temporal: Entity, targets: seq<Entity>, chunk: string, c: Candidate)
    ensures c in Anchor(temporal, targets, chunk) <==>
            exists j :: 0 <= j < |targets| && Relates(c, TemporalGraph, OccursAt, targets[j], temporal, chunk)
  {
    hide Link, Relates;
    if targets != [] {
      AnchorMeans(temporal, targets[1..], chunk, c);
      LinkRelates(c, TemporalGraph, OccursAt, targets[0], temporal, chunk);
      assert forall j :: 0 < j < |targets| ==> targets[j] == targets[1..][j - 1];
    }
  }

  lemma {:induction false} TemporalPassMeans(temporals: seq<Entity>, topics: seq<Entity>, chunk: string, c: Candidate)
    ensures c in TemporalPass(temporals, topics, chunk) <==> IsDated(c, temporals, topics, chunk)
  {
    hide Anchor, Relates;
    if temporals != [] {
      TemporalPassMeans(temporals[1..], topics, chunk, c);
      AnchorMeans(temporals[0], FirstOf(4, topics), chunk, c);
      assert forall i :: 0 < i < |temporals| ==> temporals[i] == temporals[1..][i - 1];
      assert forall j :: 0 <= j < |FirstOf(4, topics)| ==> FirstOf(4, topics)[j] == topics[j];
    }
  }

  /** The first topic causes the last one, if the chunk has text and a causal marker. */
  ghost predicate IsCaused(c: Candidate, topics: seq<Entity>, markers: seq<Entity>, text: string, chunk: string) {
    && text != "" && |topics| >= 2 && markers != []
    && c.graph == CausalGraph && c.relation == Causes && c.chunk == chunk
    && c.head == topics[0].id && c.headLabel == topics[0].kind
    && c.tail == topics[|topics| - 1].id && c.tailLabel == topics[|topics| - 1].kind
    && c.evidence == Given(topics[0].support) + Given(topics[|topics| - 1].support) + Given(markers[0].support)
  }

  lemma CausalPassMeans(entities: seq<Entity>, text: string, chunk: string, c: Candidate)
    ensures c in CausalPass(entities, text, chunk) <==> IsCaused(c, Pick(entities, IsTopic), Pick(entities, IsCausal), text, chunk)
  {
    hide Pick, Present, Given;
    var topics, markers := Pick(entities, IsTopic), Pick(entities, IsCausal);
    if |topics| >= 2 && markers != [] {
      PresentThree(topics[0].support, topics[|topics| - 1].support, markers[0].support);
    }
  }

  // ----- A chunk and all chunks -----

  /** One of the four rules names the relation. */
  ghost predicate Named(c: Candidate, entities: seq<Entity>, text: string, chunk: string) {
    var topics := Pick(entities, IsTopic);
    || HasItsContext(c, Pick(entities, IsNamed), Pick(entities, IsSemantic), chunk)
    || IsNear(c, topics, chunk)
    || IsDated(c, Pick(entities, IsTemporal), topics, chunk)
    || IsCaused(c, topics, Pick(entities, IsCausal), text, chunk)
  }

  lemma ChunkMeans(entities: seq<Entity>, text: string, chunk: string, c: Candidate)
    ensures c in ChunkCandidates(entities, text, chunk) <==> Named(c, entities, text, chunk)
  {
    hide Pick, EntityPass, SemanticPass, TemporalPass, CausalPass, HasItsContext, IsNear, IsDated, IsCaused;
    EntityPassMeans(Pick(entities, IsNamed), Pick(entities, IsSemantic), chunk, c);
    SemanticPassMeans(Pick(entities, IsTopic), chunk, c);
    TemporalPassMeans(Pick(entities, IsTemporal), Pick(entities, IsTopic), chunk, c);
    CausalPassMeans(entities, text, chunk, c);
  }

  lemma {:induction false} JudgeAccepts(g: Compiled, cs: seq<Candidate>, c: Candidate)
    ensures c in JudgeAll(g, cs).accepted <==> c in g.accepted || (c in cs && Validate(c).Accepted?)
    decreases |cs|
  {
    hide Validate;
    if cs != [] {
      JudgeAccepts(Judge(g, cs[0]), cs[1..], c);
      assert cs == [cs[0]] + cs[1..];
    }
  }

  lemma ProposedIsAccepted(entities: seq<Entity>, text: string, chunk: string, c: Candidate)
    requires chunk != "" && Named(c, entities, text, chunk)
    ensures Validate(c).Accepted? <==> c.evidence != []
  {
    hide Named, Validate, Allowed, ChunkCandidates;
    ChunkMeans(entities, text, chunk, c);
    CandidatesAreProposed(entities, text, chunk);
    ValidateMeans(c);
    var cs := ChunkCandidates(entities, text, chunk);
    var k :| 0 <= k < |cs| && cs[k] == c;
  }

  lemma {:induction false} ChunksAccept(g: Compiled, chunks: seq<string>, entities: seq<Entity>, texts: map<string, string>, c: Candidate)
    requires "" !in chunks
    ensures c in CompileChunks(g, chunks, entities, texts).accepted <==>
            || c in g.accepted
            || exists chunk :: chunk in chunks && c.evidence != [] && Named(c, Members(entities, chunk), TextOf(texts, chunk), chunk)
    decreases |chunks|
  {
    hide Named, Members, TextOf, ChunkCandidates, JudgeAll, LacksMarker;
    if chunks != [] {
      var chunk := chunks[0];
      var members, text := Members(entities, chunk), TextOf(texts, chunk);
      assert chunks == [chunk] + chunks[1..];
      ChunksAccept(CompileChunk(g, members, text, chunk), chunks[1..], entities, texts, c);
      JudgeAccepts(g, ChunkCandidates(members, text, chunk), c);
      ChunkMeans(members, text, chunk, c);
      if Named(c, members, text, chunk) { ProposedIsAccepted(members, text, chunk, c); }
    }
  }

  /** How often the lack of a causal marker is reported. */
  function MarkerReports(rejected: seq<Rejection>): nat {
    multiset(rejected)[Rejection(MissingCausalMarker, CausalGraph)]
  }

  lemma {:induction false} JudgingReportsNoMarker(g: Compiled, cs: seq<Candidate>)
    ensures MarkerReports(JudgeAll(g, cs).rejected) == MarkerReports(g.rejected)
    decreases |cs|
  {
    hide Validate;
    if cs != [] {
      ValidateMeans(cs[0]);
      JudgingReportsNoMarker(Judge(g, cs[0]), cs[1..]);
    }
  }

  /** The lack of a marker is reported once for a chunk with text and two topics, if none of its entities is a
      causal one, and for no other. */
  lemma MarkerIsReportedIff(g: Compiled, entities: seq<Entity>, text: string, chunk: string)
    ensures MarkerReports(CompileChunk(g, entities, text, chunk).rejected) == MarkerReports(g.rejected) +
            if text != "" && |Pick(entities, IsTopic)| >= 2 && !(exists e :: e in entities && e.kind == Causal) then 1 else 0
  {
    hide JudgeAll, ChunkCandidates;
    JudgingReportsNoMarker(g, ChunkCandidates(entities, text, chunk));
    SomePicked(entities, IsCausal);
  }

  lemma {:induction false} SomePicked(entities: seq<Entity>, wanted: Label -> bool)
    ensures Pick(entities, wanted) != [] <==> exists e :: e in entities && wanted(e.kind)
  {
    if entities != [] {
      SomePicked(entities[1..], wanted);
      assert entities == [entities[0]] + entities[1..];
    }
  }

  lemma {:induction false} ChunkIdsMean(entities: seq<Entity>, chunk: string)
    ensures chunk in ChunkIds(entities) <==> chunk != "" && exists e :: e in entities && e.chunk == chunk
  {
    if entities != [] {
      ChunkIdsMean(entities[1..], chunk);
      assert entities == [entities[0]] + entities[1..];
    }
  }

  /** A relation is compiled if and only if one of the rules names it, over the entities of a chunk that has an
      id, and at least one match supports it. */
  lemma CompiledIff(entities: seq<Entity>, texts: map<string, string>, c: Candidate)
    ensures c in CompileRelations(entities, texts).accepted <==>
            && c.evidence != []
            && exists e :: e in entities && e.chunk != ""
                 && Named(c, Members(entities, e.chunk), if e.chunk in texts then texts[e.chunk] else "", e.chunk)
  {
    hide Named, Members, CompileChunks, Dedup, ChunkIds;
    var chunks := Dedup(ChunkIds(entities));
    NoBlankChunk(entities);
    forall chunk ensures chunk in chunks <==> chunk != "" && exists e :: e in entities && e.chunk == chunk {
      ChunkIdsMean(entities, chunk);
      DedupOfSum(ChunkIds(entities), chunk);
    }
    ChunksAccept(Compiled([], []), chunks, entities, texts, c);
  }
}
