/** The texts under which checkpoints are kept tell the calls apart. */
module CheckpointNames {
  import opened DecimalText
  import opened Checkpoints

  lemma LabelHasNoColon(node: Node)
    ensures ':' !in Label(node)
  {
  }

  lemma SuffixStartsWithColon(use: Use)
    ensures Suffix(use) == "" || Suffix(use)[0] == ':'
  {
  }

  lemma SuffixesDiffer(a: Use, b: Use)
    requires Suffix(a) == Suffix(b)
    ensures a == b
  {
    assert |Suffix(a)| == |Suffix(b)|;
  }

  lemma LabelsDiffer(a: Node, b: Node)
    requires Label(a) == Label(b)
    ensures a == b
  {
    assert |Label(a)| == |Label(b)|;
    assert Label(a)[0] == Label(b)[0] && Label(a)[1] == Label(b)[1];
  }

  /** A name is a label and the rest of its text. */
  function NodeOf(name: CallName): Node {
    if name.CompiledFrom? then EvidenceCompiler else name.node
  }

  function Rest(name: CallName): string {
    match name
    case Once(_) => ""
    case Refreshed(_) => ":material_refresh"
    case CompiledFrom(source) => ":" + SourceText(source)
    case InRound(_, round, use) => ":r" + Digits(round) + Suffix(use)
  }

  lemma SpellSplits(name: CallName)
    ensures Spell(name) == Label(NodeOf(name)) + Rest(name)
    ensures FirstPart(Spell(name), ':') == Label(NodeOf(name))
  {
    hide Digits, FirstPart, Suffix;
    LabelHasNoColon(NodeOf(name));
    if name.InRound? { assert Label(name.node) + ":r" + Digits(name.round) + Suffix(name.use) == Label(name.node) + Rest(name); }
    FirstPartOf(Label(NodeOf(name)), Rest(name), ':');
  }

  lemma RoundsDiffer(m: nat, a: Use, n: nat, b: Use)
    requires Digits(m) + Suffix(a) == Digits(n) + Suffix(b)
    ensures m == n && a == b
  {
    hide Digits, Suffix;
    DigitsAreDigits(m);
    DigitsAreDigits(n);
    SuffixStartsWithColon(a);
    SuffixStartsWithColon(b);
    FirstPartOf(Digits(m), Suffix(a), ':');
    FirstPartOf(Digits(n), Suffix(b), ':');
    ParseOfDigits(m);
    ParseOfDigits(n);
    assert Suffix(a) == (Digits(m) + Suffix(a))[|Digits(m)|..] == Suffix(b);
    SuffixesDiffer(a, b);
  }

  lemma SameRest(a: CallName, b: CallName)
    requires NodeOf(a) == NodeOf(b) && Rest(a) == Rest(b)
    ensures a == b
  {
    hide Digits, Suffix;
    if a.InRound? && b.InRound? {
      assert Digits(a.round) + Suffix(a.use) == Rest(a)[2..];
      assert Digits(b.round) + Suffix(b.use) == Rest(b)[2..];
      RoundsDiffer(a.round, a.use, b.round, b.use);
    } else if Rest(a) != "" {
      assert Rest(a)[1] == Rest(b)[1];
      assert a.InRound? || b.InRound? || |Rest(a)| == |Rest(b)|;
    }
  }

  /** Two calls share a checkpoint only if they are the same call. */
  lemma NamesDiffer(a: CallName, b: CallName)
    requires Spell(a) == Spell(b)
    ensures a == b
  {
    hide Rest, Label, Spell;
    SpellSplits(a);
    SpellSplits(b);
    LabelsDiffer(NodeOf(a), NodeOf(b));
    assert Rest(a) == Spell(a)[|Label(NodeOf(a))|..] == Rest(b);
    SameRest(a, b);
  }

  /** The texts under which the calls of the flow are checkpointed: those of a task ... */
  lemma NamesOfTheTask()
    ensures Spell(Once(DataInspector)) == "data_inspector" && Spell(Once(KagRetriever)) == "kag_retriever"
    ensures Spell(Once(ContextBuilder)) == "context_builder" && Spell(Once(Summarizer)) == "summarizer"
    ensures Spell(Once(Dynamic)) == "dynamic"
    ensures Spell(Refreshed(DataInspector)) == "data_inspector" + ":material_refresh"
    ensures Spell(Refreshed(KagRetriever)) == "kag_retriever" + ":material_refresh"
    ensures Spell(Refreshed(ContextBuilder)) == "context_builder" + ":material_refresh"
    ensures Spell(CompiledFrom(FromStaticEvidence)) == "evidence_compiler:" + "static_evidence"
    ensures Spell(CompiledFrom(FromDynamicResume)) == "evidence_compiler:" + "dynamic_resume"
  {
  }

  /** `<node>:r<round>`, and what the call is for behind it. */
  function Named(node: string, r: nat, use: string): string {
    node + ":r" + Digits(r) + use
  }

  /** ... and those of a round. */
  lemma NamesOfARound(r: nat)
    ensures Spell(InRound(Analyst, r, Plain)) == Named("analyst", r, "") && Spell(InRound(Coder, r, Plain)) == Named("coder", r, "")
    ensures Spell(InRound(Analyst, r, AfterRefresh)) == Named("analyst", r, ":material_refresh")
    ensures Spell(InRound(StaticEvidence, r, Plain)) == Named("static_evidence", r, "")
    ensures Spell(InRound(Auditor, r, Plain)) == Named("auditor", r, "") && Spell(InRound(Debugger, r, Plain)) == Named("debugger", r, "")
    ensures Spell(InRound(Auditor, r, PostDebug)) == Named("auditor", r, ":post_debug")
    ensures Spell(InRound(Executor, r, Plain)) == Named("executor", r, "")
    ensures Spell(InRound(Debugger, r, PostExec)) == Named("debugger", r, ":post_exec")
    ensures Spell(InRound(Auditor, r, PostExec)) == Named("auditor", r, ":post_exec")
    ensures Spell(InRound(Executor, r, Retry)) == Named("executor", r, ":retry")
    ensures Spell(InRound(SkillHarvester, r, Plain)) == Named("skill_harvester", r, "")
  {
    hide Digits, Named;
    forall node, use ensures Spell(InRound(node, r, use)) == Named(Label(node), r, Suffix(use)) { NameParts(node, r, use); }
  }

  lemma NameParts(node: Node, r: nat, use: Use)
    ensures Spell(InRound(node, r, use)) == Named(Label(node), r, Suffix(use))
  {
    hide Digits, Label, Suffix;
  }
}
