/** The words that the task flow reads from the state, and what it reads them as. */
module FlowWords {
  import opened Values
  import opened ListLaws
  import opened Checkpoints
  import opened RoundEngine

  // ----- Actions -----

  /** Reading a word as an action and writing it again gives the word, so no two words are read alike. */
  lemma ActionsAreWords(text: string)
    ensures ActionText(ActionOf(text)) == text
    ensures forall other :: ActionOf(other) == ActionOf(text) ==> other == text
  {
    forall other ensures ActionText(ActionOf(other)) == other { ActionWord(other); }
  }

  lemma ActionWord(text: string)
    ensures ActionText(ActionOf(text)) == text
  {
  }

  /** The words that are known. */
  lemma KnownWords(text: string)
    ensures ActionOf(text).OtherAction? <==>
            text !in {"data_inspector", "kag_retriever", "context_builder", "static_evidence", "analyst", "coder", "dynamic"}
  {
  }

  lemma {:induction false} ActionsAt(texts: seq<string>)
    ensures |ActionsOf(texts)| == |texts|
    ensures forall i :: 0 <= i < |texts| ==> ActionsOf(texts)[i] == ActionOf(texts[i])
  {
    hide ActionOf;
    if texts != [] {
      ActionsAt(texts[1..]);
      forall i | 0 <= i < |texts| ensures ActionsOf(texts)[i] == ActionOf(texts[i]) {
        if i > 0 { assert ActionsOf(texts)[i] == ActionsOf(texts[1..])[i - 1] && texts[1..][i - 1] == texts[i]; }
      }
    }
  }

  /** A plan that is written to the state and read from it again is the same plan. */
  lemma PlanRoundTrip(texts: seq<string>)
    ensures ActionsOf(Texts(FromActions(ActionsOf(texts)))) == ActionsOf(texts)
  {
    hide ActionOf, ActionText, ActionsOf;
    ActionsAt(texts);
    forall i | 0 <= i < |texts| ensures ActionText(ActionsOf(texts)[i]) == texts[i] { ActionWord(texts[i]); }
    var items := FromActions(ActionsOf(texts)).items;
    assert items == seq(|texts|, i requires 0 <= i < |texts| => Str(texts[i]));
    TextsOfTexts(texts);
  }

  lemma {:induction false} TextsOfTexts(texts: seq<string>)
    ensures TextItems(seq(|texts|, i requires 0 <= i < |texts| => Str(texts[i]))) == texts
    ensures Texts(FromTexts(texts)) == texts
  {
    var items := seq(|texts|, i requires 0 <= i < |texts| => Str(texts[i]));
    if texts != [] {
      TextsOfTexts(texts[1..]);
      assert items[1..] == seq(|texts| - 1, i requires 0 <= i < |texts| - 1 => Str(texts[1..][i]));
    }
  }

  // ----- Lists of steps -----

  /** The steps that the texts name: `analyst` and `coder`, blanks aside, and no others. */
  function StepsNamed(texts: seq<string>): seq<Action> {
    if texts == [] then []
    else
      var word := Trim(texts[0]);
      (if word == "analyst" then [Analyze] else if word == "coder" then [WriteCode] else []) + StepsNamed(texts[1..])
  }

  lemma {:induction false} StepsAreNamed(texts: seq<string>)
    ensures ResumeSteps(ActionsOf(CleanTexts(texts))) == StepsNamed(texts)
  {
    hide Trim;
    if texts != [] {
      StepsAreNamed(texts[1..]);
      var word, rest := Trim(texts[0]), CleanTexts(texts[1..]);
      if word != "" {
        assert ([word] + rest)[1..] == rest;
        StepsOfCons(ActionOf(word), ActionsOf(rest));
        OneStepNamed(word);
      } else {
        assert [] + rest == rest && [] + StepsNamed(texts[1..]) == StepsNamed(texts[1..]);
      }
    }
  }

  lemma StepsOfCons(a: Action, rest: seq<Action>)
    ensures ResumeSteps([a] + rest) == (if a.Analyze? || a.WriteCode? then [a] else []) + ResumeSteps(rest)
  {
    assert ([a] + rest)[1..] == rest;
  }

  lemma OneStepNamed(word: string)
    ensures (if ActionOf(word).Analyze? || ActionOf(word).WriteCode? then [ActionOf(word)] else [])
            == if word == "analyst" then [Analyze] else if word == "coder" then [WriteCode] else []
  {
  }

  /** An overlay is a resume exactly if it is a mapping that says so; it then asks for the steps that its two
      lists name, and otherwise for nothing. */
  lemma OverlayMeans(v: Value)
    ensures var overlay := OverlayOf(v);
            && (overlay.resuming <==> v.Dict? && Continuation in v.fields && v.fields[Continuation] == Str("resume_static"))
            && (overlay.resuming ==>
                  && overlay.next == StepsNamed(Texts(Get(v.fields, NextStaticSteps)))
                  && overlay.skip == StepsNamed(Texts(Get(v.fields, SkipStaticSteps))))
            && (!overlay.resuming ==> overlay.next == [] && overlay.skip == [])
  {
    hide ResumeSteps, ActionsOf, CleanTexts, Texts, StepsNamed;
    if v.Dict? {
      StepsAreNamed(Texts(Get(v.fields, NextStaticSteps)));
      StepsAreNamed(Texts(Get(v.fields, SkipStaticSteps)));
    }
  }

  /** Dropping an action drops all of it and nothing else. */
  lemma {:induction false} WithoutMeans(actions: seq<Action>, dropped: Action)
    ensures multiset(Without(actions, dropped)) == multiset(actions)[dropped := 0]
  {
    if actions != [] {
      WithoutMeans(actions[1..], dropped);
      assert actions == [actions[0]] + actions[1..];
    }
  }

  // ----- Compiled sources -----

  /** The texts of a list of values, in order; other values are passed over. */
  lemma {:induction false} TextItemsMean(items: seq<Value>, text: string)
    ensures text in TextItems(items) <==> Str(text) in items
  {
    if items != [] {
      TextItemsMean(items[1..], text);
      assert items == [items[0]] + items[1..];
    }
  }

  /** After a source was compiled it is listed, and the list is read back as it was written. */
  lemma CompiledIsListed(compiled: seq<string>, source: Source)
    requires forall text :: text in compiled ==> text != "" && Trim(text) == text
    ensures CleanTexts(Texts(FromTexts(compiled + [SourceText(source)]))) == compiled + [SourceText(source)]
    ensures SourceText(FromStaticEvidence) != SourceText(FromDynamicResume)
  {
    hide Trim;
    TextsOfTexts(compiled + [SourceText(source)]);
    SourcesAreClean();
    CleanTextsOfClean(compiled + [SourceText(source)]);
  }

  lemma SourcesAreClean()
    ensures forall source :: SourceText(source) != "" && Trim(SourceText(source)) == SourceText(source)
    ensures SourceText(FromStaticEvidence) != SourceText(FromDynamicResume)
  {
    forall source ensures SourceText(source) != "" && Trim(SourceText(source)) == SourceText(source) {
      var s := SourceText(source);
      assert !IsBlank(s[0]) && !IsBlank(s[|s| - 1]);
    }
    assert "static_evidence"[0] == 's' && "dynamic_resume"[0] == 'd';
  }
}
