/** What masking does to a text, told rule by rule, and when nothing sensitive is left. */
module RedactionLaws {
  import opened Redaction

  /** The texts between the rules, from the given one to the result: a rule that finds nothing in its text
      passes it on, any other passes on its substitution. */
  ghost predicate Stages(texts: seq<string>, text: string, rules: seq<Rule>, result: string) {
    && |texts| == |rules| + 1 && texts[0] == text && texts[|rules|] == result
    && forall i :: 0 <= i < |rules| ==>
         texts[i + 1] == if rules[i].find(texts[i]) == [] then texts[i] else rules[i].substitute(texts[i])
  }

  function Listed(rule: Rule, matches: seq<string>): seq<Finding> {
    seq(|matches|, k requires 0 <= k < |matches| => Finding(rule.name, rule.description, matches[k]))
  }

  /** All matches of the rules, each rule in its own text, in order. */
  function FoundIn(texts: seq<string>, rules: seq<Rule>): seq<Finding>
    requires |texts| >= |rules|
    decreases |rules|
  {
    if rules == [] then [] else Listed(rules[0], rules[0].find(texts[0])) + FoundIn(texts[1..], rules[1..])
  }

  lemma {:induction false} FindingsAreListed(rule: Rule, matches: seq<string>)
    ensures Findings(rule, matches) == Listed(rule, matches)
  {
    if matches != [] {
      FindingsAreListed(rule, matches[1..]);
      assert Listed(rule, matches) == [Finding(rule.name, rule.description, matches[0])] + Listed(rule, matches[1..]);
    }
  }

  lemma {:induction false} AppliedInStages(text: string, rules: seq<Rule>) returns (texts: seq<string>)
    ensures Stages(texts, text, rules, ApplyRules(text, rules).0)
    ensures ApplyRules(text, rules).1.findings == FoundIn(texts, rules)
    decreases |rules|
  {
    if rules == [] {
      texts := [text];
    } else {
      var matches := rules[0].find(text);
      var rest := AppliedInStages(if matches == [] then text else rules[0].substitute(text), rules[1..]);
      texts := [text] + rest;
      assert texts[1..] == rest;
      FindingsAreListed(rules[0], matches);
      StagesGrow(text, rest, rules, ApplyRules(text, rules).0);
      assert [] + FoundIn(rest, rules[1..]) == FoundIn(rest, rules[1..]);
    }
  }

  lemma StagesGrow(text: string, rest: seq<string>, rules: seq<Rule>, result: string)
    requires rules != []
    requires Stages(rest, if rules[0].find(text) == [] then text else rules[0].substitute(text), rules[1..], result)
    ensures Stages([text] + rest, text, rules, result)
  {
    var texts := [text] + rest;
    forall i | 0 <= i < |rules|
      ensures texts[i + 1] == if rules[i].find(texts[i]) == [] then texts[i] else rules[i].substitute(texts[i])
    {
      if i > 0 { assert rules[1..][i - 1] == rules[i] && rest[i] == texts[i + 1]; }
    }
  }

  /** A text that is not empty is masked in stages, and its report lists what the rules found in them; an
      empty one is left alone. */
  lemma TextIsMaskedInStages(text: string, rules: seq<Rule>) returns (texts: seq<string>)
    ensures text == "" ==> MaskText(text, rules) == ("", EMPTY)
    ensures text != "" ==> Stages(texts, text, rules, MaskText(text, rules).0)
    ensures text != "" ==> MaskText(text, rules).1.findings == FoundIn(texts, rules)
  {
    texts := AppliedInStages(text, rules);
  }

  // ----- When nothing is left -----

  ghost predicate Clean(text: string, rules: seq<Rule>) {
    forall i :: 0 <= i < |rules| ==> rules[i].find(text) == []
  }

  /** A substitution leaves no match of its own rule, and brings back none of an earlier rule. */
  ghost predicate Clearing(rules: seq<Rule>) {
    forall i, t: string :: 0 <= i < |rules| && rules[i].find(t) != [] ==>
      && rules[i].find(rules[i].substitute(t)) == []
      && forall j :: 0 <= j < i && rules[j].find(t) == [] ==> rules[j].find(rules[i].substitute(t)) == []
  }

  lemma {:induction false} CleanUpTo(texts: seq<string>, text: string, rules: seq<Rule>, result: string, n: nat)
    requires Stages(texts, text, rules, result) && Clearing(rules) && n <= |rules|
    ensures forall j :: 0 <= j < n ==> rules[j].find(texts[n]) == []
  {
    if n > 0 { CleanUpTo(texts, text, rules, result, n - 1); }
  }

  /** With such rules nothing is found in a masked text. */
  lemma NothingIsLeft(text: string, rules: seq<Rule>)
    requires Clearing(rules) && text != ""
    ensures Clean(MaskText(text, rules).0, rules)
  {
    var texts := TextIsMaskedInStages(text, rules);
    CleanUpTo(texts, text, rules, MaskText(text, rules).0, |rules|);
  }

  /** The report is empty exactly if there was nothing to find, and the text is then left alone. */
  lemma {:induction false} NoMatchIffClean(text: string, rules: seq<Rule>)
    ensures ApplyRules(text, rules).1.matchCount >= 0
    ensures ApplyRules(text, rules).1.matchCount == 0 <==> Clean(text, rules)
    ensures Clean(text, rules) ==> ApplyRules(text, rules) == (text, EMPTY)
    decreases |rules|
  {
    if rules != [] {
      var matches := rules[0].find(text);
      if matches == [] {
        NoMatchIffClean(text, rules[1..]);
        assert forall i :: 0 < i < |rules| ==> rules[i] == rules[1..][i - 1];
        assert Clean(text, rules[1..]) ==> Clean(text, rules);
      } else {
        NoMatchIffClean(rules[0].substitute(text), rules[1..]);
      }
    }
  }

  /** Masking a masked text again finds nothing and changes nothing. */
  lemma MaskingTwice(text: string, rules: seq<Rule>)
    requires Clearing(rules)
    ensures MaskText(MaskText(text, rules).0, rules) == (MaskText(text, rules).0, EMPTY)
  {
    if text != "" {
      NothingIsLeft(text, rules);
      NoMatchIffClean(MaskText(text, rules).0, rules);
    }
  }

  // ----- Payloads -----

  function Masked(texts: seq<string>, rules: seq<Rule>): seq<string> {
    seq(|texts|, i requires 0 <= i < |texts| => MaskText(texts[i], rules).0)
  }

  lemma MaskedOfSum(a: seq<string>, b: seq<string>, rules: seq<Rule>)
    ensures Masked(a + b, rules) == Masked(a, rules) + Masked(b, rules)
  {
    hide MaskText;
  }

  /** The texts of a masked payload are its texts, each masked. */
  lemma {:induction false} LeavesAreMasked(payload: Payload, rules: seq<Rule>)
    ensures Leaves(MaskPayload(payload, rules).0) == Masked(Leaves(payload), rules)
    decreases payload
  {
    hide MaskText;
    match payload
    case Text(text) =>
    case Mapping(entries) => EntryLeavesAreMasked(entries, rules);
    case Listing(items) => ItemLeavesAreMasked(items, rules);
    case Tuple(parts) => ItemLeavesAreMasked(parts, rules);
    case Scalar(_) =>
  }

  lemma {:induction false} ItemLeavesAreMasked(items: seq<Payload>, rules: seq<Rule>)
    ensures ItemLeaves(MaskItems(items, rules).0) == Masked(ItemLeaves(items), rules)
    decreases items
  {
    hide MaskText, MaskPayload, Merge;
    if items != [] {
      LeavesAreMasked(items[0], rules);
      ItemLeavesAreMasked(items[1..], rules);
      MaskedOfSum(Leaves(items[0]), ItemLeaves(items[1..]), rules);
      var first, rest := MaskPayload(items[0], rules).0, MaskItems(items[1..], rules).0;
      assert ([first] + rest)[1..] == rest;
    }
  }

  lemma {:induction false} EntryLeavesAreMasked(entries: seq<Entry>, rules: seq<Rule>)
    ensures EntryLeaves(MaskEntries(entries, rules).0) == Masked(EntryLeaves(entries), rules)
    decreases entries
  {
    hide MaskText, MaskPayload, Merge;
    if entries != [] {
      LeavesAreMasked(entries[0].value, rules);
      EntryLeavesAreMasked(entries[1..], rules);
      MaskedOfSum(Leaves(entries[0].value), EntryLeaves(entries[1..]), rules);
      var first, rest := MaskPayload(entries[0].value, rules).0, MaskEntries(entries[1..], rules).0;
      assert ([Entry(entries[0].key, first)] + rest)[1..] == rest;
    }
  }

  /** No rule finds anything in any text of a masked payload, but for texts that were empty. */
  lemma PayloadIsClean(payload: Payload, rules: seq<Rule>, i: nat)
    requires Clearing(rules) && i < |Leaves(payload)| && Leaves(payload)[i] != ""
    ensures var masked := Leaves(MaskPayload(payload, rules).0);
            |masked| == |Leaves(payload)| && Clean(masked[i], rules)
  {
    hide MaskText, Clearing, Clean;
    LeavesAreMasked(payload, rules);
    NothingIsLeft(Leaves(payload)[i], rules);
  }
}
