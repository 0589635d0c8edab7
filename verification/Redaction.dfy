/** Masking sensitive text in nested payloads, with a report of what was found. */
module Redaction {

  /** A rule finds its matches in a text, and substitutes them; the pattern itself is a parameter. */
  datatype Rule = Rule(name: string, description: string, find: string -> seq<string>, substitute: string -> string)

  datatype Finding = Finding(rule: string, description: string, match_: string)

  /** `ruleHits` holds each rule's name once per hit, as a counter does. */
  datatype Report = Report(matchCount: int, ruleHits: multiset<string>, findings: seq<Finding>)

  datatype Entry = Entry(key: string, value: Payload)

  datatype Payload =
    | Text(text: string)
    | Mapping(entries: seq<Entry>)
    | Listing(items: seq<Payload>)
    | Tuple(parts: seq<Payload>)
    | Scalar(value: int)

  const EMPTY := Report(0, multiset{}, [])

  function Merge(a: Report, b: Report): Report {
    Report(a.matchCount + b.matchCount, a.ruleHits + b.ruleHits, a.findings + b.findings)
  }

  function MergeAll(reports: seq<Report>): Report {
    if reports == [] then EMPTY else Merge(reports[0], MergeAll(reports[1..]))
  }

  method MergeRedactionReports(reports: seq<Report>) returns (merged: Report)
    ensures merged == MergeAll(reports)
  {
    var counter, findings, matchCount := multiset{}, [], 0;
    var i := 0;
    while i < |reports|
      invariant 0 <= i <= |reports|
      invariant Merge(Report(matchCount, counter, findings), MergeAll(reports[i..])) == MergeAll(reports)
    {
      assert reports[i..][1..] == reports[i + 1..];
      MergeIsAssociative(Report(matchCount, counter, findings), reports[i], MergeAll(reports[i + 1..]));
      matchCount := matchCount + reports[i].matchCount;
      counter := counter + reports[i].ruleHits;
      findings := findings + reports[i].findings;
      i := i + 1;
    }
    EmptyIsIdentity(Report(matchCount, counter, findings));
    merged := Report(matchCount, counter, findings);
  }

  // ----- One text -----

  function Findings(rule: Rule, matches: seq<string>): seq<Finding> {
    if matches == [] then [] else [Finding(rule.name, rule.description, matches[0])] + Findings(rule, matches[1..])
  }

  /** The report of one rule's matches. */
  function HitsOf(rule: Rule, matches: seq<string>): Report {
    Report(|matches|, multiset{}[rule.name := |matches|], Findings(rule, matches))
  }

  /** A report from its counter and its findings. */
  function Totalled(counter: multiset<string>, findings: seq<Finding>): Report {
    Report(|counter|, counter, findings)
  }

  /** Each rule sees what the rules before it left. */
  function ApplyRules(text: string, rules: seq<Rule>): (string, Report)
    decreases |rules|
  {
    if rules == [] then (text, EMPTY)
    else
      var matches := rules[0].find(text);
      if matches == [] then ApplyRules(text, rules[1..])
      else
        var (redacted, rest) := ApplyRules(rules[0].substitute(text), rules[1..]);
        (redacted, Merge(HitsOf(rules[0], matches), rest))
  }

  function MaskText(text: string, rules: seq<Rule>): (string, Report) {
    if text == "" then (text, EMPTY) else ApplyRules(text, rules)
  }

  method RunMaskText(text: string, rules: seq<Rule>) returns (redacted: string, report: Report)
    ensures (redacted, report) == MaskText(text, rules)
  {
    hide Merge, ApplyRules, Totalled, HitsOf, Findings;
    if text == "" { return text, EMPTY; }
    redacted := text;
    var findings, counter := [], multiset{};
    NothingMasked(ApplyRules(text, rules).1);
    assert rules[0..] == rules;
    var i := 0;
    while i < |rules|
      invariant 0 <= i <= |rules|
      invariant var rest := ApplyRules(redacted, rules[i..]);
                ApplyRules(text, rules) == (rest.0, Merge(Totalled(counter, findings), rest.1))
    {
      var rule := rules[i];
      var matches := rule.find(redacted);
      RuleStep(counter, findings, redacted, rules, i);
      if matches != [] {
        redacted := rule.substitute(redacted);
        counter := counter + multiset{}[rule.name := |matches|];
        findings := findings + Findings(rule, matches);
      }
      i := i + 1;
    }
    assert rules[i..] == [];
    NoRules(redacted);
    EmptyIsIdentity(Totalled(counter, findings));
    report := Totalled(counter, findings);
  }

  lemma NothingMasked(r: Report)
    ensures Merge(Totalled(multiset{}, []), r) == r
  {
    EmptyIsIdentity(r);
  }

  lemma NoRules(text: string)
    ensures ApplyRules(text, []) == (text, EMPTY)
  {
  }

  /** What the next rule adds to the totals. */
  lemma RuleStep(counter: multiset<string>, findings: seq<Finding>, text: string, rules: seq<Rule>, i: nat)
    requires i < |rules|
    ensures var rule, now := rules[i], ApplyRules(text, rules[i..]);
            var matches := rule.find(text);
            if matches == [] then now == ApplyRules(text, rules[i + 1..])
            else
              var rest := ApplyRules(rule.substitute(text), rules[i + 1..]);
              && now.0 == rest.0
              && Merge(Totalled(counter, findings), now.1) ==
                 Merge(Totalled(counter + multiset{}[rule.name := |matches|], findings + Findings(rule, matches)), rest.1)
  {
    hide Merge, Totalled, HitsOf, Findings;
    assert rules[i..][1..] == rules[i + 1..];
    var rule := rules[i];
    var matches := rule.find(text);
    if matches != [] {
      MergeIsAssociative(Totalled(counter, findings), HitsOf(rule, matches), ApplyRules(rule.substitute(text), rules[i + 1..]).1);
      TotalsAdd(counter, findings, rule, matches);
    }
  }

  lemma TotalsAdd(counter: multiset<string>, findings: seq<Finding>, rule: Rule, matches: seq<string>)
    ensures Merge(Totalled(counter, findings), HitsOf(rule, matches)) ==
            Totalled(counter + multiset{}[rule.name := |matches|], findings + Findings(rule, matches))
  {
    hide Findings;
    OneRuleCounts(rule.name, |matches|);
  }

  lemma OneRuleCounts(name: string, n: nat)
    ensures |multiset{}[name := n]| == n
  {
  }

  // ----- A payload -----

  function MaskPayload(payload: Payload, rules: seq<Rule>): (Payload, Report)
    decreases payload
  {
    match payload
    case Text(text) => var (redacted, report) := MaskText(text, rules); (Text(redacted), report)
    case Mapping(entries) => var (masked, report) := MaskEntries(entries, rules); (Mapping(masked), report)
    case Listing(items) => var (masked, report) := MaskItems(items, rules); (Listing(masked), report)
    case Tuple(parts) => var (masked, report) := MaskItems(parts, rules); (Tuple(masked), report)
    case Scalar(_) => (payload, EMPTY)
  }

  function MaskItems(items: seq<Payload>, rules: seq<Rule>): (seq<Payload>, Report)
    decreases items
  {
    if items == [] then ([], EMPTY)
    else
      var (first, report) := MaskPayload(items[0], rules);
      var (masked, rest) := MaskItems(items[1..], rules);
      ([first] + masked, Merge(report, rest))
  }

  function MaskEntries(entries: seq<Entry>, rules: seq<Rule>): (seq<Entry>, Report)
    decreases entries
  {
    if entries == [] then ([], EMPTY)
    else
      var (first, report) := MaskPayload(entries[0].value, rules);
      var (masked, rest) := MaskEntries(entries[1..], rules);
      ([Entry(entries[0].key, first)] + masked, Merge(report, rest))
  }

  method RunMaskPayload(payload: Payload, rules: seq<Rule>) returns (masked: Payload, report: Report)
    ensures (masked, report) == MaskPayload(payload, rules)
    decreases payload
  {
    hide Merge, MaskText;
    match payload {
      case Text(text) =>
        var redacted;
        redacted, report := RunMaskText(text, rules);
        masked := Text(redacted);
      case Mapping(entries) =>
        var done;
        done, report := RunMaskEntries(entries, rules);
        masked := Mapping(done);
      case Listing(items) =>
        var done;
        done, report := RunMaskItems(items, rules);
        masked := Listing(done);
      case Tuple(parts) =>
        var done;
        done, report := RunMaskItems(parts, rules);
        masked := Tuple(done);
      case Scalar(_) => return payload, EMPTY;
    }
  }

  method RunMaskItems(items: seq<Payload>, rules: seq<Rule>) returns (redacted: seq<Payload>, report: Report)
    ensures (redacted, report) == MaskItems(items, rules)
    decreases items, 0
  {
    hide Merge, MaskPayload;
    redacted, report := [], EMPTY;
    EmptyIsIdentity(MaskItems(items, rules).1);
    assert items[0..] == items && [] + MaskItems(items, rules).0 == MaskItems(items, rules).0;
    var i := 0;
    while i < |items|
      invariant 0 <= i <= |items|
      invariant var rest := MaskItems(items[i..], rules);
                MaskItems(items, rules) == (redacted + rest.0, Merge(report, rest.1))
    {
      assert items[i..][1..] == items[i + 1..];
      var maskedItem, childReport := RunMaskPayload(items[i], rules);
      ghost var rest := MaskItems(items[i + 1..], rules);
      MergeIsAssociative(report, childReport, rest.1);
      assert (redacted + [maskedItem]) + rest.0 == redacted + ([maskedItem] + rest.0);
      redacted := redacted + [maskedItem];
      report := Merge(report, childReport);
      i := i + 1;
    }
    assert redacted + [] == redacted;
    EmptyIsIdentity(report);
  }

  method RunMaskEntries(entries: seq<Entry>, rules: seq<Rule>) returns (redacted: seq<Entry>, report: Report)
    ensures (redacted, report) == MaskEntries(entries, rules)
    decreases entries, 0
  {
    hide Merge, MaskPayload;
    redacted, report := [], EMPTY;
    EmptyIsIdentity(MaskEntries(entries, rules).1);
    assert entries[0..] == entries && [] + MaskEntries(entries, rules).0 == MaskEntries(entries, rules).0;
    var i := 0;
    while i < |entries|
      invariant 0 <= i <= |entries|
      invariant var rest := MaskEntries(entries[i..], rules);
                MaskEntries(entries, rules) == (redacted + rest.0, Merge(report, rest.1))
    {
      assert entries[i..][1..] == entries[i + 1..];
      var maskedValue, childReport := RunMaskPayload(entries[i].value, rules);
      ghost var rest := MaskEntries(entries[i + 1..], rules);
      MergeIsAssociative(report, childReport, rest.1);
      var entry := Entry(entries[i].key, maskedValue);
      assert (redacted + [entry]) + rest.0 == redacted + ([entry] + rest.0);
      redacted := redacted + [entry];
      report := Merge(report, childReport);
      i := i + 1;
    }
    assert redacted + [] == redacted;
    EmptyIsIdentity(report);
  }

  // ----- Reports -----

  lemma MergeIsAssociative(a: Report, b: Report, c: Report)
    ensures Merge(Merge(a, b), c) == Merge(a, Merge(b, c))
  {
    assert (a.findings + b.findings) + c.findings == a.findings + (b.findings + c.findings);
  }

  lemma EmptyIsIdentity(r: Report)
    ensures Merge(r, EMPTY) == r && Merge(EMPTY, r) == r
  {
    assert r.findings + [] == r.findings && [] + r.findings == r.findings;
  }

  /** So reports can be merged in any grouping. */
  lemma {:induction false} MergeAllOfSum(a: seq<Report>, b: seq<Report>)
    ensures MergeAll(a + b) == Merge(MergeAll(a), MergeAll(b))
  {
    hide Merge;
    if a == [] {
      assert a + b == b;
      EmptyIsIdentity(MergeAll(b));
    } else {
      assert (a + b)[1..] == a[1..] + b;
      MergeAllOfSum(a[1..], b);
      MergeIsAssociative(a[0], MergeAll(a[1..]), MergeAll(b));
    }
  }

  /** The names of the rules behind the findings. */
  function RulesOf(findings: seq<Finding>): seq<string> {
    if findings == [] then [] else [findings[0].rule] + RulesOf(findings[1..])
  }

  /** The count, the hits per rule and the findings say the same. */
  predicate Balanced(r: Report) {
    r.matchCount == |r.findings| == |r.ruleHits| && r.ruleHits == multiset(RulesOf(r.findings))
  }

  lemma {:induction false} RulesOfSum(a: seq<Finding>, b: seq<Finding>)
    ensures RulesOf(a + b) == RulesOf(a) + RulesOf(b)
  {
    if a == [] {
      assert a + b == b;
    } else {
      assert (a + b)[1..] == a[1..] + b;
      RulesOfSum(a[1..], b);
    }
  }

  lemma MergeKeepsBalance(a: Report, b: Report)
    requires Balanced(a) && Balanced(b)
    ensures Balanced(Merge(a, b))
  {
    RulesOfSum(a.findings, b.findings);
  }

  lemma {:induction false} FindingsOfRule(rule: Rule, matches: seq<string>)
    ensures |Findings(rule, matches)| == |matches|
    ensures multiset(RulesOf(Findings(rule, matches))) == multiset{}[rule.name := |matches|]
  {
    if matches != [] {
      FindingsOfRule(rule, matches[1..]);
      var rest := Findings(rule, matches[1..]);
      assert ([Finding(rule.name, rule.description, matches[0])] + rest)[1..] == rest;
    }
  }

  lemma {:induction false} TextReportIsBalanced(text: string, rules: seq<Rule>)
    ensures Balanced(ApplyRules(text, rules).1)
    decreases |rules|
  {
    hide Merge, Findings;
    if rules != [] {
      var matches := rules[0].find(text);
      if matches == [] {
        TextReportIsBalanced(text, rules[1..]);
      } else {
        TextReportIsBalanced(rules[0].substitute(text), rules[1..]);
        FindingsOfRule(rules[0], matches);
        OneRuleCounts(rules[0].name, |matches|);
        MergeKeepsBalance(HitsOf(rules[0], matches),
                          ApplyRules(rules[0].substitute(text), rules[1..]).1);
      }
    }
  }

  // ----- Whole payloads -----

  /** The texts of a payload, in order. */
  function Leaves(payload: Payload): seq<string>
    decreases payload
  {
    match payload
    case Text(text) => [text]
    case Mapping(entries) => EntryLeaves(entries)
    case Listing(items) => ItemLeaves(items)
    case Tuple(parts) => ItemLeaves(parts)
    case Scalar(_) => []
  }

  function ItemLeaves(items: seq<Payload>): seq<string>
    decreases items
  {
    if items == [] then [] else Leaves(items[0]) + ItemLeaves(items[1..])
  }

  function EntryLeaves(entries: seq<Entry>): seq<string>
    decreases entries
  {
    if entries == [] then [] else Leaves(entries[0].value) + EntryLeaves(entries[1..])
  }

  function LeafReports(texts: seq<string>, rules: seq<Rule>): seq<Report> {
    if texts == [] then [] else [MaskText(texts[0], rules).1] + LeafReports(texts[1..], rules)
  }

  lemma {:induction false} LeafReportsOfSum(a: seq<string>, b: seq<string>, rules: seq<Rule>)
    ensures LeafReports(a + b, rules) == LeafReports(a, rules) + LeafReports(b, rules)
  {
    hide MaskText;
    if a == [] {
      assert a + b == b;
    } else {
      assert (a + b)[1..] == a[1..] + b;
      LeafReportsOfSum(a[1..], b, rules);
    }
  }

  lemma ReportsSplit(a: seq<string>, b: seq<string>, rules: seq<Rule>)
    ensures MergeAll(LeafReports(a + b, rules)) == Merge(MergeAll(LeafReports(a, rules)), MergeAll(LeafReports(b, rules)))
  {
    LeafReportsOfSum(a, b, rules);
    MergeAllOfSum(LeafReports(a, rules), LeafReports(b, rules));
  }

  lemma OneLeaf(text: string, rules: seq<Rule>)
    ensures MergeAll(LeafReports([text], rules)) == MaskText(text, rules).1
  {
    hide MaskText;
    assert [text][1..] == [];
    assert LeafReports([text], rules) == [MaskText(text, rules).1] + LeafReports([], rules);
    assert MergeAll(LeafReports([text], rules)) == Merge(MaskText(text, rules).1, MergeAll([]));
    EmptyIsIdentity(MaskText(text, rules).1);
  }

  /** The report of a payload is that of its texts, each masked by itself, merged in order: nothing is
      counted twice or lost on the way up. */
  lemma {:induction false} ReportIsThatOfLeaves(payload: Payload, rules: seq<Rule>)
    ensures MaskPayload(payload, rules).1 == MergeAll(LeafReports(Leaves(payload), rules))
    decreases payload
  {
    hide MaskText, MergeAll, LeafReports;
    match payload
    case Text(text) => OneLeaf(text, rules);
    case Mapping(entries) => EntriesReport(entries, rules);
    case Listing(items) => ItemsReport(items, rules);
    case Tuple(parts) => ItemsReport(parts, rules);
    case Scalar(_) => NoLeaves(rules);
  }

  lemma NoLeaves(rules: seq<Rule>)
    ensures MergeAll(LeafReports([], rules)) == EMPTY
  {
  }

  lemma {:induction false} ItemsReport(items: seq<Payload>, rules: seq<Rule>)
    ensures MaskItems(items, rules).1 == MergeAll(LeafReports(ItemLeaves(items), rules))
    decreases items
  {
    hide MaskPayload, MergeAll, LeafReports, Merge;
    if items == [] {
      NoLeaves(rules);
    } else {
      ReportIsThatOfLeaves(items[0], rules);
      ItemsReport(items[1..], rules);
      ReportsSplit(Leaves(items[0]), ItemLeaves(items[1..]), rules);
    }
  }

  lemma {:induction false} EntriesReport(entries: seq<Entry>, rules: seq<Rule>)
    ensures MaskEntries(entries, rules).1 == MergeAll(LeafReports(EntryLeaves(entries), rules))
    decreases entries
  {
    hide MaskPayload, MergeAll, LeafReports, Merge;
    if entries == [] {
      NoLeaves(rules);
    } else {
      ReportIsThatOfLeaves(entries[0].value, rules);
      EntriesReport(entries[1..], rules);
      ReportsSplit(Leaves(entries[0].value), EntryLeaves(entries[1..]), rules);
    }
  }

  lemma {:induction false} MergedLeavesAreBalanced(texts: seq<string>, rules: seq<Rule>)
    ensures Balanced(MergeAll(LeafReports(texts, rules)))
  {
    hide Merge, ApplyRules;
    if texts != [] {
      MergedLeavesAreBalanced(texts[1..], rules);
      TextReportIsBalanced(texts[0], rules);
      MergeKeepsBalance(MaskText(texts[0], rules).1, MergeAll(LeafReports(texts[1..], rules)));
      var rest := LeafReports(texts[1..], rules);
      assert ([MaskText(texts[0], rules).1] + rest)[1..] == rest;
    }
  }

  /** For every payload the number of matches is that of the findings and the sum of the rule hits, and
      every hit of a rule has its finding. */
  lemma PayloadReportIsBalanced(payload: Payload, rules: seq<Rule>)
    ensures Balanced(MaskPayload(payload, rules).1)
  {
    ReportIsThatOfLeaves(payload, rules);
    MergedLeavesAreBalanced(Leaves(payload), rules);
  }

  // ----- Shape -----

  /** The payload with every text replaced, and nothing else. */
  function MapTexts(f: string -> string, payload: Payload): Payload
    decreases payload
  {
    match payload
    case Text(text) => Text(f(text))
    case Mapping(entries) => Mapping(seq(|entries|, i requires 0 <= i < |entries| => Entry(entries[i].key, MapTexts(f, entries[i].value))))
    case Listing(items) => Listing(seq(|items|, i requires 0 <= i < |items| => MapTexts(f, items[i])))
    case Tuple(parts) => Tuple(seq(|parts|, i requires 0 <= i < |parts| => MapTexts(f, parts[i])))
    case Scalar(_) => payload
  }

  function Masker(rules: seq<Rule>): string -> string {
    text => MaskText(text, rules).0
  }

  /** Masking keeps the shape, the keys and whatever is not text. */
  lemma {:induction false} OnlyTextsChange(payload: Payload, rules: seq<Rule>)
    ensures MaskPayload(payload, rules).0 == MapTexts(Masker(rules), payload)
    decreases payload
  {
    hide MaskText;
    match payload
    case Text(_) =>
    case Mapping(entries) => EntriesKeepShape(entries, rules);
    case Listing(items) => ItemsKeepShape(items, rules);
    case Tuple(parts) => ItemsKeepShape(parts, rules);
    case Scalar(_) =>
  }

  lemma {:induction false} ItemsKeepShape(items: seq<Payload>, rules: seq<Rule>)
    ensures |MaskItems(items, rules).0| == |items|
    ensures forall i :: 0 <= i < |items| ==> MaskItems(items, rules).0[i] == MapTexts(Masker(rules), items[i])
    decreases items
  {
    hide MaskPayload, MapTexts, Masker;
    if items != [] {
      OnlyTextsChange(items[0], rules);
      ItemsKeepShape(items[1..], rules);
    }
  }

  lemma {:induction false} EntriesKeepShape(entries: seq<Entry>, rules: seq<Rule>)
    ensures |MaskEntries(entries, rules).0| == |entries|
    ensures forall i :: 0 <= i < |entries| ==>
              MaskEntries(entries, rules).0[i] == Entry(entries[i].key, MapTexts(Masker(rules), entries[i].value))
    decreases entries
  {
    hide MaskPayload, MapTexts, Masker;
    if entries != [] {
      OnlyTextsChange(entries[0].value, rules);
      EntriesKeepShape(entries[1..], rules);
    }
  }

  // ----- Nothing found, nothing changed -----

  lemma {:induction false} QuietTextIsUnchanged(text: string, rules: seq<Rule>)
    requires ApplyRules(text, rules).1.matchCount == 0
    ensures ApplyRules(text, rules).0 == text
    decreases |rules|
  {
    if rules != [] {
      var matches := rules[0].find(text);
      if matches == [] {
        QuietTextIsUnchanged(text, rules[1..]);
      } else {
        TextReportIsBalanced(rules[0].substitute(text), rules[1..]);
      }
    }
  }

  lemma CountsAreNatural(payload: Payload, rules: seq<Rule>)
    ensures MaskPayload(payload, rules).1.matchCount >= 0
  {
    hide MaskPayload;
    PayloadReportIsBalanced(payload, rules);
  }

  lemma ItemsCountIsNatural(items: seq<Payload>, rules: seq<Rule>)
    ensures MaskItems(items, rules).1.matchCount >= 0
  {
    CountsAreNatural(Listing(items), rules);
  }

  lemma EntriesCountIsNatural(entries: seq<Entry>, rules: seq<Rule>)
    ensures MaskEntries(entries, rules).1.matchCount >= 0
  {
    CountsAreNatural(Mapping(entries), rules);
  }

  /** A report of no match means that the payload is as it was. */
  lemma {:induction false} NoMatchNoChange(payload: Payload, rules: seq<Rule>)
    requires MaskPayload(payload, rules).1.matchCount == 0
    ensures MaskPayload(payload, rules).0 == payload
    decreases payload
  {
    hide ApplyRules;
    match payload
    case Text(text) => if text != "" { QuietTextIsUnchanged(text, rules); }
    case Mapping(entries) => QuietEntries(entries, rules);
    case Listing(items) => QuietItems(items, rules);
    case Tuple(parts) => QuietItems(parts, rules);
    case Scalar(_) =>
  }

  lemma {:induction false} QuietItems(items: seq<Payload>, rules: seq<Rule>)
    requires MaskItems(items, rules).1.matchCount == 0
    ensures MaskItems(items, rules).0 == items
    decreases items
  {
    hide MaskPayload;
    if items != [] {
      CountsAreNatural(items[0], rules);
      ItemsCountIsNatural(items[1..], rules);
      NoMatchNoChange(items[0], rules);
      QuietItems(items[1..], rules);
    }
  }

  lemma {:induction false} QuietEntries(entries: seq<Entry>, rules: seq<Rule>)
    requires MaskEntries(entries, rules).1.matchCount == 0
    ensures MaskEntries(entries, rules).0 == entries
    decreases entries
  {
    hide MaskPayload;
    if entries != [] {
      CountsAreNatural(entries[0].value, rules);
      EntriesCountIsNatural(entries[1..], rules);
      NoMatchNoChange(entries[0].value, rules);
      QuietEntries(entries[1..], rules);
    }
  }
}
