/** The outputs of an analysis: sorted, listed under ids that carry their position, and resolved from
    such an id later. */
module OutputIds {
  import opened Values
  import opened DecimalText
  import opened Sorting

  datatype Category = Report | Chart | Export | Diagnostic

  /** `category` is the explicit one or, without it, what the type or the suffix of the path says. */
  datatype Entry = Entry(category: Category, name: string, title: string, path: string, content: string)

  datatype Listed = Listed(id: string, title: string)

  function Rank(c: Category): nat {
    match c
    case Report => 0
    case Chart => 1
    case Export => 2
    case Diagnostic => 3
  }

  /** Texts compare by their first difference, a proper prefix first. */
  predicate TextLe(a: string, b: string) {
    a == "" || (b != "" && (a[0] < b[0] || (a[0] == b[0] && TextLe(a[1..], b[1..]))))
  }

  /** `category_rank`, lower-case title, lower-case path. */
  predicate KeyLe(a: (nat, string, string), b: (nat, string, string)) {
    a.0 < b.0 || (a.0 == b.0 && if a.1 == b.1 then TextLe(a.2, b.2) else TextLe(a.1, b.1))
  }

  function SortKey(e: Entry): (nat, string, string) {
    var title := if e.name != "" then e.name else if e.title != "" then e.title else e.path;
    (Rank(e.category), Lower(Trim(title)), Lower(Trim(e.path)))
  }

  predicate EntryLe(a: Entry, b: Entry) {
    KeyLe(SortKey(a), SortKey(b))
  }

  function SortOutputs(outputs: seq<Entry>): seq<Entry> {
    StableSort(EntryLe, outputs)
  }

  /** Positions are counted from zero here and from one in the text. */
  function OutputId(task: string, position: nat): string {
    "output_" + task + "_" + Digits(position + 1)
  }

  function Present(task: string, entry: Entry, position: nat): Listed {
    Listed(OutputId(task, position), if entry.name != "" then entry.name else "输出 " + Digits(position + 1))
  }

  function Listing(task: string, outputs: seq<Entry>): seq<Listed> {
    var sorted := SortOutputs(outputs);
    seq(|sorted|, i requires 0 <= i < |sorted| => Present(task, sorted[i], i))
  }

  method BuildAnalysisOutputs(task: string, outputs: seq<Entry>) returns (items: seq<Listed>)
    ensures items == Listing(task, outputs)
  {
    hide SortOutputs, Present;
    var sorted := SortOutputs(outputs);
    items := [];
    for i := 0 to |sorted|
      invariant |items| == i
      invariant forall k :: 0 <= k < i ==> items[k] == Present(task, sorted[k], k)
    {
      items := items + [Present(task, sorted[i], i)];
    }
  }

  /** Resolving an id: the outputs are sorted, listed (and so sorted again), the item with the id is
      looked up, and the position is read from the id. None is "no such output". */
  method ResolveOutput(task: string, outputs: seq<Entry>, id: string) returns (target: Option<Listed>, entry: Option<Entry>)
    ensures forall i :: 0 <= i < |SortOutputs(outputs)| && id == OutputId(task, i) ==>
              target == Some(Listing(task, outputs)[i]) && entry == Some(SortOutputs(outputs)[i])
    ensures (forall i :: 0 <= i < |SortOutputs(outputs)| ==> id != OutputId(task, i)) ==> target == None && entry == None
  {
    hide SortOutputs, OutputId, ParseDecimal, LastPart;
    var sorted := SortOutputs(outputs);
    SortTwiceIsSortOnce(outputs);
    var items := BuildAnalysisOutputs(task, sorted);
    target := None;
    ghost var at := 0;
    for i := 0 to |items|
      invariant target.Some? ==> at < i && id == OutputId(task, at) && target.value == items[at]
      invariant target.None? ==> forall k :: 0 <= k < i ==> id != OutputId(task, k)
    {
      if target.None? && items[i].id == id {
        target := Some(items[i]);
        at := i;
      }
    }
    if target.None? { return None, None; }
    forall i: nat | id == OutputId(task, i) ensures i == at && ParseDecimal(LastPart(id, '_')) == Some(i + 1) {
      IdsDiffer(task, i, at);
      PositionInId(task, i);
    }
    var number := ParseDecimal(LastPart(id, '_'));
    if number.None? { return target, None; }
    var index := number.value - 1;
    if index < 0 || index >= |sorted| { return target, None; }
    entry := Some(sorted[index]);
  }

  // ----- The ordering -----

  lemma {:induction false} TextTotal(a: string, b: string)
    ensures TextLe(a, b) || TextLe(b, a)
  {
    if a != "" && b != "" { TextTotal(a[1..], b[1..]); }
  }

  lemma {:induction false} TextTransitive(a: string, b: string, c: string)
    requires TextLe(a, b) && TextLe(b, c)
    ensures TextLe(a, c)
  {
    if a != "" && a[0] == b[0] == c[0] { TextTransitive(a[1..], b[1..], c[1..]); }
  }

  lemma {:induction false} TextAntisymmetric(a: string, b: string)
    requires TextLe(a, b) && TextLe(b, a)
    ensures a == b
  {
    if a != "" && b != "" {
      TextAntisymmetric(a[1..], b[1..]);
      assert a == [a[0]] + a[1..] && b == [b[0]] + b[1..];
    }
  }

  lemma KeyTransitive(a: (nat, string, string), b: (nat, string, string), c: (nat, string, string))
    requires KeyLe(a, b) && KeyLe(b, c)
    ensures KeyLe(a, c)
  {
    hide TextLe;
    if a.0 == b.0 == c.0 {
      if a.1 == b.1 == c.1 {
        TextTransitive(a.2, b.2, c.2);
      } else if a.1 != b.1 && b.1 != c.1 {
        TextTransitive(a.1, b.1, c.1);
        if a.1 == c.1 { TextAntisymmetric(a.1, b.1); }
      }
    }
  }

  lemma EntriesAreOrdered()
    ensures TotalPreorder(EntryLe)
  {
    hide KeyLe, SortKey;
    forall a, b ensures EntryLe(a, b) || EntryLe(b, a) { KeyTotal(SortKey(a), SortKey(b)); }
    forall a, b, c | EntryLe(a, b) && EntryLe(b, c) ensures EntryLe(a, c) {
      KeyTransitive(SortKey(a), SortKey(b), SortKey(c));
    }
  }

  lemma KeyTotal(a: (nat, string, string), b: (nat, string, string))
    ensures KeyLe(a, b) || KeyLe(b, a)
  {
    TextTotal(a.1, b.1);
    TextTotal(a.2, b.2);
  }

  lemma SortKeepsEntries(outputs: seq<Entry>)
    ensures |SortOutputs(outputs)| == |outputs| && multiset(SortOutputs(outputs)) == multiset(outputs)
  {
    EntriesAreOrdered();
    SortSorts(EntryLe, outputs);
    assert |multiset(SortOutputs(outputs))| == |multiset(outputs)|;
  }

  /** Sorting the sorted outputs again changes nothing. */
  lemma SortTwiceIsSortOnce(outputs: seq<Entry>)
    ensures SortOutputs(SortOutputs(outputs)) == SortOutputs(outputs)
  {
    EntriesAreOrdered();
    SortSorts(EntryLe, outputs);
    SortedIsFixed(EntryLe, SortOutputs(outputs));
  }

  // ----- Ids -----

  /** The number behind the last underscore is the position, whatever the task is called. */
  lemma PositionInId(task: string, position: nat)
    ensures ParseDecimal(LastPart(OutputId(task, position), '_')) == Some(position + 1)
  {
    hide Digits, ParseDecimal, LastPart;
    DigitsAreDigits(position + 1);
    LastPartOf("output_" + task + "_", Digits(position + 1), '_');
    ParseOfDigits(position + 1);
  }

  lemma IdsDiffer(task: string, i: nat, j: nat)
    requires OutputId(task, i) == OutputId(task, j)
    ensures i == j
  {
    PositionInId(task, i);
    PositionInId(task, j);
  }

  /** Listing and then resolving: every output is listed, and the id of the i-th listed item finds that
      item again and picks the entry that it was made from. */
  method ListThenResolve(task: string, outputs: seq<Entry>, i: nat) returns (item: Listed, target: Option<Listed>, entry: Option<Entry>)
    requires i < |outputs|
    ensures i < |SortOutputs(outputs)| && entry == Some(SortOutputs(outputs)[i]) && entry.value in outputs
    ensures item == Present(task, entry.value, i) && target == Some(item)
    ensures item.id == "output_" + task + "_" + Digits(i + 1)
    ensures item.title == if entry.value.name != "" then entry.value.name else "输出 " + Digits(i + 1)
  {
    hide SortOutputs, Digits;
    var items := BuildAnalysisOutputs(task, outputs);
    SortKeepsEntries(outputs);
    item := items[i];
    target, entry := ResolveOutput(task, outputs, item.id);
    assert SortOutputs(outputs)[i] in multiset(SortOutputs(outputs));
  }

  // ----- What the order is -----

  /** Up to `k` the texts agree; there the one has ended, or has the smaller character. */
  ghost predicate SmallerAt(a: string, b: string, k: int) {
    && 0 <= k <= |a| && k <= |b| && (forall i :: 0 <= i < k ==> a[i] == b[i])
    && (k == |a| || (k < |b| && a[k] < b[k]))
  }

  ghost predicate Precedes(a: string, b: string) {
    exists k :: SmallerAt(a, b, k)
  }

  lemma {:induction false} TextLeMeans(a: string, b: string)
    ensures TextLe(a, b) <==> Precedes(a, b)
  {
    if a == "" {
      assert SmallerAt(a, b, 0);
    } else if b != "" {
      TextLeMeans(a[1..], b[1..]);
      PrecedesFromHead(a, b);
    }
  }

  lemma PrecedesFromHead(a: string, b: string)
    requires a != "" && b != ""
    ensures Precedes(a, b) <==> a[0] < b[0] || (a[0] == b[0] && Precedes(a[1..], b[1..]))
  {
    if k :| SmallerAt(a, b, k) {
      if k > 0 {
        assert a[0] == b[0];
        assert SmallerAt(a[1..], b[1..], k - 1);
      }
    }
    if a[0] < b[0] { assert SmallerAt(a, b, 0); }
    if a[0] == b[0] && Precedes(a[1..], b[1..]) {
      var k :| SmallerAt(a[1..], b[1..], k);
      forall i | 0 <= i < k + 1 ensures a[i] == b[i] { if i > 0 { assert a[1..][i - 1] == b[1..][i - 1]; } }
      assert SmallerAt(a, b, k + 1);
    }
  }

  /** What an output is sorted under: its name, or its title, or its path. */
  function Heading(e: Entry): string {
    Lower(Trim(if e.name == "" then (if e.title == "" then e.path else e.title) else e.name))
  }

  /** Reports come first, then charts, exports and diagnostics. */
  predicate Before(a: Category, b: Category) {
    match a
    case Report => b != Report
    case Chart => b == Export || b == Diagnostic
    case Export => b == Diagnostic
    case Diagnostic => false
  }

  /** The listed outputs, pair by pair: by category, then by heading, then by path, without regard to case. */
  lemma OutputsAreInOrder(outputs: seq<Entry>, i: nat, j: nat)
    requires i < j < |SortOutputs(outputs)|
    ensures var a, b := SortOutputs(outputs)[i], SortOutputs(outputs)[j];
            || Before(a.category, b.category)
            || (a.category == b.category && Heading(a) != Heading(b) && Precedes(Heading(a), Heading(b)))
            || (a.category == b.category && Heading(a) == Heading(b) && Precedes(Lower(Trim(a.path)), Lower(Trim(b.path))))
    ensures multiset(SortOutputs(outputs)) == multiset(outputs)
  {
    hide Trim, Lower, TextLe, Precedes;
    EntriesAreOrdered();
    SortSorts(EntryLe, outputs);
    var a, b := SortOutputs(outputs)[i], SortOutputs(outputs)[j];
    assert EntryLe(a, b);
    TextLeMeans(Heading(a), Heading(b));
    TextLeMeans(Lower(Trim(a.path)), Lower(Trim(b.path)));
  }
}
