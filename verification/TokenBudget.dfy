/** Fitting items into a token budget: keep items while the whole trial prompt still fits. */
module TokenBudget {

  /** A counter of rendered messages: the model's own, or the heuristic below. */
  type Counter = seq<string> -> nat

  predicate Fits(count: Counter, base: seq<string>, items: seq<string>, budget: int) {
    count(base + items) <= budget
  }

  /** `k` items are kept: every nonempty prefix up to them fits, and one more would not. */
  ghost predicate StopsAt(count: Counter, base: seq<string>, items: seq<string>, budget: int, k: int) {
    && 0 <= k <= |items|
    && (budget <= 0 ==> k == 0)
    && (forall j :: 1 <= j <= k ==> Fits(count, base, items[..j], budget))
    && (budget > 0 && k < |items| ==> !Fits(count, base, items[..k + 1], budget))
  }

  /** The loop as it runs: every trial recounts the base messages, all kept items and the next. */
  method FitItemsToBudget(items: seq<string>, budget: int, base: seq<string>, count: Counter) returns (kept: seq<string>)
    ensures kept <= items && StopsAt(count, base, items, budget, |kept|)
    ensures kept != [] ==> count(base + kept) <= budget
  {
    kept := [];
    if budget <= 0 { return; }
    var i := 0;
    while i < |items|
      invariant 0 <= i <= |items| && kept == items[..i]
      invariant forall j :: 1 <= j <= i ==> Fits(count, base, items[..j], budget)
    {
      var trial := base + kept + [items[i]];
      assert trial == base + items[..i + 1];
      if count(trial) > budget { break; }
      kept := kept + [items[i]];
      i := i + 1;
    }
    assert kept != [] ==> Fits(count, base, items[..|kept|], budget);
  }

  /** Where the loop stops is determined, whatever the counter. */
  lemma StopsOnce(count: Counter, base: seq<string>, items: seq<string>, budget: int, j: int, k: int)
    requires StopsAt(count, base, items, budget, j) && StopsAt(count, base, items, budget, k)
    ensures j == k
  {
  }

  /** A larger budget only extends what is kept. */
  lemma LargerBudgetExtends(count: Counter, base: seq<string>, items: seq<string>, small: int, large: int, j: int, k: int)
    requires small <= large
    requires StopsAt(count, base, items, small, j) && StopsAt(count, base, items, large, k)
    ensures j <= k && items[..j] <= items[..k]
  {
  }

  // ----- The heuristic counter -----

  /** Four tokens on top of each message, and two for the whole. */
  function Recount(estimate: string -> nat, messages: seq<string>): nat {
    Cost(estimate, messages) + 2
  }

  function Cost(estimate: string -> nat, messages: seq<string>): nat {
    if messages == [] then 0 else estimate(messages[0]) + 4 + Cost(estimate, messages[1..])
  }

  lemma {:induction false} CostOfSum(estimate: string -> nat, a: seq<string>, b: seq<string>)
    ensures Cost(estimate, a + b) == Cost(estimate, a) + Cost(estimate, b)
  {
    if a == [] {
      assert a + b == b;
    } else {
      assert (a + b)[1..] == a[1..] + b;
      CostOfSum(estimate, a[1..], b);
    }
  }

  /** No message costs two tokens, and each message four more than its text. */
  lemma RecountMeans(estimate: string -> nat, messages: seq<string>, next: string)
    ensures Recount(estimate, []) == 2
    ensures Recount(estimate, messages + [next]) == Recount(estimate, messages) + estimate(next) + 4
  {
    CostOfSum(estimate, messages, [next]);
    assert [next][1..] == [];
  }

  /** Add up what is kept instead of recounting it for every item. */
  method FitWithRunningSum(items: seq<string>, budget: int, base: seq<string>, estimate: string -> nat)
      returns (kept: seq<string>)
    ensures kept <= items
    ensures StopsAt(m => Recount(estimate, m), base, items, budget, |kept|)
  {
    kept := [];
    if budget <= 0 { return; }
    var spent := Cost(estimate, base) + 2;
    var i := 0;
    assert base + items[..0] == base;
    while i < |items|
      invariant 0 <= i <= |items| && kept == items[..i]
      invariant spent == Recount(estimate, base + items[..i])
      invariant forall j :: 1 <= j <= i ==> Fits(m => Recount(estimate, m), base, items[..j], budget)
    {
      CostOfSum(estimate, base + items[..i], [items[i]]);
      assert [items[i]][1..] == [];
      assert base + items[..i + 1] == base + items[..i] + [items[i]];
      if spent + estimate(items[i]) + 4 > budget { break; }
      spent := spent + estimate(items[i]) + 4;
      kept := kept + [items[i]];
      i := i + 1;
    }
  }

  // ----- When what is kept is the longest prefix that fits -----

  /** The counter does not fall as items are added, except from a count that every budget allows. */
  ghost predicate NeverFalls(count: Counter, base: seq<string>, items: seq<string>) {
    forall a, b :: 1 <= a <= b <= |items| ==> count(base + items[..a]) <= count(base + items[..b]) || count(base + items[..a]) <= 1
  }

  /** For every budget, a nonempty prefix fits exactly if it is no longer than what is kept. */
  ghost predicate KeepsLongest(count: Counter, base: seq<string>, items: seq<string>) {
    forall budget, k, j | budget > 0 && 1 <= j <= |items| && StopsAt(count, base, items, budget, k) ::
      Fits(count, base, items[..j], budget) <==> j <= k
  }

  /** The number of items the loop keeps from the `i`-th on. */
  function KeptFrom(count: Counter, base: seq<string>, items: seq<string>, budget: int, i: nat): nat
    requires i <= |items|
    decreases |items| - i
  {
    if i < |items| && Fits(count, base, items[..i + 1], budget) then KeptFrom(count, base, items, budget, i + 1) else i
  }

  lemma {:induction false} StopsSomewhere(count: Counter, base: seq<string>, items: seq<string>, budget: int, i: nat)
    requires budget > 0 && i <= |items| && forall j :: 1 <= j <= i ==> Fits(count, base, items[..j], budget)
    ensures StopsAt(count, base, items, budget, KeptFrom(count, base, items, budget, i))
    decreases |items| - i
  {
    if i < |items| && Fits(count, base, items[..i + 1], budget) { StopsSomewhere(count, base, items, budget, i + 1); }
  }

  /** With a counter that never falls along the items, the kept prefix is the longest that fits. */
  lemma LongestThatFits(count: Counter, base: seq<string>, items: seq<string>, budget: int, k: int, j: int)
    requires NeverFalls(count, base, items) && budget > 0 && 1 <= j <= |items|
    requires StopsAt(count, base, items, budget, k)
    ensures Fits(count, base, items[..j], budget) <==> j <= k
  {
    if j > k { assert !Fits(count, base, items[..k + 1], budget); }
  }

  /** ... and with no other counter: if it falls, for some budget the loop stops before a prefix that fits. */
  lemma LongestThatFitsIff(count: Counter, base: seq<string>, items: seq<string>)
    ensures KeepsLongest(count, base, items) <==> NeverFalls(count, base, items)
  {
    if NeverFalls(count, base, items) {
      forall budget, k, j | budget > 0 && 1 <= j <= |items| && StopsAt(count, base, items, budget, k)
        ensures Fits(count, base, items[..j], budget) <==> j <= k
      {
        LongestThatFits(count, base, items, budget, k, j);
      }
    } else {
      var a, b :| 1 <= a <= b <= |items| && count(base + items[..a]) > count(base + items[..b]) && count(base + items[..a]) > 1;
      var budget := count(base + items[..a]) - 1;
      StopsSomewhere(count, base, items, budget, 0);
      var k := KeptFrom(count, base, items, budget, 0);
      assert Fits(count, base, items[..b], budget) && !Fits(count, base, items[..a], budget);
      assert k < a;
    }
  }

  /** The heuristic never falls. */
  lemma HeuristicNeverFalls(estimate: string -> nat, base: seq<string>, items: seq<string>)
    ensures NeverFalls(m => Recount(estimate, m), base, items)
  {
    forall a, b | 1 <= a <= b <= |items| ensures Recount(estimate, base + items[..a]) <= Recount(estimate, base + items[..b]) {
      assert base + items[..b] == (base + items[..a]) + items[a..b];
      CostOfSum(estimate, base + items[..a], items[a..b]);
    }
  }

  /** A counter that reads the messages as one text, in which a known word is a single token. */
  function CountAsText(words: set<string>, messages: seq<string>): nat {
    var text := Joined(messages);
    if text in words then 1 else |text|
  }

  function Joined(messages: seq<string>): string {
    if messages == [] then "" else messages[0] + Joined(messages[1..])
  }

  /** It falls where an item completes a word: the loop stops at the word's beginning, although the whole
      word would fit. */
  lemma FirstMisfitStops(words: set<string>, head: string, rest: string)
    requires head !in words && head + rest in words && |head| > 1
    ensures var count, budget := m => CountAsText(words, m), |head| - 1;
            StopsAt(count, [], [head, rest], budget, 0) && Fits(count, [], [head, rest], budget)
  {
    var items := [head, rest];
    assert [] + items[..1] == [head] && [head][1..] == [] && Joined([head]) == head + Joined([]) == head;
    assert [rest][1..] == [] && Joined([rest]) == rest + Joined([]) == rest;
    assert [] + items == items && items[1..] == [rest] && Joined(items) == head + rest;
  }
}
