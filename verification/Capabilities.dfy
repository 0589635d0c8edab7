/** The capability registry: lookup by id or alias, and resolving lists of names. */
module Capabilities {
  import opened ListLaws
  import opened Values

  datatype Access = NoNetwork | ToolMediated | OtherAccess(text: string)

  datatype Capability = Capability(id: string, aliases: seq<string>, network: Access, executesCode: bool)

  /** `str(name).strip().lower()` */
  function Fold(name: string): string {
    Lower(Trim(name))
  }

  predicate Matches(c: Capability, name: string) {
    Fold(name) != "" && (Fold(name) == c.id || Fold(name) in c.aliases)
  }

  function FindId(capabilities: seq<Capability>, id: string): Option<Capability> {
    if capabilities == [] then None
    else if capabilities[0].id == id then Some(capabilities[0])
    else FindId(capabilities[1..], id)
  }

  function FindMatch(capabilities: seq<Capability>, name: string): Option<Capability> {
    if capabilities == [] then None
    else if Matches(capabilities[0], name) then Some(capabilities[0])
    else FindMatch(capabilities[1..], name)
  }

  /** An id is looked up before any alias. */
  function Lookup(capabilities: seq<Capability>, name: string): Option<Capability> {
    var lowered := Fold(name);
    if lowered == "" then None
    else if FindId(capabilities, lowered).Some? then FindId(capabilities, lowered)
    else FindMatch(capabilities, lowered)
  }

  /** What the names refer to, in order, repeats included. */
  function Found(capabilities: seq<Capability>, names: seq<string>): seq<Capability> {
    if names == [] then [] else FoundOne(capabilities, names[0]) + Found(capabilities, names[1..])
  }

  function FoundOne(capabilities: seq<Capability>, name: string): seq<Capability> {
    var c := Lookup(capabilities, name);
    if c.Some? then [c.value] else []
  }

  function Unknown(capabilities: seq<Capability>, names: seq<string>): seq<string> {
    if names == [] then [] else UnknownOne(capabilities, names[0]) + Unknown(capabilities, names[1..])
  }

  function UnknownOne(capabilities: seq<Capability>, name: string): seq<string> {
    if Lookup(capabilities, name).None? && Trim(name) != "" then [Trim(name)] else []
  }

  function Resolved(capabilities: seq<Capability>, names: seq<string>): seq<Capability> {
    Dedup(Found(capabilities, names))
  }

  function IdsOf(capabilities: seq<Capability>): seq<string> {
    if capabilities == [] then [] else [capabilities[0].id] + IdsOf(capabilities[1..])
  }

  function NormalizeNames(capabilities: seq<Capability>, names: seq<string>): seq<string> {
    IdsOf(Resolved(capabilities, names)) + Unknown(capabilities, names)
  }

  ghost predicate DistinctIds(capabilities: seq<Capability>) {
    forall i, j :: 0 <= i < j < |capabilities| ==> capabilities[i].id != capabilities[j].id
  }

  function Registered(capabilities: seq<Capability>, c: Capability): seq<Capability> {
    if capabilities == [] then [c]
    else if capabilities[0].id == c.id then [c] + capabilities[1..]
    else [capabilities[0]] + Registered(capabilities[1..], c)
  }

  lemma {:induction false} RegisteringKeepsIdsApart(capabilities: seq<Capability>, c: Capability)
    requires DistinctIds(capabilities)
    ensures DistinctIds(Registered(capabilities, c))
    ensures forall d :: d in Registered(capabilities, c) <==> d == c || (d in capabilities && d.id != c.id)
  {
    if capabilities != [] {
      assert capabilities == [capabilities[0]] + capabilities[1..];
      forall d | d in capabilities[1..] ensures d.id != capabilities[0].id {
        var i :| 0 <= i < |capabilities[1..]| && capabilities[1..][i] == d;
        assert capabilities[i + 1] == d;
      }
      RegisteringKeepsIdsApart(capabilities[1..], c);
    }
  }

  class CapabilityRegistry {
    var capabilities: seq<Capability>

    ghost predicate Valid()
      reads this
    {
      DistinctIds(capabilities)
    }

    constructor ()
      ensures Valid() && capabilities == []
    {
      capabilities := [];
    }

    method Register(c: Capability)
      requires Valid()
      modifies this
      ensures Valid() && capabilities == Registered(old(capabilities), c)
    {
      RegisteringKeepsIdsApart(capabilities, c);
      capabilities := Registered(capabilities, c);
    }

    method Get(name: string) returns (c: Option<Capability>)
      ensures c == Lookup(capabilities, name)
    {
      hide Fold, Matches;
      var lowered := Fold(name);
      if lowered == "" { return None; }
      if FindId(capabilities, lowered).Some? { return FindId(capabilities, lowered); }
      var i := 0;
      while i < |capabilities|
        invariant 0 <= i <= |capabilities|
        invariant FindMatch(capabilities[i..], lowered) == FindMatch(capabilities, lowered)
      {
        if Matches(capabilities[i], lowered) { return Some(capabilities[i]); }
        assert capabilities[i..][1..] == capabilities[i + 1..];
        i := i + 1;
      }
      c := None;
    }

    /** The loop remembers ids; ids being distinct, that is remembering capabilities. */
    method ResolveNames(names: seq<string>) returns (resolved: seq<Capability>, unknown: seq<string>)
      requires Valid()
      ensures resolved == Resolved(capabilities, names) && unknown == Unknown(capabilities, names)
    {
      hide Lookup, Trim, DistinctIds, Found, Unknown, Fresh, IdsOf;
      resolved, unknown := [], [];
      NothingToResolve(capabilities);
      var seen: set<string> := {};
      var i := 0;
      while i < |names|
        invariant 0 <= i <= |names|
        invariant resolved + Fresh(resolved, Found(capabilities, names[i..])) == Resolved(capabilities, names)
        invariant unknown + Unknown(capabilities, names[i..]) == Unknown(capabilities, names)
        invariant forall c :: c in resolved ==> c in capabilities
        invariant forall id :: id in seen <==> id in IdsOf(resolved)
      {
        var c := Get(names[i]);
        assert names[i..] == [names[i]] + names[i + 1..];
        ResolvingOneMore(capabilities, names[i], names[i + 1..]);
        i := i + 1;
        if c.None? {
          if Trim(names[i - 1]) != "" { unknown := unknown + [Trim(names[i - 1])]; }
        } else {
          LookupIsRegistered(capabilities, names[i - 1]);
          IdsTellApart(capabilities, resolved, c.value);
          FreshOfCons(resolved, c.value, Found(capabilities, names[i..]));
          if c.value.id !in seen {
            seen := seen + {c.value.id};
            IdsOfSum(resolved, c.value);
            resolved := resolved + [c.value];
          }
        }
      }
      assert names[i..] == [] && resolved + [] == resolved && unknown + [] == unknown;
    }
  }

  lemma NothingToResolve(capabilities: seq<Capability>)
    ensures Found(capabilities, []) == [] && Unknown(capabilities, []) == [] && IdsOf([]) == []
    ensures forall known: seq<Capability> :: Fresh(known, []) == []
  {
  }

  lemma ResolvingOneMore(capabilities: seq<Capability>, name: string, rest: seq<string>)
    ensures var c := Lookup(capabilities, name);
            && Found(capabilities, [name] + rest) ==
                 (if c.Some? then [c.value] + Found(capabilities, rest) else Found(capabilities, rest))
            && Unknown(capabilities, [name] + rest) ==
                 (if c.None? && Trim(name) != "" then [Trim(name)] + Unknown(capabilities, rest) else Unknown(capabilities, rest))
  {
    hide Lookup, Trim;
    assert ([name] + rest)[1..] == rest;
    assert [] + Found(capabilities, rest) == Found(capabilities, rest);
    assert [] + Unknown(capabilities, rest) == Unknown(capabilities, rest);
  }

  lemma FreshOfCons(known: seq<Capability>, c: Capability, rest: seq<Capability>)
    ensures known + Fresh(known, [c] + rest) ==
            if c in known then known + Fresh(known, rest) else (known + [c]) + Fresh(known + [c], rest)
  {
    assert ([c] + rest)[1..] == rest;
    assert known + ([c] + Fresh(known + [c], rest)) == (known + [c]) + Fresh(known + [c], rest);
  }

  lemma {:induction false} IdsOfSum(capabilities: seq<Capability>, c: Capability)
    ensures IdsOf(capabilities + [c]) == IdsOf(capabilities) + [c.id]
  {
    if capabilities == [] {
      assert [] + [c] == [c];
    } else {
      assert (capabilities + [c])[1..] == capabilities[1..] + [c];
      IdsOfSum(capabilities[1..], c);
    }
  }

  lemma {:induction false} InIds(capabilities: seq<Capability>, id: string)
    ensures id in IdsOf(capabilities) <==> exists c :: c in capabilities && c.id == id
  {
    if capabilities != [] {
      InIds(capabilities[1..], id);
      assert capabilities == [capabilities[0]] + capabilities[1..];
    }
  }

  lemma IdsTellApart(capabilities: seq<Capability>, some: seq<Capability>, c: Capability)
    requires DistinctIds(capabilities) && c in capabilities && forall d :: d in some ==> d in capabilities
    ensures c.id in IdsOf(some) <==> c in some
  {
    InIds(some, c.id);
    forall d | d in some && d.id == c.id ensures d == c { SameIdSame(capabilities, c, d); }
  }

  lemma {:induction false} FoundIdIsRegistered(capabilities: seq<Capability>, id: string)
    ensures FindId(capabilities, id).Some? ==> FindId(capabilities, id).value in capabilities
  {
    if capabilities != [] { FoundIdIsRegistered(capabilities[1..], id); }
  }

  lemma {:induction false} FoundMatchIsRegistered(capabilities: seq<Capability>, name: string)
    ensures FindMatch(capabilities, name).Some? ==> FindMatch(capabilities, name).value in capabilities
  {
    if capabilities != [] { FoundMatchIsRegistered(capabilities[1..], name); }
  }

  lemma LookupIsRegistered(capabilities: seq<Capability>, name: string)
    ensures Lookup(capabilities, name).Some? ==> Lookup(capabilities, name).value in capabilities
  {
    FoundIdIsRegistered(capabilities, Fold(name));
    FoundMatchIsRegistered(capabilities, Fold(name));
  }

  // ----- What a name refers to -----

  /** The first capability of which this holds. */
  ghost predicate IsFirst(capabilities: seq<Capability>, c: Capability, wanted: Capability -> bool) {
    exists i :: 0 <= i < |capabilities| && capabilities[i] == c && wanted(c) && forall j :: 0 <= j < i ==> !wanted(capabilities[j])
  }

  lemma {:induction false} FirstWithId(capabilities: seq<Capability>, id: string)
    ensures var wanted := (c: Capability) => c.id == id;
            && (FindId(capabilities, id).None? ==> forall c :: c in capabilities ==> c.id != id)
            && (FindId(capabilities, id).Some? ==> IsFirst(capabilities, FindId(capabilities, id).value, wanted))
  {
    if capabilities != [] {
      FirstWithId(capabilities[1..], id);
      FirstInTail(capabilities, FindId(capabilities, id), (c: Capability) => c.id == id);
    }
  }

  lemma FirstInTail(capabilities: seq<Capability>, found: Option<Capability>, wanted: Capability -> bool)
    requires capabilities != []
    requires wanted(capabilities[0]) ==> found == Some(capabilities[0])
    requires !wanted(capabilities[0]) && found.Some? ==> IsFirst(capabilities[1..], found.value, wanted)
    requires !wanted(capabilities[0]) && found.None? ==> forall c :: c in capabilities[1..] ==> !wanted(c)
    ensures found.Some? ==> IsFirst(capabilities, found.value, wanted)
    ensures found.None? ==> forall c :: c in capabilities ==> !wanted(c)
  {
    assert capabilities == [capabilities[0]] + capabilities[1..];
    if !wanted(capabilities[0]) && found.Some? {
      var rest := capabilities[1..];
      var i :| 0 <= i < |rest| && rest[i] == found.value && wanted(found.value) && forall j :: 0 <= j < i ==> !wanted(rest[j]);
      assert capabilities[i + 1] == found.value;
      forall j | 0 <= j < i + 1 ensures !wanted(capabilities[j]) { if j > 0 { assert rest[j - 1] == capabilities[j]; } }
    }
  }

  lemma {:induction false} FirstWithAlias(capabilities: seq<Capability>, lowered: string)
    requires lowered != "" && Fold(lowered) == lowered && forall c :: c in capabilities ==> c.id != lowered
    ensures var wanted := (c: Capability) => lowered in c.aliases;
            && (FindMatch(capabilities, lowered).None? ==> forall c :: c in capabilities ==> lowered !in c.aliases)
            && (FindMatch(capabilities, lowered).Some? ==> IsFirst(capabilities, FindMatch(capabilities, lowered).value, wanted))
  {
    hide Fold;
    if capabilities != [] {
      assert forall c :: c in capabilities[1..] ==> c in capabilities;
      assert capabilities[0] in capabilities;
      FirstWithAlias(capabilities[1..], lowered);
      FirstInTail(capabilities, FindMatch(capabilities, lowered), (c: Capability) => lowered in c.aliases);
    }
  }

  /** A name, stripped and in lower case, refers to the capability with that id; only if there is none, to the
      first one with that alias; and a blank name refers to nothing. */
  lemma LookupMeans(capabilities: seq<Capability>, name: string)
    ensures var lowered, found := Fold(name), Lookup(capabilities, name);
            var named := exists c :: c in capabilities && c.id == lowered;
            if lowered == "" then found == None
            else if named then found.Some? && IsFirst(capabilities, found.value, (c: Capability) => c.id == lowered)
            else if found.Some? then IsFirst(capabilities, found.value, (c: Capability) => lowered in c.aliases)
            else forall c :: c in capabilities ==> lowered !in c.aliases
  {
    hide Fold;
    var lowered := Fold(name);
    FoldTwice(name);
    FirstWithId(capabilities, lowered);
    if lowered != "" && FindId(capabilities, lowered).None? { FirstWithAlias(capabilities, lowered); }
    if FindId(capabilities, lowered).Some? { FoundIdIsRegistered(capabilities, lowered); }
  }

  // ----- Resolving is a matter of which names, not of how many or in which order -----

  lemma {:induction false} FoundMeans(capabilities: seq<Capability>, names: seq<string>, c: Capability)
    ensures c in Found(capabilities, names) <==> exists n :: n in names && Lookup(capabilities, n) == Some(c)
  {
    hide Lookup;
    if names != [] {
      FoundMeans(capabilities, names[1..], c);
      assert names == [names[0]] + names[1..];
    }
  }

  lemma {:induction false} UnknownMeans(capabilities: seq<Capability>, names: seq<string>, u: string)
    ensures u in Unknown(capabilities, names) <==>
            exists n :: n in names && Lookup(capabilities, n).None? && Trim(n) == u != ""
  {
    hide Lookup, Trim;
    if names != [] {
      UnknownMeans(capabilities, names[1..], u);
      assert names == [names[0]] + names[1..];
    }
  }

  lemma ResolvedMeans(capabilities: seq<Capability>, names: seq<string>, c: Capability)
    ensures c in Resolved(capabilities, names) <==> exists n :: n in names && Lookup(capabilities, n) == Some(c)
    ensures Distinct(Resolved(capabilities, names))
  {
    hide Lookup;
    FoundMeans(capabilities, names, c);
    FreshIsDistinct([], Found(capabilities, names));
    FreshMembers([], Found(capabilities, names), c);
    assert [] + Resolved(capabilities, names) == Resolved(capabilities, names);
  }

  // ----- Normalising twice -----

  /** Some name refers to the capability. */
  ghost predicate Reached(capabilities: seq<Capability>, c: Capability) {
    exists name :: Lookup(capabilities, name) == Some(c)
  }

  predicate NamesItself(capabilities: seq<Capability>, c: Capability) {
    Lookup(capabilities, c.id) == Some(c)
  }

  /** The id is a clean text that refers to no capability, not even its own. */
  predicate NamesNothing(capabilities: seq<Capability>, c: Capability) {
    Lookup(capabilities, c.id).None? && Trim(c.id) == c.id && c.id != ""
  }

  /** Every id refers to its own capability: so it does if ids are lower-case and without outer blanks. */
  ghost predicate SelfNaming(capabilities: seq<Capability>) {
    forall c :: c in capabilities ==> NamesItself(capabilities, c)
  }

  /** The ids of the capabilities within reach are all names of their own, or all no names. */
  ghost predicate IdsOfOneKind(capabilities: seq<Capability>) {
    || (forall c | Reached(capabilities, c) :: NamesItself(capabilities, c))
    || (forall c | Reached(capabilities, c) :: NamesNothing(capabilities, c))
  }

  ghost predicate Idempotent(capabilities: seq<Capability>) {
    forall names :: NormalizeNames(capabilities, NormalizeNames(capabilities, names)) == NormalizeNames(capabilities, names)
  }

  lemma {:induction false} FindOwnId(capabilities: seq<Capability>, c: Capability)
    requires DistinctIds(capabilities) && c in capabilities
    ensures FindId(capabilities, c.id) == Some(c)
  {
    if capabilities[0] != c {
      var i :| 0 <= i < |capabilities| && capabilities[i] == c;
      assert capabilities[1..][i - 1] == c && capabilities[0].id != c.id;
      FindOwnId(capabilities[1..], c);
    }
  }

  lemma CanonicalIdsNameThemselves(capabilities: seq<Capability>)
    requires DistinctIds(capabilities) && forall c :: c in capabilities ==> c.id != "" && Fold(c.id) == c.id
    ensures SelfNaming(capabilities)
  {
    hide Fold;
    forall c | c in capabilities ensures NamesItself(capabilities, c) { FindOwnId(capabilities, c); }
  }

  /** Looking up the ids of a list, the first one first. */
  lemma IdsUnfold(capabilities: seq<Capability>, some: seq<Capability>)
    requires some != []
    ensures var c, rest := some[0], IdsOf(some[1..]);
            && IdsOf(some) == [c.id] + rest
            && Found(capabilities, IdsOf(some)) == FoundOne(capabilities, c.id) + Found(capabilities, rest)
            && Unknown(capabilities, IdsOf(some)) == UnknownOne(capabilities, c.id) + Unknown(capabilities, rest)
  {
    hide FoundOne, UnknownOne;
    assert ([some[0].id] + IdsOf(some[1..]))[1..] == IdsOf(some[1..]);
  }

  lemma {:induction false} FoundOfIds(capabilities: seq<Capability>, some: seq<Capability>)
    requires forall c :: c in some ==> NamesItself(capabilities, c)
    ensures Found(capabilities, IdsOf(some)) == some && Unknown(capabilities, IdsOf(some)) == []
  {
    hide Lookup;
    if some != [] {
      assert NamesItself(capabilities, some[0]);
      FoundOfIds(capabilities, some[1..]);
      hide Found, Unknown, IdsOf;
      IdsUnfold(capabilities, some);
      assert [some[0]] + some[1..] == some;
    }
  }

  lemma {:induction false} NothingFoundOfIds(capabilities: seq<Capability>, some: seq<Capability>)
    requires forall c :: c in some ==> NamesNothing(capabilities, c)
    ensures Found(capabilities, IdsOf(some)) == [] && Unknown(capabilities, IdsOf(some)) == IdsOf(some)
  {
    hide Lookup, Trim;
    if some != [] {
      assert NamesNothing(capabilities, some[0]);
      NothingFoundOfIds(capabilities, some[1..]);
      hide Found, Unknown, IdsOf;
      IdsUnfold(capabilities, some);
    }
  }

  lemma LookupIgnoresBlanks(capabilities: seq<Capability>, name: string)
    ensures Lookup(capabilities, Trim(name)) == Lookup(capabilities, name)
  {
    TrimTwice(name);
  }

  lemma {:induction false} UnknownStaysUnknown(capabilities: seq<Capability>, names: seq<string>)
    ensures Found(capabilities, Unknown(capabilities, names)) == []
    ensures Unknown(capabilities, Unknown(capabilities, names)) == Unknown(capabilities, names)
  {
    hide Lookup, Trim;
    if names != [] {
      UnknownStaysUnknown(capabilities, names[1..]);
      LookupIgnoresBlanks(capabilities, names[0]);
      TrimTwice(names[0]);
      var rest := Unknown(capabilities, names[1..]);
      assert [] + rest == rest && ([Trim(names[0])] + rest)[1..] == rest;
    }
  }

  lemma {:induction false} FoundOfSum(capabilities: seq<Capability>, a: seq<string>, b: seq<string>)
    ensures Found(capabilities, a + b) == Found(capabilities, a) + Found(capabilities, b)
  {
    hide FoundOne;
    if a == [] {
      assert a + b == b;
    } else {
      assert (a + b)[1..] == a[1..] + b && (a + b)[0] == a[0];
      FoundOfSum(capabilities, a[1..], b);
    }
  }

  lemma {:induction false} UnknownOfSum(capabilities: seq<Capability>, a: seq<string>, b: seq<string>)
    ensures Unknown(capabilities, a + b) == Unknown(capabilities, a) + Unknown(capabilities, b)
  {
    hide UnknownOne;
    if a == [] {
      assert a + b == b;
    } else {
      assert (a + b)[1..] == a[1..] + b && (a + b)[0] == a[0];
      UnknownOfSum(capabilities, a[1..], b);
    }
  }

  lemma ResolvingSum(capabilities: seq<Capability>, a: seq<string>, b: seq<string>)
    ensures Found(capabilities, a + b) == Found(capabilities, a) + Found(capabilities, b)
    ensures Unknown(capabilities, a + b) == Unknown(capabilities, a) + Unknown(capabilities, b)
  {
    FoundOfSum(capabilities, a, b);
    UnknownOfSum(capabilities, a, b);
  }

  lemma ResolvedAreReached(capabilities: seq<Capability>, names: seq<string>, c: Capability)
    requires c in Resolved(capabilities, names)
    ensures Reached(capabilities, c)
  {
    hide Lookup;
    ResolvedMeans(capabilities, names, c);
  }

  /** Normalising names twice is normalising them once, if the ids within reach are of one kind. */
  lemma NormalizingIsIdempotent(capabilities: seq<Capability>, names: seq<string>)
    requires IdsOfOneKind(capabilities)
    ensures NormalizeNames(capabilities, NormalizeNames(capabilities, names)) == NormalizeNames(capabilities, names)
  {
    hide Lookup, Found, Unknown, Fresh, Trim, NamesItself, NamesNothing, Reached;
    var resolved, unknown := Resolved(capabilities, names), Unknown(capabilities, names);
    forall c | c in resolved ensures Reached(capabilities, c) { ResolvedAreReached(capabilities, names, c); }
    UnknownStaysUnknown(capabilities, names);
    ResolvingSum(capabilities, IdsOf(resolved), unknown);
    if forall c | Reached(capabilities, c) :: NamesItself(capabilities, c) {
      FoundOfIds(capabilities, resolved);
      assert resolved + [] == resolved && [] + unknown == unknown;
      DedupTwice(Found(capabilities, names));
    } else {
      NothingFoundOfIds(capabilities, resolved);
      DistinctIsFresh<Capability>([], []);
      assert [] + NormalizeNames(capabilities, names) == NormalizeNames(capabilities, names);
    }
  }

  lemma NormalizingOne(capabilities: seq<Capability>, name: string)
    ensures NormalizeNames(capabilities, [name]) ==
            if Lookup(capabilities, name).Some? then [Lookup(capabilities, name).value.id]
            else if Trim(name) != "" then [Trim(name)] else []
  {
    hide Lookup, Trim, Fresh;
    OneName(capabilities, name);
    DistinctIsFresh<Capability>([], []);
    if Lookup(capabilities, name).Some? {
      var c := Lookup(capabilities, name).value;
      DistinctIsFresh([], [c]);
      IdsOfTwo(c, c);
    }
  }

  lemma IdempotentAtOne(capabilities: seq<Capability>, c: Capability)
    requires DistinctIds(capabilities) && Idempotent(capabilities) && Reached(capabilities, c)
    ensures NamesItself(capabilities, c) || NamesNothing(capabilities, c)
  {
    hide Lookup, NormalizeNames, Trim, DistinctIds;
    var name :| Lookup(capabilities, name) == Some(c);
    NormalizingOne(capabilities, name);
    NormalizingOne(capabilities, c.id);
    var again := NormalizeNames(capabilities, [c.id]);
    assert again == NormalizeNames(capabilities, NormalizeNames(capabilities, [name])) == [c.id];
    assert again[0] == c.id;
    if Lookup(capabilities, c.id).Some? {
      LookupIsRegistered(capabilities, name);
      LookupIsRegistered(capabilities, c.id);
      SameIdSame(capabilities, c, Lookup(capabilities, c.id).value);
    }
  }

  lemma SameIdSame(capabilities: seq<Capability>, c: Capability, d: Capability)
    requires DistinctIds(capabilities) && c in capabilities && d in capabilities && c.id == d.id
    ensures c == d
  {
    var i, j :| 0 <= i < |capabilities| && capabilities[i] == c && 0 <= j < |capabilities| && capabilities[j] == d;
    assert i == j;
  }

  /** Normalising is idempotent, on all lists of names, exactly if the ids within reach are of one kind. */
  lemma NormalizingIsIdempotentIff(capabilities: seq<Capability>)
    requires DistinctIds(capabilities)
    ensures Idempotent(capabilities) <==> IdsOfOneKind(capabilities)
  {
    hide NormalizeNames, DistinctIds, Lookup, NamesItself, NamesNothing, Reached;
    if IdsOfOneKind(capabilities) {
      forall names ensures NormalizeNames(capabilities, NormalizeNames(capabilities, names)) == NormalizeNames(capabilities, names) {
        NormalizingIsIdempotent(capabilities, names);
      }
    } else {
      var lost :| Reached(capabilities, lost) && !NamesItself(capabilities, lost);
      var other :| Reached(capabilities, other) && !NamesNothing(capabilities, other);
      if Idempotent(capabilities) {
        IdempotentAtOne(capabilities, lost);
        IdempotentAtOne(capabilities, other);
        MixedIdsMove(capabilities, lost, other);
        assert false;
      }
    }
  }

  lemma MixedIdsMove(capabilities: seq<Capability>, lost: Capability, other: Capability)
    requires Reached(capabilities, lost) && NamesNothing(capabilities, lost) && NamesItself(capabilities, other)
    ensures !Idempotent(capabilities)
  {
    hide Lookup, NormalizeNames, Trim;
    var name :| Lookup(capabilities, name) == Some(lost);
    LostIdsMove(capabilities, name, lost, other);
    assert NormalizeNames(capabilities, NormalizeNames(capabilities, [name, other.id])) != NormalizeNames(capabilities, [name, other.id]);
  }

  /** Not so if some capability that a name reaches has an id that reaches nothing, as an id with capitals
      does: the id is resolved at first, but is then unknown and moves behind the known names. */
  lemma LostIdsMove(capabilities: seq<Capability>, name: string, lost: Capability, other: Capability)
    requires Lookup(capabilities, name) == Some(lost) && Lookup(capabilities, lost.id) == None
    requires Trim(lost.id) == lost.id != "" && Lookup(capabilities, other.id) == Some(other)
    ensures NormalizeNames(capabilities, [name, other.id]) == [lost.id, other.id]
    ensures NormalizeNames(capabilities, [lost.id, other.id]) == [other.id, lost.id] != [lost.id, other.id]
  {
    hide Lookup, Trim, Fresh;
    TwoNames(capabilities, name, other.id);
    TwoNames(capabilities, lost.id, other.id);
    OneName(capabilities, name);
    OneName(capabilities, other.id);
    OneName(capabilities, lost.id);
    DistinctIsFresh([], [lost, other]);
    DistinctIsFresh([], [other]);
    assert [lost] + [other] == [lost, other] && [] + [other] == [other];
    IdsOfTwo(lost, other);
    assert [lost.id] != [other.id];
    assert [other.id] + [lost.id] == [other.id, lost.id];
    assert [lost.id, other.id][0] != [other.id, lost.id][0];
  }

  // ----- Which capabilities are within reach -----

  lemma {:induction false} LowerTwice(s: string)
    ensures Lower(Lower(s)) == Lower(s)
  {
    assert forall i :: 0 <= i < |s| ==> LowerChar(LowerChar(s[i])) == LowerChar(s[i]);
  }

  lemma {:induction false} TrimLeftOfLower(s: string)
    ensures TrimLeft(Lower(s)) == Lower(TrimLeft(s))
  {
    if s != "" && IsBlank(s[0]) {
      assert Lower(s)[1..] == Lower(s[1..]);
      TrimLeftOfLower(s[1..]);
    }
  }

  lemma {:induction false} TrimRightOfLower(s: string)
    ensures TrimRight(Lower(s)) == Lower(TrimRight(s))
  {
    if s != "" && IsBlank(s[|s| - 1]) {
      assert Lower(s)[..|s| - 1] == Lower(s[..|s| - 1]);
      TrimRightOfLower(s[..|s| - 1]);
    }
  }

  lemma FoldTwice(name: string)
    ensures Fold(Fold(name)) == Fold(name)
  {
    TrimLeftOfLower(Trim(name));
    TrimRightOfLower(TrimLeft(Trim(name)));
    TrimTwice(name);
    LowerTwice(Trim(name));
  }

  lemma {:induction false} FoundIdHasIt(capabilities: seq<Capability>, id: string)
    ensures FindId(capabilities, id).Some? ==> FindId(capabilities, id).value.id == id
    ensures FindId(capabilities, id).None? ==> forall c :: c in capabilities ==> c.id != id
  {
    if capabilities != [] {
      FoundIdHasIt(capabilities[1..], id);
      assert capabilities == [capabilities[0]] + capabilities[1..];
    }
  }

  lemma {:induction false} FoundMatchMatches(capabilities: seq<Capability>, name: string)
    ensures FindMatch(capabilities, name).Some? ==> Matches(FindMatch(capabilities, name).value, name)
  {
    if capabilities != [] { FoundMatchMatches(capabilities[1..], name); }
  }

  /** A capability is within reach exactly if its id or one of its aliases refers to it. */
  lemma ReachedIff(capabilities: seq<Capability>, c: Capability)
    ensures Reached(capabilities, c) <==>
            NamesItself(capabilities, c) || exists alias :: alias in c.aliases && Lookup(capabilities, alias) == Some(c)
  {
    if name :| Lookup(capabilities, name) == Some(c) {
      ReachedByOwnName(capabilities, name, c);
    }
  }

  lemma ReachedByOwnName(capabilities: seq<Capability>, name: string, c: Capability)
    requires Lookup(capabilities, name) == Some(c)
    ensures Lookup(capabilities, Fold(name)) == Some(c) && (Fold(name) == c.id || Fold(name) in c.aliases)
  {
    hide Fold;
    var lowered := Fold(name);
    FoldTwice(name);
    FoundIdHasIt(capabilities, lowered);
    FoundMatchMatches(capabilities, lowered);
  }

  lemma FoldOfChar(c: char)
    requires !IsBlank(c)
    ensures Fold([c]) == [LowerChar(c)] && Trim([c]) == [c]
  {
  }

  /** A registry that loses an id: one written with a capital, next to one that is not. */
  function MixedRegistry(): seq<Capability> {
    [Capability(['A'], [['x']], NoNetwork, false), Capability(['b'], [], NoNetwork, false)]
  }

  lemma LookupInMixed(name: char)
    requires name in {'x', 'A', 'b'}
    ensures Lookup(MixedRegistry(), [name]) ==
            if name == 'x' then Some(MixedRegistry()[0]) else if name == 'b' then Some(MixedRegistry()[1]) else None
  {
    hide Fold;
    FoldOfChar(name);
    FoldOfChar(LowerChar(name));
    var cs := MixedRegistry();
    assert cs[1..] == [cs[1]] && cs[1..][1..] == [];
    assert cs[0].id[0] == 'A' && cs[0].aliases[0][0] == 'x' && cs[1].id[0] == 'b' && [LowerChar(name)][0] == LowerChar(name);
  }

  /** There the list ["x", "b"] normalises to ["A", "b"], and that to ["b", "A"]. */
  lemma MixedRegistryIsNotIdempotent()
    ensures DistinctIds(MixedRegistry()) && !Idempotent(MixedRegistry())
  {
    hide Lookup, NormalizeNames, Idempotent;
    var cs := MixedRegistry();
    LookupInMixed('x');
    LookupInMixed('A');
    LookupInMixed('b');
    FoldOfChar('A');
    assert cs[0].id[0] != cs[1].id[0];
    MixedIdsMove(cs, cs[0], cs[1]);
  }

  lemma IdsOfTwo(a: Capability, b: Capability)
    ensures IdsOf([a, b]) == [a.id, b.id] && IdsOf([b]) == [b.id]
  {
    assert [a, b][1..] == [b] && [b][1..] == [];
    assert IdsOf([b]) == [b.id] + IdsOf([]);
    assert IdsOf([a, b]) == [a.id] + IdsOf([b]);
  }

  lemma OneName(capabilities: seq<Capability>, a: string)
    ensures Found(capabilities, [a]) == if Lookup(capabilities, a).Some? then [Lookup(capabilities, a).value] else []
    ensures Unknown(capabilities, [a]) == if Lookup(capabilities, a).None? && Trim(a) != "" then [Trim(a)] else []
  {
    assert [a][1..] == [];
  }

  lemma TwoNames(capabilities: seq<Capability>, a: string, b: string)
    ensures Found(capabilities, [a, b]) == Found(capabilities, [a]) + Found(capabilities, [b])
    ensures Unknown(capabilities, [a, b]) == Unknown(capabilities, [a]) + Unknown(capabilities, [b])
  {
    ResolvingSum(capabilities, [a], [b]);
    assert [a, b] == [a] + [b];
  }
}
