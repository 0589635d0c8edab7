/** Merging domain patches: nested maps are merged key by key, lists appended without repeats, an
    absent or null value changes nothing, and anything else is replaced. */
module DomainMerge {
  import opened ListLaws
  import opened Values

  function MergeList(current: seq<Value>, incoming: seq<Value>): seq<Value> {
    current + Fresh(current, incoming)
  }

  function MergeValue(current: Value, incoming: Value): Value
    decreases incoming
  {
    if incoming.Null? then current
    else if current.Dict? && incoming.Dict? then
      Dict(map k | k in current.fields.Keys + incoming.fields.Keys ::
             if k in incoming.fields then MergeValue(Get(current.fields, k), incoming.fields[k]) else current.fields[k])
    else if current.List? && incoming.List? then List(MergeList(current.items, incoming.items))
    else incoming
  }

  function MergePatch(current: Record, incoming: Record): Record {
    map k | k in current.Keys + incoming.Keys ::
      if k in incoming then MergeValue(Get(current, k), incoming[k]) else current[k]
  }

  /** The list merge as it runs. */
  method RunMergeListUnique(current: seq<Value>, incoming: seq<Value>) returns (merged: seq<Value>)
    ensures merged == MergeList(current, incoming)
  {
    merged := current;
    var i := 0;
    while i < |incoming|
      invariant 0 <= i <= |incoming|
      invariant merged + Fresh(merged, incoming[i..]) == MergeList(current, incoming)
    {
      assert incoming[i..][1..] == incoming[i + 1..];
      if incoming[i] !in merged {
        assert merged + ([incoming[i]] + Fresh(merged + [incoming[i]], incoming[i + 1..]))
            == (merged + [incoming[i]]) + Fresh(merged + [incoming[i]], incoming[i + 1..]);
        merged := merged + [incoming[i]];
      }
      i := i + 1;
    }
  }

  /** The patch merge as it runs: one incoming key after the other, in any order. */
  method RunMergeDomainPatch(current: Record, incoming: Record) returns (merged: Record)
    ensures merged == MergePatch(current, incoming)
  {
    merged := current;
    var left := incoming.Keys;
    while left != {}
      invariant left <= incoming.Keys
      invariant merged.Keys == current.Keys + (incoming.Keys - left)
      invariant forall k :: k in incoming && k !in left ==> merged[k] == MergeValue(Get(current, k), incoming[k])
      invariant forall k :: k in current && (k in left || k !in incoming) ==> merged[k] == current[k]
      decreases left
    {
      var key :| key in left;
      merged := merged[key := MergeValue(Get(merged, key), incoming[key])];
      left := left - {key};
    }
  }

  // ----- Lists -----

  lemma ListMergeIsAssociative(a: seq<Value>, b: seq<Value>, c: seq<Value>)
    ensures MergeList(MergeList(a, b), c) == MergeList(a, MergeList(b, c))
  {
    FreshOfSum(a, b, Fresh(b, c));
    forall x | x in b ensures x in MergeList(a, b) { FreshMembers(a, b, x); }
    FreshOfFresh(MergeList(a, b), b, c);
  }

  // ----- Values -----

  lemma NullIsIdentity(v: Value)
    ensures MergeValue(v, Null) == v
    ensures MergeValue(Null, v) == v
  {
  }

  lemma {:induction false} MergeWithItself(v: Value)
    ensures MergeValue(v, v) == v
    decreases v
  {
    if v.Dict? {
      forall k | k in v.fields ensures MergeValue(v.fields[k], v.fields[k]) == v.fields[k] {
        MergeWithItself(v.fields[k]);
      }
    } else if v.List? {
      NothingFresh(v.items, v.items);
    }
  }

  /** Merging the same value twice is merging it once, for all values. */
  lemma {:induction false} MergeIsIdempotent(a: Value, b: Value)
    ensures MergeValue(MergeValue(a, b), b) == MergeValue(a, b)
    decreases b
  {
    if a.Dict? && b.Dict? {
      var m := MergeValue(a, b);
      forall k | k in b.fields ensures MergeValue(m.fields[k], b.fields[k]) == m.fields[k] {
        MergeIsIdempotent(Get(a.fields, k), b.fields[k]);
      }
      assert MergeValue(m, b).fields == m.fields;
    } else if a.List? && b.List? {
      forall x | x in b.items ensures x in MergeList(a.items, b.items) { FreshMembers(a.items, b.items, x); }
      NothingFresh(MergeList(a.items, b.items), b.items);
    } else {
      MergeWithItself(b);
    }
  }

  /** ... and so for whole patches. */
  lemma PatchMergeIsIdempotent(current: Record, patch: Record)
    ensures MergePatch(MergePatch(current, patch), patch) == MergePatch(current, patch)
    ensures MergePatch(current, map[]) == current
  {
    MergeIsIdempotent(Dict(current), Dict(patch));
  }

  /** Nothing of `a` outlives a merge with `c`: a map with no key beyond those of `c`, all the way down,
      a list that `c` continues without repeats, or a value of another kind. */
  ghost predicate AbsorbedBy(a: Value, c: Value)
    decreases c
  {
    if c.Null? then a.Null?
    else if a.Dict? && c.Dict? then
      && a.fields.Keys <= c.fields.Keys
      && forall k :: k in c.fields ==> AbsorbedBy(Get(a.fields, k), c.fields[k])
    else if a.List? && c.List? then
      && a.items <= c.items
      && Distinct(c.items[|a.items|..])
      && (forall x :: x in c.items[|a.items|..] ==> x !in a.items)
    else true
  }

  lemma MergeOntoPrefix(a: seq<Value>, rest: seq<Value>)
    ensures MergeList(a, a + rest) == a + Fresh(a, rest)
  {
    hide Fresh;
    FreshOfSum(a, a, rest);
    NothingFresh(a, a);
    assert a + [] == a;
    assert [] + Fresh(a, rest) == Fresh(a, rest);
  }

  lemma ListAbsorption(a: seq<Value>, c: seq<Value>)
    ensures MergeList(a, c) == c <==> a <= c && Fresh(a, c[|a|..]) == c[|a|..]
  {
    hide Fresh;
    if a <= c {
      var rest := c[|a|..];
      assert c == a + rest;
      MergeOntoPrefix(a, rest);
      assert (a + Fresh(a, rest))[|a|..] == Fresh(a, rest);
    } else {
      assert MergeList(a, c)[..|a|] == a;
    }
  }

  lemma {:induction false} AbsorbedMeans(a: Value, c: Value)
    ensures AbsorbedBy(a, c) <==> MergeValue(a, c) == c
    decreases c
  {
    if a.Dict? && c.Dict? {
      forall k | k in c.fields
        ensures AbsorbedBy(Get(a.fields, k), c.fields[k]) <==> MergeValue(Get(a.fields, k), c.fields[k]) == c.fields[k]
      {
        AbsorbedMeans(Get(a.fields, k), c.fields[k]);
      }
      var m := MergeValue(a, c).fields;
      assert m.Keys == a.fields.Keys + c.fields.Keys;
      if m == c.fields {
        forall k | k in c.fields ensures AbsorbedBy(Get(a.fields, k), c.fields[k]) { assert m[k] == c.fields[k]; }
      }
    } else if a.List? && c.List? {
      ListAbsorption(a.items, c.items);
      if a.items <= c.items { FreshIsItself(a.items, c.items[|a.items|..]); }
    }
  }

  /** No middle value interrupts: wherever `a` and `c` are containers of one kind and `b` is neither
      null nor of that kind, `a` is absorbed by `c`; and so on along the keys that all three have. */
  ghost predicate Coherent(a: Value, b: Value, c: Value)
    decreases c
  {
    if a.Null? || b.Null? || c.Null? then true
    else if a.Dict? && c.Dict? then
      if b.Dict? then
        forall k :: k in c.fields ==>
          (k in a.fields && k in b.fields ==> Coherent(a.fields[k], b.fields[k], c.fields[k]))
      else AbsorbedBy(a, c)
    else if a.List? && c.List? && !b.List? then AbsorbedBy(a, c)
    else true
  }

  lemma FieldsOfMerge(a: Value, b: Value, k: Key)
    requires a.Dict? && b.Dict?
    ensures Get(MergeValue(a, b).fields, k) == MergeValue(Get(a.fields, k), Get(b.fields, k))
  {
  }

  ghost predicate AssociatesAt(a: Value, b: Value, c: Value) {
    MergeValue(MergeValue(a, b), c) == MergeValue(a, MergeValue(b, c))
  }

  lemma DictsAssociateByKey(a: Value, b: Value, c: Value)
    requires a.Dict? && b.Dict? && c.Dict?
    ensures AssociatesAt(a, b, c) <==>
            forall k :: k in c.fields ==> AssociatesAt(Get(a.fields, k), Get(b.fields, k), c.fields[k])
  {
    var l, r := MergeValue(MergeValue(a, b), c), MergeValue(a, MergeValue(b, c));
    assert l.fields.Keys == a.fields.Keys + b.fields.Keys + c.fields.Keys == r.fields.Keys;
    forall k | k in l.fields
      ensures l.fields[k] == MergeValue(MergeValue(Get(a.fields, k), Get(b.fields, k)), Get(c.fields, k))
      ensures r.fields[k] == MergeValue(Get(a.fields, k), MergeValue(Get(b.fields, k), Get(c.fields, k)))
    {
      FieldsOfMerge(a, b, k);
      FieldsOfMerge(b, c, k);
      FieldsOfMerge(MergeValue(a, b), c, k);
      FieldsOfMerge(a, MergeValue(b, c), k);
    }
    if forall k :: k in c.fields ==> AssociatesAt(Get(a.fields, k), Get(b.fields, k), c.fields[k]) {
      assert l.fields == r.fields;
    }
    if AssociatesAt(a, b, c) {
      forall k | k in c.fields ensures AssociatesAt(Get(a.fields, k), Get(b.fields, k), c.fields[k]) {
        assert l.fields[k] == r.fields[k];
      }
    }
  }

  /** Merging is associative exactly on coherent values. */
  lemma {:induction false} MergeAssociatesIffCoherent(a: Value, b: Value, c: Value)
    ensures MergeValue(MergeValue(a, b), c) == MergeValue(a, MergeValue(b, c)) <==> Coherent(a, b, c)
    decreases c
  {
    AbsorbedMeans(a, c);
    if a.Dict? && b.Dict? && c.Dict? {
      DictsAssociateByKey(a, b, c);
      forall k | k in c.fields
        ensures AssociatesAt(Get(a.fields, k), Get(b.fields, k), c.fields[k]) <==>
                (k in a.fields && k in b.fields ==> Coherent(a.fields[k], b.fields[k], c.fields[k]))
      {
        if k in a.fields && k in b.fields { MergeAssociatesIffCoherent(a.fields[k], b.fields[k], c.fields[k]); }
      }
    } else if a.List? && b.List? && c.List? {
      ListMergeIsAssociative(a.items, b.items, c.items);
    }
  }

  // ----- Whole patches -----

  /** A patch is merged as the map that it is. */
  lemma PatchIsMap(a: Record, b: Record)
    ensures MergeValue(Dict(a), Dict(b)) == Dict(MergePatch(a, b))
  {
  }

  /** A field that the patch lacks or that is null there keeps its present value, and a new field is added
      as it is. */
  lemma PatchKeepsFields(current: Record, patch: Record, key: Key)
    ensures Get(patch, key) == Null ==> Get(MergePatch(current, patch), key) == Get(current, key)
    ensures key in patch && Get(current, key) == Null ==> Get(MergePatch(current, patch), key) == patch[key]
    ensures MergePatch(current, patch).Keys == current.Keys + patch.Keys
  {
  }

  /** A patch replaces everything if and only if it absorbs what was there. */
  lemma PatchReplacesIff(a: Record, b: Record)
    ensures MergePatch(a, b) == b <==> AbsorbedBy(Dict(a), Dict(b))
  {
    PatchIsMap(a, b);
    AbsorbedMeans(Dict(a), Dict(b));
  }

  /** Patches can be merged in either grouping if and only if they are coherent. */
  lemma PatchesAssociateIffCoherent(a: Record, b: Record, c: Record)
    ensures MergePatch(MergePatch(a, b), c) == MergePatch(a, MergePatch(b, c)) <==> Coherent(Dict(a), Dict(b), Dict(c))
  {
    PatchIsMap(a, b);
    PatchIsMap(b, c);
    PatchIsMap(MergePatch(a, b), c);
    PatchIsMap(a, MergePatch(b, c));
    MergeAssociatesIffCoherent(Dict(a), Dict(b), Dict(c));
  }

  /** What is found at the end of a path of keys; nothing is found where a key is missing or no map is met. */
  function Along(v: Value, path: seq<Key>): Value {
    if path == [] then v
    else if v.Dict? && path[0] in v.fields then Along(v.fields[path[0]], path[1..])
    else Null
  }

  /** Maps on both sides, as far as both have the path. */
  predicate MapsAlong(a: Value, b: Value, path: seq<Key>) {
    path == [] ||
    (&& a.Dict? && b.Dict?
     && (path[0] in a.fields && path[0] in b.fields ==> MapsAlong(a.fields[path[0]], b.fields[path[0]], path[1..])))
  }

  lemma NothingAlongNull(path: seq<Key>)
    ensures Along(Null, path) == Null
  {
  }

  /** At any depth, where both sides have maps along the way: a null changes nothing, two lists are joined
      without repeats, the old items first, and anything else that is not a pair of maps is replaced. */
  lemma {:induction false} MergedAlong(a: Value, b: Value, path: seq<Key>)
    requires MapsAlong(a, b, path)
    ensures var old', new', merged := Along(a, path), Along(b, path), Along(MergeValue(a, b), path);
            && (new'.Null? ==> merged == old')
            && (old'.List? && new'.List? ==> merged.List? && JoinedLists(old'.items, new'.items, merged.items))
            && (!new'.Null? && !(old'.List? && new'.List?) && !(old'.Dict? && new'.Dict?) ==> merged == new')
  {
    if path == [] {
      if a.List? && b.List? { ListsAreJoined(a.items, b.items); }
    } else if path[0] in a.fields && path[0] in b.fields {
      MergedAlong(a.fields[path[0]], b.fields[path[0]], path[1..]);
    } else {
      NothingAlongNull(path[1..]);
      NullIsIdentity(Get(if path[0] in a.fields then a.fields else b.fields, path[0]));
    }
  }

  /** The old items, then each new one that is not there yet, once and in the order of the new ones. */
  ghost predicate JoinedLists(old': seq<Value>, new': seq<Value>, merged: seq<Value>) {
    && old' <= merged
    && (forall x :: x in merged <==> x in old' || x in new')
    && Distinct(merged[|old'|..])
    && (forall x :: x in merged[|old'|..] ==> x !in old')
    && InOrderOf(merged[|old'|..], new')
  }

  /** A subsequence. */
  predicate InOrderOf(part: seq<Value>, whole: seq<Value>) {
    part == [] || (whole != [] && if part[0] == whole[0] then InOrderOf(part[1..], whole[1..]) else InOrderOf(part, whole[1..]))
  }

  lemma ListsAreJoined(old': seq<Value>, new': seq<Value>)
    ensures JoinedLists(old', new', MergeList(old', new'))
  {
    FreshIsDistinct(old', new');
    forall x ensures x in MergeList(old', new') <==> x in old' || x in new' { FreshMembers(old', new', x); }
    assert MergeList(old', new')[|old'|..] == Fresh(old', new');
    FreshIsInOrder(old', new');
  }

  lemma {:induction false} FreshIsInOrder(known: seq<Value>, incoming: seq<Value>)
    ensures InOrderOf(Fresh(known, incoming), incoming)
    decreases |incoming|
  {
    if incoming != [] {
      if incoming[0] in known {
        FreshIsInOrder(known, incoming[1..]);
        FreshIsDistinct(known, incoming[1..]);
      } else {
        FreshIsInOrder(known + [incoming[0]], incoming[1..]);
        assert ([incoming[0]] + Fresh(known + [incoming[0]], incoming[1..]))[1..] == Fresh(known + [incoming[0]], incoming[1..]);
      }
    }
  }

  /** Maps, lists and scalars in the same places. */
  predicate SameShape(a: Value, b: Value, c: Value)
    decreases c
  {
    && (a.Dict? <==> c.Dict?) && (b.Dict? <==> c.Dict?) && (a.List? <==> c.List?) && (b.List? <==> c.List?)
    && (c.Dict? ==> forall k :: k in c.fields ==>
          (k in a.fields && k in b.fields ==> SameShape(a.fields[k], b.fields[k], c.fields[k])))
  }

  /** In particular it is associative whenever the three values agree in kind at each path. */
  lemma {:induction false} SameShapeAssociates(a: Value, b: Value, c: Value)
    requires SameShape(a, b, c)
    ensures Coherent(a, b, c)
    ensures MergeValue(MergeValue(a, b), c) == MergeValue(a, MergeValue(b, c))
    decreases c
  {
    if c.Dict? {
      forall k | k in c.fields && k in a.fields && k in b.fields ensures Coherent(a.fields[k], b.fields[k], c.fields[k]) {
        SameShapeAssociates(a.fields[k], b.fields[k], c.fields[k]);
      }
    }
    MergeAssociatesIffCoherent(a, b, c);
  }

  /** A scalar between two maps breaks it: the right grouping brings the first map back. */
  lemma ScalarBetweenMaps()
    ensures var a, b, c := Dict(map[Name := Num(1)]), Num(5), Dict(map[Details := Num(2)]);
            MergeValue(MergeValue(a, b), c) != MergeValue(a, MergeValue(b, c))
  {
    var a, c := Dict(map[Name := Num(1)]), Dict(map[Details := Num(2)]);
    assert Name in MergeValue(a, c).fields;
  }
}
