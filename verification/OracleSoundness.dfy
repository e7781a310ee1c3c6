/** When the oracle flags nothing, the new schema accepts nothing the old one rejected:
    for which pairs of schemas that is so, and why the others are left out. */
module OracleSoundness {

  import opened Wrappers
  import Sets
  import opened JsonSchema
  import opened SchemaOracle
  import opened TolerantDivision

  // ---- the fragment ---------------------------------------------------------

  /** No reference anywhere inside, and no keyword that looks beyond its schema object. */
  predicate RefFree(j: Json) {
    match j
    case Obj(f) => forall key :: key in f ==> key != Kw(Ref) && !(key.Kw? && IsForeign(key.k)) && RefFree(f[key])
    case Arr(a) => forall i :: 0 <= i < |a| ==> RefFree(a[i])
    case _ => true
  }

  /** The keywords whose value holds a schema under each name. */
  predicate IsBlock(k: Keyword) {
    k.Defs? || k.Definitions? || k.Properties? || k.PatternProperties? || k.DependentSchemas?
  }

  /** Every reference of schema `s` resolves to a definition of `root`, and none stands where
      accepting less there means accepting more here. */
  predicate Supported(d: Dialect, root: Json, s: Json)
    decreases s, 1
  {
    s.Obj? ==> forall key :: key in s.fields ==> SupportedAt(d, root, s, key)
  }

  predicate SupportedAt(d: Dialect, root: Json, s: Json, key: Text)
    requires s.Obj? && key in s.fields
    decreases s, 0
  {
    var val := s.fields[key];
    key.Kw? ==>
      match key.k
      case Ref =>
        && Resolve(d, root, val).Some?
        && (d.target(val).value.Definition? ==> IsBlock(d.target(val).value.block))
      case OneOf => RefFree(val)
      case Not => RefFree(val)
      case If => RefFree(val)
      case Contains => Supported(d, root, val) && (Kw(MaxContains) in s.fields ==> RefFree(val))
      case AdditionalProperties => Supported(d, root, val)
      case PropertyNames => Supported(d, root, val)
      case Then => Supported(d, root, val)
      case Else => Supported(d, root, val)
      case Items =>
        if val.Arr? then forall i :: 0 <= i < |val.items| ==> Supported(d, root, val.items[i])
        else Supported(d, root, val)
      case PrefixItems => val.Arr? ==> forall i :: 0 <= i < |val.items| ==> Supported(d, root, val.items[i])
      case AllOf => val.Arr? ==> forall i :: 0 <= i < |val.items| ==> Supported(d, root, val.items[i])
      case AnyOf => val.Arr? ==> forall i :: 0 <= i < |val.items| ==> Supported(d, root, val.items[i])
      case Properties => val.Obj? ==> forall n :: n in val.fields ==> Supported(d, root, val.fields[n])
      case PatternProperties => val.Obj? ==> forall n :: n in val.fields ==> Supported(d, root, val.fields[n])
      case DependentSchemas => val.Obj? ==> forall n :: n in val.fields ==> Supported(d, root, val.fields[n])
      case Defs => val.Obj? ==> forall n :: n in val.fields ==> Supported(d, root, val.fields[n])
      case Definitions => val.Obj? ==> forall n :: n in val.fields ==> Supported(d, root, val.fields[n])
      case k => !IsForeign(k)
  }

  /** The edits in which every keyword that is only added does constrain, and Python's equality is JSON's. */
  ghost predicate Regular(d: Dialect, was: Json, now: Json)
    decreases was, 0
  {
    was == now ||
    if !was.Obj? || !now.Obj? then !PyEq(was, now)
    else
      var f, g := was.fields, now.fields;
      && RegularHere(d, f, g)
      && (forall key :: key in f && key in g && !(key.Kw? && key.k in {Properties, Defs, Definitions, Items, AdditionalProperties})
            ==> f[key] == g[key] || !PyEq(f[key], g[key]))
      && (forall k | k in {Properties, Defs, Definitions} ::
            Kw(k) in f && Kw(k) in g ==> RegularBlock(d, f[Kw(k)], g[Kw(k)]))
      && (Kw(Items) in f && Kw(Items) in g ==> RegularItems(d, f[Kw(Items)], g[Kw(Items)]))
      && (Kw(AdditionalProperties) in f && Kw(AdditionalProperties) in g ==>
            Regular(d, f[Kw(AdditionalProperties)], g[Kw(AdditionalProperties)]))
  }

  ghost predicate RegularBlock(d: Dialect, ov: Json, nv: Json)
    decreases ov, 1
  {
    ov == nv ||
    if ov.Obj? && nv.Obj? then
      forall n :: n in ov.fields && n in nv.fields ==> Regular(d, ov.fields[n], nv.fields[n])
    else !PyEq(ov, nv)
  }

  ghost predicate RegularItems(d: Dialect, ov: Json, nv: Json)
    decreases ov, 1
  {
    if ov.Arr? && nv.Arr? && |ov.items| == |nv.items| then
      forall i :: 0 <= i < |ov.items| ==> Regular(d, ov.items[i], nv.items[i])
    else Regular(d, ov, nv)
  }

  /** The conditions on one pair of schema objects, one for each way an edit that is not flagged widens. */
  ghost predicate RegularHere(d: Dialect, f: Fields, g: Fields) {
    && (Kw(Properties) !in f && Kw(Properties) in g ==> Open(At(f, AdditionalProperties)))
    && (Kw(PatternProperties) !in f && Kw(PatternProperties) in g ==> Open(At(f, AdditionalProperties)))
    && (forall name :: Named(f, name) && !Named(g, name) ==> !Patterned(d, f, name))
    && (Kw(PrefixItems) !in f && Kw(PrefixItems) in g && Kw(Items) in f ==>
          f[Kw(Items)].Arr? || f[Kw(Items)] == Bool(true) || f[Kw(Items)] == Obj(map[]))
    && (Kw(MinContains) !in f && Kw(MinContains) in g && Kw(Contains) in f ==> LeastContained(g) >= 1.0)
    && (Kw(MultipleOf) in f && Kw(MultipleOf) in g && f[Kw(MultipleOf)] != g[Kw(MultipleOf)] ==>
          Exact(f[Kw(MultipleOf)]) && Exact(g[Kw(MultipleOf)]))
  }

  /** A whole number in the range where the comparator's division tells divisors from other numbers. */
  predicate Exact(v: Json) {
    v.Num? && v.n == v.n.Floor as real && v.n <= LARGEST as real
  }

  // ---- schemas without references -------------------------------------------

  /** Without references the surrounding document does not matter. */
  lemma {:induction false} RefFreeSame(d: Dialect, r1: Json, r2: Json, spent: bool, fuel: nat, s: Json, v: Json)
    requires RefFree(s)
    ensures Accepts(d, r1, spent, fuel, s, v) <==> Accepts(d, r2, spent, fuel, s, v)
    decreases s
  {
    hide Holds, Rooted, RefHolds;
    if s.Obj? {
      var acc1, acc2 := Inner(d, r1, spent, fuel, s), Inner(d, r2, spent, fuel, s);
      forall c, w | RefFree(c) ensures acc1(c, w) == acc2(c, w) {
        if c < s { RefFreeSame(d, r1, r2, spent, fuel, c, w); }
      }
      forall k | Kw(k) in s.fields ensures Holds(d, acc1, s.fields, k, v) <==> Holds(d, acc2, s.fields, k, v) {
        SameHolds(d, acc1, acc2, s.fields, k, v);
      }
    }
  }

  lemma SameHolds(d: Dialect, acc1: Acceptance, acc2: Acceptance, f: Fields, k: Keyword, v: Json)
    requires RefFree(Obj(f)) && Kw(k) in f
    requires forall c, w :: RefFree(c) ==> acc1(c, w) == acc2(c, w)
    ensures Holds(d, acc1, f, k, v) <==> Holds(d, acc2, f, k, v)
  {
    if OnObjects(k) {
      if v.Obj? { SameOnObjects(d, acc1, acc2, f, k, v.fields); }
    } else if OnArrays(k) {
      if v.Arr? { SameOnArrays(acc1, acc2, f, k, v.items); }
    } else if Combines(k) {
      SameCombination(acc1, acc2, f, k, v);
    }
  }

  lemma SameOnObjects(d: Dialect, acc1: Acceptance, acc2: Acceptance, f: Fields, k: Keyword, members: Fields)
    requires RefFree(Obj(f)) && Kw(k) in f && OnObjects(k)
    requires forall c, w :: RefFree(c) ==> acc1(c, w) == acc2(c, w)
    ensures ObjectHolds(d, acc1, f, k, members) <==> ObjectHolds(d, acc2, f, k, members)
  {
    assert RefFree(f[Kw(k)]);
  }

  lemma SameOnArrays(acc1: Acceptance, acc2: Acceptance, f: Fields, k: Keyword, items: seq<Json>)
    requires RefFree(Obj(f)) && Kw(k) in f && OnArrays(k)
    requires forall c, w :: RefFree(c) ==> acc1(c, w) == acc2(c, w)
    ensures ArrayHolds(acc1, f, k, items) <==> ArrayHolds(acc2, f, k, items)
  {
    var val := f[Kw(k)];
    assert RefFree(val);
    assert Matching(acc1, val, items) == Matching(acc2, val, items);
  }

  lemma SameCombination(acc1: Acceptance, acc2: Acceptance, f: Fields, k: Keyword, v: Json)
    requires RefFree(Obj(f)) && Kw(k) in f && Combines(k)
    requires forall c, w :: RefFree(c) ==> acc1(c, w) == acc2(c, w)
    ensures CombinationHolds(acc1, f, k, v) <==> CombinationHolds(acc2, f, k, v)
  {
    var val := f[Kw(k)];
    assert RefFree(val);
    if val.Arr? {
      assert Branches(acc1, val.items, v) == Branches(acc2, val.items, v);
    }
  }

  // ---- pairs that nothing was flagged between -------------------------------

  /** An edit of one document, judged under `dialect` for `agent`. */
  datatype Edit = Edit(d: Dialect, agent: string, was: Json, now: Json, spent: bool)

  /** Two schema nodes the comparator met, or could have met, without flagging anything. */
  ghost predicate Pair(e: Edit, s: Json, t: Json) {
    Unflagged(e.agent, s, t) && Regular(e.d, s, t) && Supported(e.d, e.was, s)
  }

  ghost predicate Unflagged(agent: string, s: Json, t: Json) {
    exists path :: Flags(agent, path, s, t) == {}
  }

  lemma PairSelf(e: Edit, s: Json)
    requires Supported(e.d, e.was, s)
    ensures Pair(e, s, s)
  {
    PyEqReflexive(s);
    forall key, path | s.Obj? && key in s.fields ensures KeyFlags(e.agent, path, s, s, key) == {} {
      PyEqReflexive(s.fields[key]);
    }
    assert s.Obj? ==> KeysFlags(e.agent, [], s, s, s.fields.Keys + s.fields.Keys) == {};
    assert Flags(e.agent, [], s, s) == {};
  }

  /** Where an edit is regular, Python's equality is equality. */
  lemma {:induction false} PyEqRegular(d: Dialect, s: Json, t: Json)
    requires PyEq(s, t) && Regular(d, s, t)
    ensures s == t
    decreases s, 0
  {
    if s.Obj? && t.Obj? {
      var f, g := s.fields, t.fields;
      forall key | key in f ensures f[key] == g[key] {
        assert PyEq(f[key], g[key]);
        if s == t {
        } else if key == Kw(Properties) || key == Kw(Defs) || key == Kw(Definitions) {
          assert key.k in {Properties, Defs, Definitions};
          PyEqRegularBlock(d, f[key], g[key]);
        } else if key == Kw(Items) {
          PyEqRegularItems(d, f[key], g[key]);
        } else if key == Kw(AdditionalProperties) {
          PyEqRegular(d, f[key], g[key]);
        }
      }
      assert f == g;
    }
  }

  lemma {:induction false} PyEqRegularBlock(d: Dialect, s: Json, t: Json)
    requires PyEq(s, t) && RegularBlock(d, s, t)
    ensures s == t
    decreases s, 1
  {
    if s.Obj? && t.Obj? {
      forall n | n in s.fields ensures s.fields[n] == t.fields[n] {
        if s != t { PyEqRegular(d, s.fields[n], t.fields[n]); }
      }
      assert s.fields == t.fields;
    }
  }

  lemma {:induction false} PyEqRegularItems(d: Dialect, s: Json, t: Json)
    requires PyEq(s, t) && RegularItems(d, s, t)
    ensures s == t
    decreases s, 1
  {
    if s.Arr? && t.Arr? {
      forall i | 0 <= i < |s.items| ensures s.items[i] == t.items[i] {
        PyEqRegular(d, s.items[i], t.items[i]);
      }
      assert s.items == t.items;
    } else {
      PyEqRegular(d, s, t);
    }
  }

  /** What no flag at a keyword of the old object means. */
  lemma KeywordKept(e: Edit, s: Json, t: Json, k: Keyword)
    requires Pair(e, s, t) && s.Obj? && t.Obj? && Kw(k) in s.fields && !IsMetadata(Kw(k))
    ensures Kw(k) in t.fields
    ensures PyEq(s.fields[Kw(k)], t.fields[Kw(k)]) || exists path :: ChangedFlags(e.agent, path, s, t, Kw(k)) == {}
  {
    var path :| Flags(e.agent, path, s, t) == {};
    assert Kw(k) in s.fields.Keys + t.fields.Keys;
    forall r ensures r !in KeyFlags(e.agent, path, s, t, Kw(k)) {
      assert r !in Flags(e.agent, path, s, t);
    }
    assert KeyFlags(e.agent, path, s, t, Kw(k)) == {};
    if !PyEq(s.fields[Kw(k)], t.fields[Kw(k)]) {
      assert ChangedFlags(e.agent, path, s, t, Kw(k)) == {};
    }
  }

  /** A keyword that is not descended into keeps its value, or narrows it provably. */
  lemma ValueKept(e: Edit, s: Json, t: Json, k: Keyword)
    requires Pair(e, s, t) && s.Obj? && t.Obj? && Kw(k) in s.fields && !IsMetadata(Kw(k))
    requires k !in {Properties, Defs, Definitions, Items, AdditionalProperties}
    ensures Kw(k) in t.fields
    ensures s.fields[Kw(k)] == t.fields[Kw(k)] || ValueNarrows(k, s.fields[Kw(k)], t.fields[Kw(k)])
  {
    KeywordKept(e, s, t, k);
    if s != t && !PyEq(s.fields[Kw(k)], t.fields[Kw(k)]) {
      var path :| ChangedFlags(e.agent, path, s, t, Kw(k)) == {};
    }
  }

  // ---- what is inherited, keyword by keyword --------------------------------

  /** Inside the pair `s`, `t`: what the new side accepts is accepted on the old side, pair by pair,
      and a reference-free schema common to both accepts the same on both. */
  ghost predicate Inherits(e: Edit, s: Json, t: Json, accOld: Acceptance, accNew: Acceptance) {
    && (forall s', t', w {:trigger Pair(e, s', t'), accOld(s', w)} ::
          s' < s && t' < t && Pair(e, s', t') && accNew(t', w) ==> accOld(s', w))
    && (forall c, w {:trigger accOld(c, w)} {:trigger accNew(c, w)} ::
          c < s && c < t && RefFree(c) ==> accOld(c, w) == accNew(c, w))
    && (forall c, w {:trigger accOld(c, w)} :: c < s && Trivial(c) ==> accOld(c, w))
    && (forall w :: !accNew(Bool(false), w))
  }

  /** A schema that accepts everything by its form. */
  predicate Trivial(c: Json) {
    c != Bool(false) && (c.Obj? ==> c.fields == map[])
  }

  /** The old schema's part of a common subschema. */
  lemma InheritsSelf(e: Edit, s: Json, t: Json, accOld: Acceptance, accNew: Acceptance, c: Json, w: Json)
    requires Inherits(e, s, t, accOld, accNew) && c < s && c < t && Supported(e.d, e.was, c)
    ensures accNew(c, w) ==> accOld(c, w)
  {
    PairSelf(e, c);
  }

  lemma CombinationInherits(e: Edit, s: Json, t: Json, accOld: Acceptance, accNew: Acceptance, k: Keyword, v: Json)
    requires Pair(e, s, t) && s.Obj? && t.Obj? && Kw(k) in s.fields && Combines(k)
    requires Inherits(e, s, t, accOld, accNew)
    requires Kw(k) in t.fields ==> CombinationHolds(accNew, t.fields, k, v)
    ensures CombinationHolds(accOld, s.fields, k, v)
  {
    hide Flags, Regular;
    ValueKept(e, s, t, k);
    var val := s.fields[Kw(k)];
    assert SupportedAt(e.d, e.was, s, Kw(k));
    if k.AllOf? || k.AnyOf? {
      ListInherits(e, s, t, accOld, accNew, k, v);
    } else if k.OneOf? {
      if val.Arr? { assert Branches(accOld, val.items, v) == Branches(accNew, val.items, v); }
    } else if k.Then? || k.Else? {
      ConditionalInherits(e, s, t, accOld, accNew, k, v);
    }
  }

  lemma ConditionalInherits(e: Edit, s: Json, t: Json, accOld: Acceptance, accNew: Acceptance, k: Keyword, v: Json)
    requires Pair(e, s, t) && s.Obj? && t.Obj? && Kw(k) in s.fields && (k.Then? || k.Else?)
    requires Kw(k) in t.fields && s.fields[Kw(k)] == t.fields[Kw(k)]
    requires Inherits(e, s, t, accOld, accNew)
    requires CombinationHolds(accNew, t.fields, k, v)
    ensures CombinationHolds(accOld, s.fields, k, v)
  {
    assert SupportedAt(e.d, e.was, s, Kw(k));
    ConditionKept(e, s, t, accOld, accNew, v);
    InheritsSelf(e, s, t, accOld, accNew, s.fields[Kw(k)], v);
  }

  lemma ConditionKept(e: Edit, s: Json, t: Json, accOld: Acceptance, accNew: Acceptance, v: Json)
    requires Pair(e, s, t) && s.Obj? && t.Obj?
    requires Inherits(e, s, t, accOld, accNew)
    ensures Kw(If) in s.fields ==> Kw(If) in t.fields && accOld(s.fields[Kw(If)], v) == accNew(t.fields[Kw(If)], v)
  {
    if Kw(If) in s.fields {
      ValueKept(e, s, t, If);
      assert SupportedAt(e.d, e.was, s, Kw(If));
    }
  }

  lemma ListInherits(e: Edit, s: Json, t: Json, accOld: Acceptance, accNew: Acceptance, k: Keyword, v: Json)
    requires Pair(e, s, t) && s.Obj? && t.Obj? && Kw(k) in s.fields && k in {AllOf, AnyOf, PrefixItems}
    requires Inherits(e, s, t, accOld, accNew)
    ensures Kw(k) in t.fields && s.fields[Kw(k)] == t.fields[Kw(k)]
    ensures s.fields[Kw(k)].Arr? ==>
      forall i, w :: 0 <= i < |s.fields[Kw(k)].items| && accNew(s.fields[Kw(k)].items[i], w) ==> accOld(s.fields[Kw(k)].items[i], w)
  {
    ValueKept(e, s, t, k);
    var val := s.fields[Kw(k)];
    assert SupportedAt(e.d, e.was, s, Kw(k));
    if val.Arr? {
      forall i, w | 0 <= i < |val.items| && accNew(val.items[i], w) ensures accOld(val.items[i], w) {
        InheritsSelf(e, s, t, accOld, accNew, val.items[i], w);
      }
    }
  }

  lemma ArrayInherits(e: Edit, s: Json, t: Json, accOld: Acceptance, accNew: Acceptance, k: Keyword, items: seq<Json>)
    requires Pair(e, s, t) && s.Obj? && t.Obj? && Kw(k) in s.fields && OnArrays(k)
    requires Inherits(e, s, t, accOld, accNew)
    requires Kw(k) in t.fields ==> ArrayHolds(accNew, t.fields, k, items)
    ensures ArrayHolds(accOld, s.fields, k, items)
  {
    match k
    case PrefixItems => ListInherits(e, s, t, accOld, accNew, k, Arr(items));
    case Items => ItemsInherit(e, s, t, accOld, accNew, items);
    case Contains => ContainsInherits(e, s, t, accOld, accNew, items);
  }

  lemma ContainsInherits(e: Edit, s: Json, t: Json, accOld: Acceptance, accNew: Acceptance, items: seq<Json>)
    requires Pair(e, s, t) && s.Obj? && t.Obj? && Kw(Contains) in s.fields
    requires Inherits(e, s, t, accOld, accNew)
    requires Kw(Contains) in t.fields ==> ArrayHolds(accNew, t.fields, Contains, items)
    ensures ArrayHolds(accOld, s.fields, Contains, items)
  {
    hide Flags;
    ValueKept(e, s, t, Contains);
    var val := s.fields[Kw(Contains)];
    assert SupportedAt(e.d, e.was, s, Kw(Contains));
    var before, after := Matching(accOld, val, items), Matching(accNew, val, items);
    forall w ensures accNew(val, w) ==> accOld(val, w) { InheritsSelf(e, s, t, accOld, accNew, val, w); }
    assert after <= before;
    Sets.SubsetSize(after, before);
    if Kw(MinContains) in s.fields { ValueKept(e, s, t, MinContains); }
    if Kw(MaxContains) in s.fields {
      ValueKept(e, s, t, MaxContains);
      assert after == before;
    }
    assert s == t || RegularHere(e.d, s.fields, t.fields);
  }

  /** The `items` of the two sides, pair by pair. */
  lemma ItemsPairs(e: Edit, s: Json, t: Json)
    requires Pair(e, s, t) && s.Obj? && t.Obj? && Kw(Items) in s.fields
    ensures Kw(Items) in t.fields
    ensures
      var ov, nv := s.fields[Kw(Items)], t.fields[Kw(Items)];
      if ov.Arr? then nv.Arr? && |ov.items| == |nv.items| && forall i :: 0 <= i < |ov.items| ==> Pair(e, ov.items[i], nv.items[i])
      else !nv.Arr? && Pair(e, ov, nv)
  {
    KeywordKept(e, s, t, Items);
    var ov, nv := s.fields[Kw(Items)], t.fields[Kw(Items)];
    assert SupportedAt(e.d, e.was, s, Kw(Items));
    assert RegularItems(e.d, ov, nv) by {
      if s == t { assert forall j: Json :: Regular(e.d, j, j); }
    }
    if ov.Arr? && nv.Arr? && |ov.items| == |nv.items| {
      forall i | 0 <= i < |ov.items| ensures Pair(e, ov.items[i], nv.items[i]) {
        if PyEq(ov.items[i], nv.items[i]) {
          PyEqRegular(e.d, ov.items[i], nv.items[i]);
          PairSelf(e, ov.items[i]);
        } else {
          var path :| ChangedFlags(e.agent, path, s, t, Kw(Items)) == {};
          var here := path + [Kw(Items)] + [Index(i)];
          assert ItemsFlags(e.agent, path + [Kw(Items)], ov, nv) == {};
          assert PositionsFlags(e.agent, path + [Kw(Items)], ov, nv, |ov.items|) == {};
          forall r ensures r !in Flags(e.agent, here, ov.items[i], nv.items[i]) {
            assert r !in PositionsFlags(e.agent, path + [Kw(Items)], ov, nv, |ov.items|);
            assert r !in EntryFlags(e.agent, here, ov.items[i], nv.items[i]);
          }
          assert Flags(e.agent, here, ov.items[i], nv.items[i]) == {};
        }
      }
    } else if PyEq(ov, nv) {
      PyEqRegularItems(e.d, ov, nv);
      PairSelf(e, ov);
    } else {
      var path :| ChangedFlags(e.agent, path, s, t, Kw(Items)) == {};
      assert ItemsFlags(e.agent, path + [Kw(Items)], ov, nv) == {};
      assert ov.Obj? && nv.Obj?;
      assert Flags(e.agent, path + [Kw(Items)], ov, nv) == {};
    }
  }

  lemma ItemsInherit(e: Edit, s: Json, t: Json, accOld: Acceptance, accNew: Acceptance, items: seq<Json>)
    requires Pair(e, s, t) && s.Obj? && t.Obj? && Kw(Items) in s.fields
    requires Inherits(e, s, t, accOld, accNew)
    requires Kw(Items) in t.fields ==> ArrayHolds(accNew, t.fields, Items, items)
    ensures ArrayHolds(accOld, s.fields, Items, items)
  {
    ItemsPairs(e, s, t);
    var ov, nv := s.fields[Kw(Items)], t.fields[Kw(Items)];
    if !ov.Arr? {
      if Kw(PrefixItems) in s.fields { ValueKept(e, s, t, PrefixItems); }
      if PrefixLength(s.fields) != PrefixLength(t.fields) {
        assert RegularHere(e.d, s.fields, t.fields);
        assert Trivial(ov);
      }
    }
  }

  /** The `properties` of the two sides: common names pair up, and a name on one side only has its reason. */
  lemma PropertiesPairs(e: Edit, s: Json, t: Json)
    requires Pair(e, s, t) && s.Obj? && t.Obj? && Kw(Properties) in s.fields
    ensures Kw(Properties) in t.fields
    ensures
      var ov, nv, ap := s.fields[Kw(Properties)], t.fields[Kw(Properties)], At(s.fields, AdditionalProperties);
      if ov.Obj? && nv.Obj? then
        && (forall n :: n in ov.fields && n in nv.fields ==> Pair(e, ov.fields[n], nv.fields[n]))
        && (forall n :: n in ov.fields && n !in nv.fields ==> ap == Some(Bool(false)))
        && (forall n :: n in nv.fields && n !in ov.fields ==> Open(ap))
      else ov == nv
  {
    KeywordKept(e, s, t, Properties);
    var ov, nv, ap := s.fields[Kw(Properties)], t.fields[Kw(Properties)], At(s.fields, AdditionalProperties);
    assert SupportedAt(e.d, e.was, s, Kw(Properties));
    assert Properties in {Properties, Defs, Definitions};
    assert RegularBlock(e.d, ov, nv);
    if PyEq(ov, nv) {
      PyEqRegularBlock(e.d, ov, nv);
      if ov.Obj? {
        forall n | n in ov.fields ensures Pair(e, ov.fields[n], nv.fields[n]) { PairSelf(e, ov.fields[n]); }
      }
    } else {
      var path :| ChangedFlags(e.agent, path, s, t, Kw(Properties)) == {};
      var here := path + [Kw(Properties)];
      assert PropertiesFlags(e.agent, here, ov, nv, ap) == {};
      assert ov.Obj? && nv.Obj?;
      forall n | n in ov.fields || n in nv.fields
        ensures PropertyFlags(e.agent, here, ov, nv, n, ap) == {}
      {
        assert n in ov.fields.Keys + nv.fields.Keys;
        forall r ensures r !in PropertyFlags(e.agent, here, ov, nv, n, ap) {
          assert r !in NamesFlags(e.agent, here, ov, nv, ov.fields.Keys + nv.fields.Keys, ap);
        }
      }
      forall n | n in ov.fields && n in nv.fields ensures Pair(e, ov.fields[n], nv.fields[n]) {
        assert Flags(e.agent, here + [n], ov.fields[n], nv.fields[n]) == {};
        assert Regular(e.d, ov.fields[n], nv.fields[n]);
      }
    }
  }

  /** The `additionalProperties` of the two sides. */
  lemma AdditionalPairs(e: Edit, s: Json, t: Json)
    requires Pair(e, s, t) && s.Obj? && t.Obj? && Kw(AdditionalProperties) in s.fields
    ensures Kw(AdditionalProperties) in t.fields
    ensures
      var ov, nv := s.fields[Kw(AdditionalProperties)], t.fields[Kw(AdditionalProperties)];
      nv == Bool(false) || Trivial(ov) || (ov != Bool(false) && Pair(e, ov, nv))
  {
    KeywordKept(e, s, t, AdditionalProperties);
    var ov, nv := s.fields[Kw(AdditionalProperties)], t.fields[Kw(AdditionalProperties)];
    assert SupportedAt(e.d, e.was, s, Kw(AdditionalProperties));
    assert Regular(e.d, ov, nv);
    if PyEq(ov, nv) {
      PyEqRegular(e.d, ov, nv);
      PairSelf(e, ov);
    } else {
      var path :| ChangedFlags(e.agent, path, s, t, Kw(AdditionalProperties)) == {};
      assert AdditionalFlags(e.agent, path + [Kw(AdditionalProperties)], ov, nv) == {};
      assert Rank(nv) <= Rank(ov);
      if ov.Obj? && nv.Obj? {
        assert Flags(e.agent, path + [Kw(AdditionalProperties)], ov, nv) == {};
      }
    }
  }

  /** A name the old object left to `additionalProperties` is left to it by the new one, unless it was open. */
  lemma LeftToAdditional(e: Edit, s: Json, t: Json, name: Text)
    requires Pair(e, s, t) && s.Obj? && t.Obj?
    requires !Named(s.fields, name) && !Patterned(e.d, s.fields, name)
    ensures Open(At(s.fields, AdditionalProperties)) || (!Named(t.fields, name) && !Patterned(e.d, t.fields, name))
  {
    if Kw(Properties) in s.fields { PropertiesPairs(e, s, t); }
    if Kw(PatternProperties) in s.fields { ValueKept(e, s, t, PatternProperties); }
    assert s == t || RegularHere(e.d, s.fields, t.fields);
  }

  /** A name removed from a closed object is not evaluated by the new one. */
  lemma RemovedIsForbidden(e: Edit, s: Json, t: Json, name: Text)
    requires Pair(e, s, t) && s.Obj? && t.Obj? && Named(s.fields, name) && !Named(t.fields, name)
    ensures At(t.fields, AdditionalProperties) == Some(Bool(false)) && !Patterned(e.d, t.fields, name)
  {
    PropertiesPairs(e, s, t);
    AdditionalPairs(e, s, t);
    if Kw(PatternProperties) in s.fields { ValueKept(e, s, t, PatternProperties); }
    assert s == t || RegularHere(e.d, s.fields, t.fields);
  }

  lemma ObjectInherits(e: Edit, s: Json, t: Json, accOld: Acceptance, accNew: Acceptance, k: Keyword, members: Fields)
    requires Pair(e, s, t) && s.Obj? && t.Obj? && Kw(k) in s.fields && OnObjects(k)
    requires Inherits(e, s, t, accOld, accNew)
    requires forall k' :: Kw(k') in t.fields && OnObjects(k') ==> ObjectHolds(e.d, accNew, t.fields, k', members)
    ensures ObjectHolds(e.d, accOld, s.fields, k, members)
  {
    hide Flags, Regular;
    if k.Properties? {
      PropertiesInherit(e, s, t, accOld, accNew, members);
    } else if k.AdditionalProperties? {
      AdditionalInherits(e, s, t, accOld, accNew, members);
    } else {
      ValueKept(e, s, t, k);
      CommonObjectInherits(e, s, t, accOld, accNew, k, members);
    }
  }

  lemma PropertiesInherit(e: Edit, s: Json, t: Json, accOld: Acceptance, accNew: Acceptance, members: Fields)
    requires Pair(e, s, t) && s.Obj? && t.Obj? && Kw(Properties) in s.fields
    requires Inherits(e, s, t, accOld, accNew)
    requires forall k' :: Kw(k') in t.fields && OnObjects(k') ==> ObjectHolds(e.d, accNew, t.fields, k', members)
    ensures ObjectHolds(e.d, accOld, s.fields, Properties, members)
  {
    PropertiesPairs(e, s, t);
    assert ObjectHolds(e.d, accNew, t.fields, Properties, members);
    var ov := s.fields[Kw(Properties)];
    if ov.Obj? {
      forall name | name in members && name in ov.fields ensures Named(t.fields, name) {
        if !Named(t.fields, name) { RemovedIsForbidden(e, s, t, name); }
      }
    }
  }

  lemma AdditionalInherits(e: Edit, s: Json, t: Json, accOld: Acceptance, accNew: Acceptance, members: Fields)
    requires Pair(e, s, t) && s.Obj? && t.Obj? && Kw(AdditionalProperties) in s.fields
    requires Inherits(e, s, t, accOld, accNew)
    requires forall k' :: Kw(k') in t.fields && OnObjects(k') ==> ObjectHolds(e.d, accNew, t.fields, k', members)
    ensures ObjectHolds(e.d, accOld, s.fields, AdditionalProperties, members)
  {
    AdditionalPairs(e, s, t);
    var ov := s.fields[Kw(AdditionalProperties)];
    forall name | name in members && !Named(s.fields, name) && !Patterned(e.d, s.fields, name)
      ensures accOld(ov, members[name])
    {
      LeftToAdditional(e, s, t, name);
      assert ObjectHolds(e.d, accNew, t.fields, AdditionalProperties, members);
    }
  }

  lemma CommonObjectInherits(e: Edit, s: Json, t: Json, accOld: Acceptance, accNew: Acceptance, k: Keyword, members: Fields)
    requires Pair(e, s, t) && s.Obj? && t.Obj? && Kw(k) in s.fields && Kw(k) in t.fields
    requires k in {PropertyNames, PatternProperties, DependentSchemas} && s.fields[Kw(k)] == t.fields[Kw(k)]
    requires Inherits(e, s, t, accOld, accNew)
    requires ObjectHolds(e.d, accNew, t.fields, k, members)
    ensures ObjectHolds(e.d, accOld, s.fields, k, members)
  {
    hide Flags, Regular;
    var val := s.fields[Kw(k)];
    assert SupportedAt(e.d, e.was, s, Kw(k));
    if k.PropertyNames? {
      PairSelf(e, val);
    } else if val.Obj? {
      forall n | n in val.fields ensures Pair(e, val.fields[n], val.fields[n]) { PairSelf(e, val.fields[n]); }
    }
  }

  /** A narrowed value accepts less. */
  lemma ScalarInherits(e: Edit, s: Json, t: Json, k: Keyword, v: Json)
    requires Pair(e, s, t) && s.Obj? && t.Obj? && Kw(k) in s.fields
    requires !OnObjects(k) && !OnArrays(k) && !Combines(k)
    requires Kw(k) in t.fields ==> ScalarHolds(e.d, k, t.fields[Kw(k)], v)
    ensures ScalarHolds(e.d, k, s.fields[Kw(k)], v)
  {
    if !IsMetadata(Kw(k)) && k !in {Defs, Definitions} {
      ValueKept(e, s, t, k);
      var ov, nv := s.fields[Kw(k)], t.fields[Kw(k)];
      if ov != nv {
        if k.MultipleOf? {
          assert RegularHere(e.d, s.fields, t.fields);
          if v.Num? { MultipleInherits(ov, nv, v.n); }
        } else if k.Required? && v.Obj? {
          forall name | Str(name) in ov.items ensures name in v.fields {
            var y :| y in nv.items && PyEq(Str(name), y);
            assert y == Str(name);
          }
        }
      }
    }
  }

  lemma MultipleInherits(ov: Json, nv: Json, x: real)
    requires Exact(ov) && Exact(nv) && ov.n > 0.0 && nv.n > 0.0 && Divides(ov.n, nv.n)
    requires IsMultiple(x, nv.n)
    ensures IsMultiple(x, ov.n)
  {
    var a, b := ov.n.Floor, nv.n.Floor;
    DividesExactly(a, b);
    var q :| x == Times(q, nv.n);
    var j := b / a;
    assert b == j * a;
    assert nv.n == j as real * ov.n;
    assert Times(q, nv.n) == Times(q * j, ov.n) by { assert q as real * (j as real * ov.n) == (q * j) as real * ov.n; }
  }

  // ---- references and the main theorem --------------------------------------

  /** The two documents are a pair themselves, and look their references up in themselves. */
  ghost predicate Passes(e: Edit) {
    Pair(e, e.was, e.now) && Rooted(e.was) && Rooted(e.now)
  }

  /** A reference that resolves on both sides leads to a pair. */
  lemma TargetsPair(e: Edit, ref: Json)
    requires Passes(e) && Resolve(e.d, e.was, ref).Some? && Resolve(e.d, e.now, ref).Some?
    requires e.d.target(ref).value.Definition? ==> IsBlock(e.d.target(ref).value.block)
    ensures Pair(e, Resolve(e.d, e.was, ref).value, Resolve(e.d, e.now, ref).value)
  {
    hide Flags, Rooted, Regular, Supported;
    var target := e.d.target(ref).value;
    if target.Definition? {
      var block, name := target.block, target.name;
      if block.Defs? || block.Definitions? {
        DefinitionsPair(e, block, name);
      } else if block.Properties? {
        PropertiesPairs(e, e.was, e.now);
        SupportedEntry(e, block, name);
        if e.was.fields[Kw(block)] == e.now.fields[Kw(block)] { PairSelf(e, e.was.fields[Kw(block)].fields[name]); }
      } else {
        ValueKept(e, e.was, e.now, block);
        SupportedEntry(e, block, name);
        PairSelf(e, e.was.fields[Kw(block)].fields[name]);
      }
    }
  }

  lemma SupportedEntry(e: Edit, block: Keyword, name: Text)
    requires Pair(e, e.was, e.now) && e.was.Obj? && Kw(block) in e.was.fields && IsBlock(block)
    requires e.was.fields[Kw(block)].Obj? && name in e.was.fields[Kw(block)].fields
    ensures Supported(e.d, e.was, e.was.fields[Kw(block)].fields[name])
  {
    hide Flags, Regular;
    assert SupportedAt(e.d, e.was, e.was, Kw(block));
  }

  lemma DefinitionsPair(e: Edit, block: Keyword, name: Text)
    requires Pair(e, e.was, e.now) && e.was.Obj? && e.now.Obj? && (block.Defs? || block.Definitions?)
    requires Kw(block) in e.was.fields && e.was.fields[Kw(block)].Obj? && name in e.was.fields[Kw(block)].fields
    requires Kw(block) in e.now.fields && e.now.fields[Kw(block)].Obj? && name in e.now.fields[Kw(block)].fields
    ensures Pair(e, e.was.fields[Kw(block)].fields[name], e.now.fields[Kw(block)].fields[name])
  {
    hide Flags;
    KeywordKept(e, e.was, e.now, block);
    var ov, nv := e.was.fields[Kw(block)], e.now.fields[Kw(block)];
    SupportedEntry(e, block, name);
    assert RegularBlock(e.d, ov, nv);
    if PyEq(ov, nv) { PyEqRegularBlock(e.d, ov, nv); }
    if ov == nv {
      PairSelf(e, ov.fields[name]);
    } else {
      var path :| ChangedFlags(e.agent, path, e.was, e.now, Kw(block)) == {};
      EntriesPair(e, path + [Kw(block)], Kw(block), ov, nv, name);
    }
  }

  lemma EntriesPair(e: Edit, here: seq<Text>, key: Text, ov: Json, nv: Json, name: Text)
    requires ov.Obj? && nv.Obj? && name in ov.fields && name in nv.fields
    requires BlockFlags(e.agent, here, key, ov, nv) == {} && RegularBlock(e.d, ov, nv)
    requires Supported(e.d, e.was, ov.fields[name])
    ensures Pair(e, ov.fields[name], nv.fields[name])
  {
    if ov == nv {
      PairSelf(e, ov.fields[name]);
    } else if PyEq(ov.fields[name], nv.fields[name]) {
      PyEqRegular(e.d, ov.fields[name], nv.fields[name]);
      PairSelf(e, ov.fields[name]);
    } else {
      forall r ensures r !in Flags(e.agent, here + [name], ov.fields[name], nv.fields[name]) {
        assert r !in EntriesFlags(e.agent, here, ov.fields, nv.fields, ov.fields.Keys * nv.fields.Keys);
        assert r !in EntryFlags(e.agent, here + [name], ov.fields[name], nv.fields[name]);
      }
      assert Flags(e.agent, here + [name], ov.fields[name], nv.fields[name]) == {};
    }
  }

  lemma {:induction false} PairAccepts(e: Edit, fuel: nat, s: Json, t: Json, v: Json)
    requires Passes(e) && Pair(e, s, t)
    requires Accepts(e.d, e.now, e.spent, fuel, t, v)
    ensures Accepts(e.d, e.was, e.spent, fuel, s, v)
    decreases fuel, s
  {
    hide Flags, Holds, Regular, Rooted;
    if s.Obj? && t.Obj? {
      var accOld, accNew := Inner(e.d, e.was, e.spent, fuel, s), Inner(e.d, e.now, e.spent, fuel, t);
      InnerInherits(e, fuel, s, t);
      forall k | Kw(k) in s.fields ensures Holds(e.d, accOld, s.fields, k, v) {
        HoldsInherits(e, s, t, accOld, accNew, k, v);
      }
      NothingForeign(e, s);
      if Kw(Ref) in s.fields {
        var ref := s.fields[Kw(Ref)];
        ValueKept(e, s, t, Ref);
        assert SupportedAt(e.d, e.was, s, Kw(Ref));
        TargetsPair(e, ref);
        if fuel > 0 {
          PairAccepts(e, fuel - 1, Resolve(e.d, e.was, ref).value, Resolve(e.d, e.now, ref).value, v);
        }
      }
    } else {
      PairIsEqual(e, s, t);
    }
  }

  lemma NothingForeign(e: Edit, s: Json)
    requires Supported(e.d, e.was, s) && s.Obj?
    ensures forall k :: Kw(k) in s.fields ==> !IsForeign(k)
  {
    forall k | Kw(k) in s.fields ensures !IsForeign(k) {
      assert SupportedAt(e.d, e.was, s, Kw(k));
    }
  }

  lemma PairIsEqual(e: Edit, s: Json, t: Json)
    requires Pair(e, s, t) && (!s.Obj? || !t.Obj?)
    ensures s == t && !s.Obj?
  {
    var path :| Flags(e.agent, path, s, t) == {};
    assert PyEq(s, t);
  }

  lemma {:induction false} InnerInherits(e: Edit, fuel: nat, s: Json, t: Json)
    requires Passes(e) && s.Obj? && t.Obj?
    ensures Inherits(e, s, t, Inner(e.d, e.was, e.spent, fuel, s), Inner(e.d, e.now, e.spent, fuel, t))
    decreases fuel, s, 0
  {
    var accOld, accNew := Inner(e.d, e.was, e.spent, fuel, s), Inner(e.d, e.now, e.spent, fuel, t);
    forall s', t', w | s' < s && t' < t && Pair(e, s', t') && accNew(t', w) ensures accOld(s', w) {
      PairAccepts(e, fuel, s', t', w);
    }
    forall c, w | c < s && c < t && RefFree(c) ensures accOld(c, w) == accNew(c, w) {
      RefFreeSame(e.d, e.was, e.now, e.spent, fuel, c, w);
    }
  }

  lemma HoldsInherits(e: Edit, s: Json, t: Json, accOld: Acceptance, accNew: Acceptance, k: Keyword, v: Json)
    requires Pair(e, s, t) && s.Obj? && t.Obj? && Kw(k) in s.fields
    requires Inherits(e, s, t, accOld, accNew)
    requires forall k' :: Kw(k') in t.fields ==> Holds(e.d, accNew, t.fields, k', v)
    ensures Holds(e.d, accOld, s.fields, k, v)
  {
    assert Kw(k) in t.fields ==> Holds(e.d, accNew, t.fields, k, v);
    if OnObjects(k) {
      if v.Obj? {
        forall k' | Kw(k') in t.fields && OnObjects(k') ensures ObjectHolds(e.d, accNew, t.fields, k', v.fields) {
          assert Holds(e.d, accNew, t.fields, k', v);
        }
        ObjectInherits(e, s, t, accOld, accNew, k, v.fields);
      }
    } else if OnArrays(k) {
      if v.Arr? { ArrayInherits(e, s, t, accOld, accNew, k, v.items); }
    } else if Combines(k) {
      CombinationInherits(e, s, t, accOld, accNew, k, v);
    } else {
      ScalarInherits(e, s, t, k, v);
    }
  }

  /** The two documents are inside the fragment: references of the old one are well placed, the edit is regular,
      and neither document moves the base of its references. */
  ghost predicate InFragment(d: Dialect, was: Json, now: Json) {
    Supported(d, was, was) && Regular(d, was, now) && Rooted(was) && Rooted(now)
  }

  /** An edit that is not flagged accepts nothing new: at every depth of unfolding, and whatever a spent reference means. */
  lemma NoFlagNoRelaxation(d: Dialect, agent: string, was: Json, now: Json, spent: bool, fuel: nat, v: Json)
    requires InFragment(d, was, now) && Flags(agent, [], was, now) == {}
    requires Accepts(d, now, spent, fuel, now, v)
    ensures Accepts(d, was, spent, fuel, was, v)
  {
    PairAccepts(Edit(d, agent, was, now, spent), fuel, was, now, v);
  }

  lemma AdmitsShrinks(d: Dialect, agent: string, was: Json, now: Json, v: Json)
    requires InFragment(d, was, now) && Flags(agent, [], was, now) == {}
    requires Admits(d, now, v)
    ensures Admits(d, was, v)
  {
    var fuel: nat :| Accepts(d, now, false, fuel, now, v);
    NoFlagNoRelaxation(d, agent, was, now, false, fuel, v);
  }

  /** However many edits are let through one after the other, the set of accepted values only shrinks. */
  lemma {:induction false} HistoryShrinks(d: Dialect, agent: string, versions: seq<Json>, v: Json)
    requires versions != []
    requires forall i :: 0 <= i < |versions| - 1 ==> InFragment(d, versions[i], versions[i + 1])
    requires forall i :: 0 <= i < |versions| - 1 ==> Flags(agent, [], versions[i], versions[i + 1]) == {}
    requires Admits(d, versions[|versions| - 1], v)
    ensures forall i :: 0 <= i < |versions| ==> Admits(d, versions[i], v)
    decreases |versions|
  {
    var n := |versions| - 1;
    if n > 0 {
      AdmitsShrinks(d, agent, versions[n - 1], versions[n], v);
      HistoryShrinks(d, agent, versions[..n], v);
      forall i | 0 <= i < |versions| ensures Admits(d, versions[i], v) {
        if i < n { assert versions[..n][i] == versions[i]; }
      }
    }
  }
}
