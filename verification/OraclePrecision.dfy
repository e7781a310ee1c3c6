/** What the oracle lets through, and what it says about the rest: nothing is flagged exactly between a schema and a
    tightening of it, and every flag stands at the place of a change, with the values that are there. */
module OraclePrecision {

  import opened Wrappers
  import opened JsonSchema
  import opened SchemaOracle

  // ---- tightenings ----------------------------------------------------------

  /** Keywords that only annotate. */
  predicate Annotates(key: Text) {
    key in {Kw(Title), Kw(Description), Kw(Default), Kw(Examples)}
  }

  /** The new schema keeps every constraint of the old one, or tightens it. It may add others. */
  ghost predicate Tightened(was: Json, now: Json)
    decreases was, 2
  {
    if was.Obj? && now.Obj? then
      forall key :: key in was.fields && !Annotates(key) ==> key in now.fields && KeptOrTightened(was, now, key)
    else PyEq(was, now)
  }

  ghost predicate KeptOrTightened(was: Json, now: Json, key: Text)
    requires was.Obj? && now.Obj? && key in was.fields && key in now.fields
    decreases was, 1
  {
    var ov, nv := was.fields[key], now.fields[key];
    PyEq(ov, nv) || (key.Kw? && ValueTightened(key.k, ov, nv))
    || (key == Kw(Properties) && NamesTightened(ov, nv, At(was.fields, AdditionalProperties)))
    || ((key == Kw(Defs) || key == Kw(Definitions)) && EntriesTightened(ov, nv))
    || (key == Kw(Items) && ItemsTightened(ov, nv))
    || (key == Kw(AdditionalProperties) && AdditionalTightened(ov, nv))
  }

  /** A bound that moved inwards, fewer values to choose from, more names required, a multiple of the divisor. */
  ghost predicate ValueTightened(k: Keyword, ov: Json, nv: Json) {
    match k
    case MaxLength => IsNarrower(nv, ov)
    case MaxItems => IsNarrower(nv, ov)
    case MaxProperties => IsNarrower(nv, ov)
    case Maximum => IsNarrower(nv, ov)
    case ExclusiveMaximum => IsNarrower(nv, ov)
    case MinLength => IsNarrower(ov, nv)
    case MinItems => IsNarrower(ov, nv)
    case MinProperties => IsNarrower(ov, nv)
    case Minimum => IsNarrower(ov, nv)
    case ExclusiveMinimum => IsNarrower(ov, nv)
    case MultipleOf =>
      ov.Num? && nv.Num? && ov.n > 0.0 && nv.n > 0.0 && Divides(ov.n, nv.n) && !Divides(nv.n, ov.n)
    case Enum => ov.Arr? && nv.Arr? && forall x :: x in nv.items ==> x in ov.items
    case Required => ov.Arr? && nv.Arr? && forall x :: x in ov.items ==> exists y :: y in nv.items && PyEq(x, y)
    case _ => false
  }

  predicate IsNarrower(low: Json, high: Json) {
    low.Num? && high.Num? && low.n <= high.n
  }

  /** Names on both sides are tightened; a new name is taken in only where any value was accepted, and a name is dropped
      only where that forbids it. */
  ghost predicate NamesTightened(ov: Json, nv: Json, additional: Option<Json>)
    decreases ov, 3
  {
    && ov.Obj? && nv.Obj?
    && (forall n :: n in ov.fields && n in nv.fields ==> Tightened(ov.fields[n], nv.fields[n]))
    && (forall n :: n in nv.fields && n !in ov.fields ==>
          additional.None? || additional.value == Bool(true) || additional.value == Null || additional.value == Obj(map[]))
    && (forall n :: n in ov.fields && n !in nv.fields ==> additional == Some(Bool(false)))
  }

  /** Definitions on one side only do not matter. */
  ghost predicate EntriesTightened(ov: Json, nv: Json)
    decreases ov, 3
  {
    && ov.Obj? && nv.Obj?
    && forall n :: n in ov.fields && n in nv.fields ==> PyEq(ov.fields[n], nv.fields[n]) || Tightened(ov.fields[n], nv.fields[n])
  }

  ghost predicate ItemsTightened(ov: Json, nv: Json)
    decreases ov, 3
  {
    || (ov.Obj? && nv.Obj? && Tightened(ov, nv))
    || (ov.Arr? && nv.Arr? && |ov.items| == |nv.items|
        && forall i :: 0 <= i < |ov.items| ==> PyEq(ov.items[i], nv.items[i]) || Tightened(ov.items[i], nv.items[i]))
  }

  /** From anything to a schema or to nothing, from a schema to nothing, or to a tightening of the schema. What is neither
      a boolean nor a schema counts as anything. */
  ghost predicate AdditionalTightened(ov: Json, nv: Json)
    decreases ov, 3
  {
    if ov.Obj? then nv == Bool(false) || (nv.Obj? && Tightened(ov, nv))
    else ov == Bool(false) ==> nv == Bool(false)
  }

  // ---- nothing is flagged exactly then --------------------------------------

  lemma {:induction false} TightenedExactly(agent: string, path: seq<Text>, was: Json, now: Json)
    ensures Flags(agent, path, was, now) == {} <==> Tightened(was, now)
    decreases was, 4
  {
    if was.Obj? && now.Obj? {
      var keys := was.fields.Keys + now.fields.Keys;
      assert Flags(agent, path, was, now) == {} <==> forall key :: key in keys ==> KeyFlags(agent, path, was, now, key) == {} by {
        NoKeys(agent, path, was, now, keys);
      }
      forall key | key in keys
        ensures KeyFlags(agent, path, was, now, key) == {} <==>
          (key in was.fields && !Annotates(key) ==> key in now.fields && KeptOrTightened(was, now, key))
      {
        KeyExactly(agent, path, was, now, key);
      }
    }
  }

  lemma NoKeys(agent: string, path: seq<Text>, was: Json, now: Json, keys: set<Text>)
    requires was.Obj? && now.Obj?
    ensures KeysFlags(agent, path, was, now, keys) == {} <==> forall key :: key in keys ==> KeyFlags(agent, path, was, now, key) == {}
  {
    forall key, r | key in keys && r in KeyFlags(agent, path, was, now, key) ensures r in KeysFlags(agent, path, was, now, keys) {
    }
    if key :| key in keys && KeyFlags(agent, path, was, now, key) != {} {
      var r :| r in KeyFlags(agent, path, was, now, key);
      assert r in KeysFlags(agent, path, was, now, keys);
    }
  }

  /** Of the keywords that are compared by value. */
  lemma ValueExactly(k: Keyword, ov: Json, nv: Json)
    ensures ValueNarrows(k, ov, nv) <==> ValueTightened(k, ov, nv)
    ensures k in {Properties, Defs, Definitions, Items, AdditionalProperties} ==> !ValueTightened(k, ov, nv)
  {
  }

  lemma {:induction false} KeyExactly(agent: string, path: seq<Text>, was: Json, now: Json, key: Text)
    requires was.Obj? && now.Obj?
    ensures KeyFlags(agent, path, was, now, key) == {} <==>
      (key in was.fields && !Annotates(key) ==> key in now.fields && KeptOrTightened(was, now, key))
    decreases was, 3
  {
    hide ChangedFlags;
    if key in was.fields && key in now.fields && !PyEq(was.fields[key], now.fields[key]) && !IsMetadata(key) {
      ChangedExactly(agent, path, was, now, key);
      hide KeptOrTightened;
    }
  }

  lemma {:induction false} ChangedExactly(agent: string, path: seq<Text>, was: Json, now: Json, key: Text)
    requires was.Obj? && now.Obj? && key in was.fields && key in now.fields
    requires !PyEq(was.fields[key], now.fields[key]) && !IsMetadata(key)
    ensures ChangedFlags(agent, path, was, now, key) == {} <==> KeptOrTightened(was, now, key)
    decreases was, 2
  {
    var ov, nv, here := was.fields[key], now.fields[key], path + [key];
    if key.Kw? { ValueExactly(key.k, ov, nv); }
    hide PyEq, ValueNarrows, ValueTightened, PropertiesFlags, BlockFlags, ItemsFlags, AdditionalFlags,
      NamesTightened, EntriesTightened, ItemsTightened, AdditionalTightened;
    if key == Kw(Properties) {
      NamesExactly(agent, here, ov, nv, At(was.fields, AdditionalProperties));
    } else if key == Kw(Defs) || key == Kw(Definitions) {
      BlockExactly(agent, here, key, ov, nv);
    } else if key == Kw(Items) {
      ItemsExactly(agent, here, ov, nv);
    } else if key == Kw(AdditionalProperties) {
      AdditionalExactly(agent, here, ov, nv);
    }
  }

  lemma {:induction false} NamesExactly(agent: string, here: seq<Text>, ov: Json, nv: Json, additional: Option<Json>)
    requires !PyEq(ov, nv)
    ensures PropertiesFlags(agent, here, ov, nv, additional) == {} <==> NamesTightened(ov, nv, additional)
    decreases ov, 5
  {
    if ov.Obj? && nv.Obj? {
      var names := ov.fields.Keys + nv.fields.Keys;
      forall n | n in names
        ensures PropertyFlags(agent, here, ov, nv, n, additional) == {} <==>
          if n in ov.fields && n in nv.fields then Tightened(ov.fields[n], nv.fields[n])
          else if n in nv.fields then Open(additional) else additional == Some(Bool(false))
      {
        if n in ov.fields && n in nv.fields { TightenedExactly(agent, here + [n], ov.fields[n], nv.fields[n]); }
      }
      NoNames(agent, here, ov, nv, names, additional);
      hide PropertyFlags, Tightened;
    }
  }

  lemma NoNames(agent: string, here: seq<Text>, ov: Json, nv: Json, names: set<Text>, additional: Option<Json>)
    requires ov.Obj? && nv.Obj?
    ensures NamesFlags(agent, here, ov, nv, names, additional) == {} <==>
      forall n :: n in names ==> PropertyFlags(agent, here, ov, nv, n, additional) == {}
  {
    if n :| n in names && PropertyFlags(agent, here, ov, nv, n, additional) != {} {
      var r :| r in PropertyFlags(agent, here, ov, nv, n, additional);
      assert r in NamesFlags(agent, here, ov, nv, names, additional);
    }
  }

  lemma {:induction false} EntryExactly(agent: string, here: seq<Text>, ov: Json, nv: Json)
    ensures EntryFlags(agent, here, ov, nv) == {} <==> PyEq(ov, nv) || Tightened(ov, nv)
    decreases ov, 5
  {
    if !PyEq(ov, nv) { TightenedExactly(agent, here, ov, nv); }
  }

  lemma {:induction false} BlockExactly(agent: string, here: seq<Text>, key: Text, ov: Json, nv: Json)
    requires !PyEq(ov, nv)
    ensures BlockFlags(agent, here, key, ov, nv) == {} <==> EntriesTightened(ov, nv)
    decreases ov, 6
  {
    if ov.Obj? && nv.Obj? {
      var names := ov.fields.Keys * nv.fields.Keys;
      forall n | n in names
        ensures EntryFlags(agent, here + [n], ov.fields[n], nv.fields[n]) == {} <==>
          PyEq(ov.fields[n], nv.fields[n]) || Tightened(ov.fields[n], nv.fields[n])
      {
        EntryExactly(agent, here + [n], ov.fields[n], nv.fields[n]);
      }
      NoEntries(agent, here, ov.fields, nv.fields, names);
      hide EntryFlags, Tightened;
    }
  }

  lemma NoEntries(agent: string, here: seq<Text>, f: Fields, g: Fields, names: set<Text>)
    requires names <= f.Keys && names <= g.Keys
    ensures EntriesFlags(agent, here, f, g, names) == {} <==>
      forall n :: n in names ==> EntryFlags(agent, here + [n], f[n], g[n]) == {}
  {
    if n :| n in names && EntryFlags(agent, here + [n], f[n], g[n]) != {} {
      var r :| r in EntryFlags(agent, here + [n], f[n], g[n]);
      assert r in EntriesFlags(agent, here, f, g, names);
    }
  }

  lemma {:induction false} ItemsExactly(agent: string, here: seq<Text>, ov: Json, nv: Json)
    requires !PyEq(ov, nv)
    ensures ItemsFlags(agent, here, ov, nv) == {} <==> ItemsTightened(ov, nv)
    decreases ov, 6
  {
    if ov.Obj? && nv.Obj? {
      TightenedExactly(agent, here, ov, nv);
    } else if ov.Arr? && nv.Arr? && |ov.items| == |nv.items| {
      forall i: nat | i < |ov.items|
        ensures EntryFlags(agent, here + [Index(i)], ov.items[i], nv.items[i]) == {} <==>
          PyEq(ov.items[i], nv.items[i]) || Tightened(ov.items[i], nv.items[i])
      {
        EntryExactly(agent, here + [Index(i)], ov.items[i], nv.items[i]);
      }
      NoPositions(agent, here, ov, nv, |ov.items|);
      hide EntryFlags, Tightened;
    }
  }

  lemma NoPositions(agent: string, here: seq<Text>, ov: Json, nv: Json, n: nat)
    requires ov.Arr? && nv.Arr? && n <= |ov.items| && n <= |nv.items|
    ensures PositionsFlags(agent, here, ov, nv, n) == {} <==>
      forall i: nat :: i < n ==> EntryFlags(agent, here + [Index(i)], ov.items[i], nv.items[i]) == {}
  {
    if i: nat :| i < n && EntryFlags(agent, here + [Index(i)], ov.items[i], nv.items[i]) != {} {
      var r :| r in EntryFlags(agent, here + [Index(i)], ov.items[i], nv.items[i]);
      assert r in PositionsFlags(agent, here, ov, nv, n);
    }
  }

  lemma {:induction false} AdditionalExactly(agent: string, here: seq<Text>, ov: Json, nv: Json)
    requires !PyEq(ov, nv)
    ensures AdditionalFlags(agent, here, ov, nv) == {} <==> AdditionalTightened(ov, nv)
    decreases ov, 5
  {
    if ov.Obj? && nv.Obj? { TightenedExactly(agent, here, ov, nv); }
  }

  /** One changed keyword is flagged exactly when it constrains, differs as Python compares, and is not tightened;
      and added keywords never are. */
  lemma OneKeywordExactly(agent: string, path: seq<Text>, f: Fields, key: Text, nv: Json, added: Fields)
    requires key in f && added.Keys !! f.Keys
    ensures
      var was, now := Obj(f), Obj(f[key := nv] + added);
      Flags(agent, path, was, now) == {} <==> Annotates(key) || KeptOrTightened(was, now, key)
  {
    var was, now := Obj(f), Obj(f[key := nv] + added);
    TightenedExactly(agent, path, was, now);
    forall k | k in f && k != key ensures KeptOrTightened(was, now, k) { PyEqReflexive(f[k]); }
    assert Tightened(was, now) <==> Annotates(key) || KeptOrTightened(was, now, key);
  }

  // ---- where flags stand ----------------------------------------------------

  /** What is found in `j` at the end of a route: names lead into objects, and positions into lists. */
  ghost predicate Leads(j: Json, route: seq<Text>, v: Option<Json>)
    decreases |route|
  {
    if route == [] then v == Some(j)
    else
      match j
      case Obj(f) => if route[0] in f then Leads(f[route[0]], route[1..], v) else |route| == 1 && v == None
      case Arr(a) => exists i: nat :: i < |a| && route[0] == Index(i) && Leads(a[i], route[1..], v)
      case _ => false
  }

  /** The flag names this agent, its path goes on from `path`, and what it shows of the two schemas is what is there.
      It shows a change, and names the keyword it is at, or the properties of which it is one. */
  ghost predicate Points(agent: string, path: seq<Text>, was: Json, now: Json, r: Relaxation) {
    && r.agent == agent && path <= r.path
    && var route := r.path[|path|..];
       && Leads(was, route, r.before) && Leads(now, route, r.after)
       && (r.before.None? || r.after.None? || !PyEq(r.before.value, r.after.value))
       && (r.keyword.Some? ==>
             route != [] && (r.keyword.value == route[|route| - 1]
                             || (|route| > 1 && r.keyword.value == Kw(Properties) == route[|route| - 2])))
  }

  lemma {:induction false} LeadsOn(j: Json, step: Text, child: Json, route: seq<Text>, v: Option<Json>)
    requires (j.Obj? && step in j.fields && j.fields[step] == child)
             || (j.Arr? && exists i: nat :: i < |j.items| && step == Index(i) && j.items[i] == child)
    requires Leads(child, route, v)
    ensures Leads(j, [step] + route, v)
  {
    assert ([step] + route)[1..] == route;
  }

  /** A flag inside a child points into the parent. */
  lemma PointsOn(agent: string, path: seq<Text>, was: Json, now: Json, step: Text, c: Json, c': Json, r: Relaxation)
    requires (was.Obj? && step in was.fields && was.fields[step] == c)
             || (was.Arr? && exists i: nat :: i < |was.items| && step == Index(i) && was.items[i] == c)
    requires (now.Obj? && step in now.fields && now.fields[step] == c')
             || (now.Arr? && exists i: nat :: i < |now.items| && step == Index(i) && now.items[i] == c')
    requires Points(agent, path + [step], c, c', r)
    ensures Points(agent, path, was, now, r)
  {
    var route, inner := r.path[|path|..], r.path[|path| + 1..];
    assert r.path[..|path| + 1] == path + [step];
    assert r.path[..|path|] == path && r.path[|path|] == step;
    assert route == [step] + inner;
    LeadsOn(was, step, c, inner, r.before);
    LeadsOn(now, step, c', inner, r.after);
    hide Leads;
  }

  lemma {:induction false} FlagsPoint(agent: string, path: seq<Text>, was: Json, now: Json, r: Relaxation)
    requires r in Flags(agent, path, was, now)
    ensures Points(agent, path, was, now, r)
    decreases was, 4
  {
    if was.Obj? && now.Obj? {
      var key :| key in was.fields.Keys + now.fields.Keys && r in KeyFlags(agent, path, was, now, key);
      KeyPoints(agent, path, was, now, key, r);
    } else {
      assert r.path[|path|..] == [];
    }
  }

  /** A flag on a changed keyword is about the keyword itself or about something inside. */
  predicate AtKey(agent: string, here: seq<Text>, key: Text, ov: Json, nv: Json, r: Relaxation) {
    r == Relaxation(agent, here, Some(key), Some(ov), Some(nv))
  }

  lemma {:induction false} PropertiesPoint(agent: string, path: seq<Text>, was: Json, now: Json, r: Relaxation)
    requires was.Obj? && now.Obj? && Kw(Properties) in was.fields && Kw(Properties) in now.fields
    requires
      var ov, nv, here := was.fields[Kw(Properties)], now.fields[Kw(Properties)], path + [Kw(Properties)];
      r in PropertiesFlags(agent, here, ov, nv, At(was.fields, AdditionalProperties)) && !AtKey(agent, here, Kw(Properties), ov, nv, r)
    ensures Points(agent, path, was, now, r)
    decreases was.fields[Kw(Properties)], 7
  {
    var ov, nv, here := was.fields[Kw(Properties)], now.fields[Kw(Properties)], path + [Kw(Properties)];
    var n :| n in ov.fields.Keys + nv.fields.Keys && r in PropertyFlags(agent, here, ov, nv, n, At(was.fields, AdditionalProperties));
    if n in ov.fields && n in nv.fields {
      FlagsPoint(agent, here + [n], ov.fields[n], nv.fields[n], r);
      PointsOn(agent, here, ov, nv, n, ov.fields[n], nv.fields[n], r);
      PointsOn(agent, path, was, now, Kw(Properties), ov, nv, r);
    } else {
      NamePoints(agent, path, was, now, n, r);
    }
  }

  lemma {:induction false} BlockPoints(agent: string, here: seq<Text>, key: Text, ov: Json, nv: Json, r: Relaxation)
    requires r in BlockFlags(agent, here, key, ov, nv) && !AtKey(agent, here, key, ov, nv, r)
    ensures Points(agent, here, ov, nv, r)
    decreases ov, 7
  {
    var n :| n in ov.fields.Keys * nv.fields.Keys && r in EntryFlags(agent, here + [n], ov.fields[n], nv.fields[n]);
    FlagsPoint(agent, here + [n], ov.fields[n], nv.fields[n], r);
    PointsOn(agent, here, ov, nv, n, ov.fields[n], nv.fields[n], r);
  }

  lemma {:induction false} ItemsPoint(agent: string, here: seq<Text>, ov: Json, nv: Json, r: Relaxation)
    requires r in ItemsFlags(agent, here, ov, nv) && !AtKey(agent, here, Kw(Items), ov, nv, r)
    ensures Points(agent, here, ov, nv, r)
    decreases ov, 7
  {
    if ov.Obj? && nv.Obj? {
      FlagsPoint(agent, here, ov, nv, r);
    } else {
      var i: nat :| i < |ov.items| && r in EntryFlags(agent, here + [Index(i)], ov.items[i], nv.items[i]);
      FlagsPoint(agent, here + [Index(i)], ov.items[i], nv.items[i], r);
      PointsOn(agent, here, ov, nv, Index(i), ov.items[i], nv.items[i], r);
    }
  }

  lemma {:induction false} AdditionalPoints(agent: string, here: seq<Text>, ov: Json, nv: Json, r: Relaxation)
    requires r in AdditionalFlags(agent, here, ov, nv) && !AtKey(agent, here, Kw(AdditionalProperties), ov, nv, r)
    ensures Points(agent, here, ov, nv, r)
    decreases ov, 7
  {
    FlagsPoint(agent, here, ov, nv, r);
  }

  lemma {:induction false} KeyPoints(agent: string, path: seq<Text>, was: Json, now: Json, key: Text, r: Relaxation)
    requires was.Obj? && now.Obj? && r in KeyFlags(agent, path, was, now, key)
    ensures Points(agent, path, was, now, r)
    decreases was, 3
  {
    hide Points, PropertiesFlags, BlockFlags, ItemsFlags, AdditionalFlags, ValueNarrows;
    if key !in now.fields {
      AtKeyPoints(agent, path, was, now, key, r);
    } else {
      var ov, nv, here := was.fields[key], now.fields[key], path + [key];
      if AtKey(agent, here, key, ov, nv, r) {
        AtKeyPoints(agent, path, was, now, key, r);
      } else if key == Kw(Properties) {
        PropertiesPoint(agent, path, was, now, r);
      } else {
        if key == Kw(Items) {
          ItemsPoint(agent, here, ov, nv, r);
        } else if key == Kw(AdditionalProperties) {
          AdditionalPoints(agent, here, ov, nv, r);
        } else {
          BlockPoints(agent, here, key, ov, nv, r);
        }
        PointsOn(agent, path, was, now, key, ov, nv, r);
      }
    }
  }

  lemma AtKeyPoints(agent: string, path: seq<Text>, was: Json, now: Json, key: Text, r: Relaxation)
    requires was.Obj? && now.Obj? && key in was.fields
    requires key in now.fields ==> !PyEq(was.fields[key], now.fields[key])
    requires
      r == Relaxation(agent, path + [key], Some(key), Some(was.fields[key]), if key in now.fields then Some(now.fields[key]) else None)
    ensures Points(agent, path, was, now, r)
  {
    assert r.path[|path|..] == [key] && r.path[..|path|] == path;
    assert [key][1..] == [];
  }

  lemma NamePoints(agent: string, path: seq<Text>, was: Json, now: Json, n: Text, r: Relaxation)
    requires was.Obj? && now.Obj? && Kw(Properties) in was.fields && Kw(Properties) in now.fields
    requires was.fields[Kw(Properties)].Obj? && now.fields[Kw(Properties)].Obj?
    requires n !in was.fields[Kw(Properties)].fields || n !in now.fields[Kw(Properties)].fields
    requires
      r in PropertyFlags(agent, path + [Kw(Properties)], was.fields[Kw(Properties)], now.fields[Kw(Properties)], n,
                         At(was.fields, AdditionalProperties))
    ensures Points(agent, path, was, now, r)
  {
    var route := [Kw(Properties), n];
    assert r.path == path + route && r.path[|path|..] == route && r.path[..|path|] == path;
    assert route[1..] == [n] && [n][1..] == [];
  }

  // ---- everything is reported -----------------------------------------------

  lemma {:induction false} KeyPrefix(agent: string, path: seq<Text>, was: Json, now: Json, key: Text, r: Relaxation)
    requires was.Obj? && now.Obj? && r in KeyFlags(agent, path, was, now, key)
    ensures path + [key] <= r.path
  {
    hide Points, ValueNarrows;
    var here := path + [key];
    if key in now.fields && !AtKey(agent, here, key, was.fields[key], now.fields[key], r) {
      var ov, nv := was.fields[key], now.fields[key];
      hide ChangedFlags;
      assert r in ChangedFlags(agent, path, was, now, key);
      InsidePrefix(agent, path, was, now, key, r);
    }
  }

  lemma InsidePrefix(agent: string, path: seq<Text>, was: Json, now: Json, key: Text, r: Relaxation)
    requires was.Obj? && now.Obj? && key in was.fields && key in now.fields && r in ChangedFlags(agent, path, was, now, key)
    requires !AtKey(agent, path + [key], key, was.fields[key], now.fields[key], r)
    ensures path + [key] <= r.path
  {
    hide ValueNarrows, Leads;
    var ov, nv, here := was.fields[key], now.fields[key], path + [key];
    if key == Kw(Properties) {
      PropertiesPrefix(agent, here, ov, nv, At(was.fields, AdditionalProperties), r);
    } else if key == Kw(Items) {
      ItemsPoint(agent, here, ov, nv, r);
    } else if key == Kw(AdditionalProperties) {
      AdditionalPoints(agent, here, ov, nv, r);
    } else {
      BlockPoints(agent, here, key, ov, nv, r);
    }
  }

  lemma PropertiesPrefix(agent: string, here: seq<Text>, ov: Json, nv: Json, additional: Option<Json>, r: Relaxation)
    requires r in PropertiesFlags(agent, here, ov, nv, additional) && !AtKey(agent, here, Kw(Properties), ov, nv, r)
    ensures here <= r.path
  {
    var n :| n in ov.fields.Keys + nv.fields.Keys && r in PropertyFlags(agent, here, ov, nv, n, additional);
    if n in ov.fields && n in nv.fields {
      FlagsPoint(agent, here + [n], ov.fields[n], nv.fields[n], r);
    }
  }

  /** Every constraint that is neither kept nor tightened is reported, at or below its keyword. */
  lemma EveryKeyReported(agent: string, path: seq<Text>, was: Json, now: Json, key: Text)
    requires was.Obj? && now.Obj? && key in was.fields && !Annotates(key)
    requires key in now.fields ==> !KeptOrTightened(was, now, key)
    ensures exists r :: r in Flags(agent, path, was, now) && path + [key] <= r.path
  {
    KeyExactly(agent, path, was, now, key);
    var r :| r in KeyFlags(agent, path, was, now, key);
    KeyPrefix(agent, path, was, now, key, r);
    assert r in KeysFlags(agent, path, was, now, was.fields.Keys + now.fields.Keys);
  }

  /** The two subschemas that are compared a step further in. */
  ghost predicate Inside(was: Json, now: Json, step: seq<Text>, c: Json, c': Json) {
    && was.Obj? && now.Obj? && step != [] && step[0] in was.fields && step[0] in now.fields
    && var ov, nv := was.fields[step[0]], now.fields[step[0]];
       && !PyEq(ov, nv)
       && if |step| == 1 then
            (step[0] == Kw(Items) || step[0] == Kw(AdditionalProperties)) && ov.Obj? && nv.Obj? && c == ov && c' == nv
          else
            && |step| == 2
            && if step[0] == Kw(Items) then
                 ov.Arr? && nv.Arr? && |ov.items| == |nv.items| && !PyEq(c, c')
                 && exists i: nat :: i < |ov.items| && step[1] == Index(i) && c == ov.items[i] && c' == nv.items[i]
               else
                 && (step[0] == Kw(Properties) || ((step[0] == Kw(Defs) || step[0] == Kw(Definitions)) && !PyEq(c, c')))
                 && ov.Obj? && nv.Obj? && step[1] in ov.fields && step[1] in nv.fields
                 && c == ov.fields[step[1]] && c' == nv.fields[step[1]]
  }

  /** Whatever is reported between them is reported between the schemas they are in. */
  lemma InsideReported(agent: string, path: seq<Text>, was: Json, now: Json, step: seq<Text>, c: Json, c': Json)
    requires Inside(was, now, step, c, c')
    ensures Flags(agent, path + step, c, c') <= Flags(agent, path, was, now)
  {
    var key, here := step[0], path + [step[0]];
    forall r | r in Flags(agent, path + step, c, c') ensures r in Flags(agent, path, was, now) {
      assert r in ChangedFlags(agent, path, was, now, key) by {
        if |step| == 1 {
          assert path + step == here;
          OneStep(agent, path, was, now, key, r);
        } else {
          assert path + step == here + [step[1]];
          TwoSteps(agent, path, was, now, key, step[1], c, c', r);
        }
      }
      assert r in KeyFlags(agent, path, was, now, key);
      assert r in KeysFlags(agent, path, was, now, was.fields.Keys + now.fields.Keys);
    }
  }

  lemma OneStep(agent: string, path: seq<Text>, was: Json, now: Json, key: Text, r: Relaxation)
    requires was.Obj? && now.Obj? && key in was.fields && key in now.fields
    requires Inside(was, now, [key], was.fields[key], now.fields[key])
    requires r in Flags(agent, path + [key], was.fields[key], now.fields[key])
    ensures r in ChangedFlags(agent, path, was, now, key)
  {
  }

  lemma TwoSteps(agent: string, path: seq<Text>, was: Json, now: Json, key: Text, name: Text, c: Json, c': Json, r: Relaxation)
    requires Inside(was, now, [key, name], c, c')
    requires r in Flags(agent, path + [key] + [name], c, c')
    ensures r in ChangedFlags(agent, path, was, now, key)
  {
    hide Flags, ValueNarrows, PyEq;
    var ov, nv, here := was.fields[key], now.fields[key], path + [key];
    if key == Kw(Properties) {
      assert r in PropertyFlags(agent, here, ov, nv, name, At(was.fields, AdditionalProperties));
      assert r in NamesFlags(agent, here, ov, nv, ov.fields.Keys + nv.fields.Keys, At(was.fields, AdditionalProperties));
    } else if key == Kw(Items) {
      var i: nat :| i < |ov.items| && name == Index(i) && c == ov.items[i] && c' == nv.items[i];
      assert r in EntryFlags(agent, here + [Index(i)], ov.items[i], nv.items[i]);
      assert r in PositionsFlags(agent, here, ov, nv, |ov.items|);
    } else {
      assert r in EntryFlags(agent, here + [name], ov.fields[name], nv.fields[name]);
      assert r in EntriesFlags(agent, here, ov.fields, nv.fields, ov.fields.Keys * nv.fields.Keys);
    }
  }
}
