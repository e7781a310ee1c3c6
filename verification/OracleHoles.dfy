/** Edits outside the fragment that are not flagged and let a value through that the old schema rejected.
    Here are keywords that widen when they are added, a property that is removed, and Python's equality;
    `ReferenceHoles` and `DivisionHoles` have the others. Together they have one for each condition of the
    fragment, where the keywords that look beyond their schema object count as one. */
module OracleHoles {

  import opened Wrappers
  import opened JsonSchema
  import opened SchemaOracle

  const A := Word("a")

  /** `v` gets through the unflagged edit. */
  ghost predicate Widened(d: Dialect, was: Json, now: Json, v: Json) {
    Flags("agent", [], was, now) == {} && Admits(d, now, v) && !Admits(d, was, v)
  }

  lemma NothingFlagged(was: Json, now: Json)
    requires was.Obj? && now.Obj?
    requires forall key :: key in was.fields ==> KeyFlags("agent", [], was, now, key) == {}
    ensures Flags("agent", [], was, now) == {}
  {
    NothingFlaggedAt(was, now, []);
  }

  lemma NothingFlaggedAt(was: Json, now: Json, path: seq<Text>)
    requires was.Obj? && now.Obj?
    requires forall key :: key in was.fields ==> KeyFlags("agent", path, was, now, key) == {}
    ensures Flags("agent", path, was, now) == {}
  {
    NoKeyFlagged(was, now, path, was.fields.Keys + now.fields.Keys);
  }

  lemma NoKeyFlagged(was: Json, now: Json, path: seq<Text>, keys: set<Text>)
    requires was.Obj? && now.Obj? && keys <= was.fields.Keys + now.fields.Keys
    requires forall key :: key in was.fields ==> KeyFlags("agent", path, was, now, key) == {}
    ensures KeysFlags("agent", path, was, now, keys) == {}
  {
    forall key | key in keys ensures KeyFlags("agent", path, was, now, key) == {} {
    }
  }

  /** A boolean schema that a keyword of `s`, or an entry of one, holds. */
  lemma BooleanInside(d: Dialect, root: Json, fuel: nat, s: Json, key: Text, c: Json)
    requires s.Obj? && key in s.fields && c.Bool?
    requires c == s.fields[key] || (s.fields[key].Obj? && c in s.fields[key].fields.Values)
    ensures forall w :: Inner(d, root, false, fuel, s)(c, w) == c.b
  {
    if c != s.fields[key] {
      var n :| n in s.fields[key].fields && s.fields[key].fields[n] == c;
      assert c < s.fields[key] < s;
    }
    assert c < s;
  }

  /** One keyword that does not hold is enough. */
  lemma RejectedBy(d: Dialect, root: Json, fuel: nat, s: Json, k: Keyword, v: Json)
    requires s.Obj? && Kw(k) in s.fields && !Holds(d, Inner(d, root, false, fuel, s), s.fields, k, v)
    ensures !Accepts(d, root, false, fuel, s, v)
  {
    hide Holds;
  }

  /** Acceptance, keyword by keyword. */
  lemma Unfolded(d: Dialect, root: Json, fuel: nat, s: Json, v: Json)
    requires s.Obj? && Rooted(root) && forall k :: Kw(k) in s.fields ==> !IsForeign(k)
    ensures Accepts(d, root, false, fuel, s, v) <==>
      && (Kw(Ref) in s.fields ==> RefHolds(d, root, false, fuel, s.fields[Kw(Ref)], v))
      && forall k :: Kw(k) in s.fields ==> Holds(d, Inner(d, root, false, fuel, s), s.fields, k, v)
  {
    hide Holds, Rooted, RefHolds;
  }

  lemma UnfoldedWithoutReference(d: Dialect, root: Json, fuel: nat, s: Json, v: Json)
    requires s.Obj? && Kw(Ref) !in s.fields && forall k :: Kw(k) in s.fields ==> !IsForeign(k)
    requires forall k :: Kw(k) in s.fields ==> Holds(d, Inner(d, root, false, fuel, s), s.fields, k, v)
    ensures Accepts(d, root, false, fuel, s, v)
  {
    hide Holds;
  }

  /** References are judged apart, and definitions and annotations constrain nothing. */
  lemma SaysNothing(d: Dialect, acc: Acceptance, f: Fields, v: Json)
    ensures forall k :: Kw(k) in f && k in {Ref, Id, Defs, Default} ==> Holds(d, acc, f, k, v)
  {
  }

  // ---- the edits ------------------------------------------------------------

  /** `properties` added to a closed object: the new field gets in. */
  lemma AddedProperties(d: Dialect, w: Json)
    ensures
      var was := Obj(map[Kw(AdditionalProperties) := Bool(false)]);
      var now := Obj(map[Kw(AdditionalProperties) := Bool(false), Kw(Properties) := Obj(map[A := Bool(true)])]);
      Widened(d, was, now, Obj(map[A := w]))
  {
    hide Rooted;
    var was := Obj(map[Kw(AdditionalProperties) := Bool(false)]);
    var now := Obj(map[Kw(AdditionalProperties) := Bool(false), Kw(Properties) := Obj(map[A := Bool(true)])]);
    var v := Obj(map[A := w]);
    NothingFlagged(was, now);
    assert now.fields[Kw(Properties)].fields[A] == Bool(true);
    BooleanInside(d, now, 0, now, Kw(Properties), Bool(true));
    assert Accepts(d, now, false, 0, now, v);
    forall fuel: nat ensures !Accepts(d, was, false, fuel, was, v) {
      BooleanInside(d, was, fuel, was, Kw(AdditionalProperties), Bool(false));
      assert !Holds(d, Inner(d, was, false, fuel, was), was.fields, AdditionalProperties, v);
    }
  }

  /** `patternProperties` added to a closed object: every name that matches gets in. */
  lemma AddedPatternProperties(d: Dialect, pattern: Text, w: Json)
    requires d.matches(pattern, A)
    ensures
      var was := Obj(map[Kw(AdditionalProperties) := Bool(false)]);
      var now := Obj(map[Kw(AdditionalProperties) := Bool(false), Kw(PatternProperties) := Obj(map[pattern := Bool(true)])]);
      Widened(d, was, now, Obj(map[A := w]))
  {
    hide Rooted;
    var was := Obj(map[Kw(AdditionalProperties) := Bool(false)]);
    var now := Obj(map[Kw(AdditionalProperties) := Bool(false), Kw(PatternProperties) := Obj(map[pattern := Bool(true)])]);
    var v := Obj(map[A := w]);
    NothingFlagged(was, now);
    assert now.fields[Kw(PatternProperties)].fields[pattern] == Bool(true);
    BooleanInside(d, now, 0, now, Kw(PatternProperties), Bool(true));
    assert Accepts(d, now, false, 0, now, v);
    forall fuel: nat ensures !Accepts(d, was, false, fuel, was, v) {
      BooleanInside(d, was, fuel, was, Kw(AdditionalProperties), Bool(false));
      assert !Holds(d, Inner(d, was, false, fuel, was), was.fields, AdditionalProperties, v);
    }
  }

  /** An object schema that is closed but for these patterns and these properties. */
  function ClosedBut(patterns: Json, properties: Json): Json {
    Obj(map[
      Kw(AdditionalProperties) := Bool(false),
      Kw(PatternProperties) := patterns,
      Kw(Properties) := properties])
  }

  /** A property removed from a closed object is not forbidden when a pattern still admits its name. */
  lemma RemovedPropertyStillMatched(d: Dialect, pattern: Text, w: Json)
    requires d.matches(pattern, A)
    ensures
      var open := Obj(map[pattern := Bool(true)]);
      var was := ClosedBut(open, Obj(map[A := Bool(false)]));
      var now := ClosedBut(open, Obj(map[]));
      Widened(d, was, now, Obj(map[A := w]))
  {
    hide Rooted;
    var open := Obj(map[pattern := Bool(true)]);
    var was := ClosedBut(open, Obj(map[A := Bool(false)]));
    var now := ClosedBut(open, Obj(map[]));
    var v := Obj(map[A := w]);
    RemovedPropertyUnflagged(open, was, now);
    assert open.fields[pattern] == Bool(true) && was.fields[Kw(Properties)].fields[A] == Bool(false);
    BooleanInside(d, now, 0, now, Kw(PatternProperties), Bool(true));
    StillMatched(d, Inner(d, now, false, 0, now), now.fields, pattern, v);
    UnfoldedWithoutReference(d, now, 0, now, v);
    hide Accepts;
    forall fuel: nat ensures !Accepts(d, was, false, fuel, was, v) {
      BooleanInside(d, was, fuel, was, Kw(Properties), Bool(false));
      RejectedBy(d, was, fuel, was, Properties, v);
    }
  }

  /** The pattern accepts the name, and so `additionalProperties` does not look at it. */
  lemma StillMatched(d: Dialect, acc: Acceptance, f: Fields, pattern: Text, v: Json)
    requires f == ClosedBut(Obj(map[pattern := Bool(true)]), Obj(map[])).fields && v.Obj? && v.fields.Keys == {A}
    requires d.matches(pattern, A) && forall w :: acc(Bool(true), w)
    ensures forall k :: Kw(k) in f ==> Holds(d, acc, f, k, v)
  {
    assert Obj(map[pattern := Bool(true)]).fields[pattern] == Bool(true);
    assert Patterned(d, f, A);
  }


  lemma RemovedPropertyUnflagged(open: Json, was: Json, now: Json)
    requires was == ClosedBut(open, Obj(map[A := Bool(false)]))
    requires now == ClosedBut(open, Obj(map[]))
    ensures Flags("agent", [], was, now) == {}
  {
    PyEqReflexive(open);
    var ov, nv := was.fields[Kw(Properties)], now.fields[Kw(Properties)];
    assert PropertyFlags("agent", [] + [Kw(Properties)], ov, nv, A, Some(Bool(false))) == {};
    assert PropertiesFlags("agent", [] + [Kw(Properties)], ov, nv, Some(Bool(false))) == {};
    assert KeyFlags("agent", [], was, now, Kw(Properties)) == ChangedFlags("agent", [], was, now, Kw(Properties));
    NothingFlagged(was, now);
  }

  /** `prefixItems` added: `items` no longer looks at the first elements. */
  lemma AddedPrefixItems(d: Dialect, w: Json)
    ensures
      var was := Obj(map[Kw(Items) := Bool(false)]);
      var now := Obj(map[Kw(Items) := Bool(false), Kw(PrefixItems) := Arr([Bool(true)])]);
      Widened(d, was, now, Arr([w]))
  {
    var was := Obj(map[Kw(Items) := Bool(false)]);
    var prefix := Arr([Bool(true)]);
    var now := Obj(map[Kw(Items) := Bool(false), Kw(PrefixItems) := prefix]);
    NothingFlagged(was, now);
    assert prefix.items[0] < prefix < now by { assert now.fields[Kw(PrefixItems)] == prefix; }
    assert Accepts(d, now, false, 0, now, Arr([w]));
    forall fuel: nat ensures !Accepts(d, was, false, fuel, was, Arr([w])) {
      BooleanInside(d, was, fuel, was, Kw(Items), Bool(false));
      assert !Holds(d, Inner(d, was, false, fuel, was), was.fields, Items, Arr([w]));
    }
  }

  /** `minContains: 0` added: `contains` no longer asks for anything. */
  lemma AddedMinContains(d: Dialect)
    ensures
      var was := Obj(map[Kw(Contains) := Bool(false)]);
      var now := Obj(map[Kw(Contains) := Bool(false), Kw(MinContains) := Num(0.0)]);
      Widened(d, was, now, Arr([]))
  {
    hide Rooted, Accepts;
    var was := Obj(map[Kw(Contains) := Bool(false)]);
    var now := Obj(map[Kw(Contains) := Bool(false), Kw(MinContains) := Num(0.0)]);
    NothingFlagged(was, now);
    ContainsNothing(d, Inner(d, now, false, 0, now), now.fields);
    UnfoldedWithoutReference(d, now, 0, now, Arr([]));
    forall fuel: nat ensures !Accepts(d, was, false, fuel, was, Arr([])) {
      ContainsNothing(d, Inner(d, was, false, fuel, was), was.fields);
      RejectedBy(d, was, fuel, was, Contains, Arr([]));
    }
  }

  lemma ContainsNothing(d: Dialect, acc: Acceptance, f: Fields)
    requires Kw(Contains) in f && f[Kw(Contains)] == Bool(false) && Kw(MaxContains) !in f
    ensures Holds(d, acc, f, Contains, Arr([])) <==> 0.0 >= LeastContained(f)
  {
    assert Matching(acc, Bool(false), []) == {};
  }

  /** `unevaluatedProperties: false` forbids what no keyword beside it evaluated, so that adding
      `properties`, which is not flagged where `additionalProperties` is absent, admits the new name. */
  lemma EvaluatedByAddition(d: Dialect, w: Json)
    requires forall root, f: Fields, members: Fields :: d.foreign(root, Obj(f), UnevaluatedProperties, Obj(members)) <==>
      forall name :: name in members ==> Named(f, name)
    ensures
      var was := Obj(map[Kw(UnevaluatedProperties) := Bool(false)]);
      var now := Obj(map[Kw(UnevaluatedProperties) := Bool(false), Kw(Properties) := Obj(map[A := Bool(true)])]);
      Widened(d, was, now, Obj(map[A := w]))
  {
    hide Rooted;
    var was := Obj(map[Kw(UnevaluatedProperties) := Bool(false)]);
    var now := Obj(map[Kw(UnevaluatedProperties) := Bool(false), Kw(Properties) := Obj(map[A := Bool(true)])]);
    NothingFlagged(was, now);
    assert now.fields[Kw(Properties)].fields[A] == Bool(true);
    BooleanInside(d, now, 0, now, Kw(Properties), Bool(true));
    assert Accepts(d, now, false, 0, now, Obj(map[A := w]));
    assert Kw(UnevaluatedProperties) in was.fields && !Named(was.fields, A);
    assert !d.foreign(was, was, UnevaluatedProperties, Obj(map[A := w]));
  }

  /** Python's equality takes `1` for `true`. */
  lemma ConstBecomesBoolean(d: Dialect)
    ensures
      var was := Obj(map[Kw(Const) := Num(1.0)]);
      var now := Obj(map[Kw(Const) := Bool(true)]);
      Widened(d, was, now, Bool(true))
  {
    hide Rooted;
    var was := Obj(map[Kw(Const) := Num(1.0)]);
    var now := Obj(map[Kw(Const) := Bool(true)]);
    NothingFlagged(was, now);
    assert Accepts(d, now, false, 0, now, Bool(true));
    forall fuel: nat ensures !Accepts(d, was, false, fuel, was, Bool(true)) {
      assert !Holds(d, Inner(d, was, false, fuel, was), was.fields, Const, Bool(true));
    }
  }
}
