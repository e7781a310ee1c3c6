/** Unflagged edits that widen through a reference: its target was narrowed where accepting less means accepting
    more, or it leads to a place that is not compared, or the edit sends it somewhere else. */
module ReferenceHoles {

  import opened Wrappers
  import opened JsonSchema
  import opened SchemaOracle
  import opened OracleHoles

  /** A schema of nothing but a reference. */
  function To(pointer: Text): Json {
    Obj(map[Kw(Ref) := Str(pointer)])
  }

  lemma ToIsRooted(pointer: Text)
    ensures Rooted(To(pointer))
  {
    assert RootedAt(Kw(Ref), Str(pointer));
  }

  lemma ToMeans(d: Dialect, root: Json, fuel: nat, pointer: Text, v: Json)
    requires Rooted(root)
    ensures Accepts(d, root, false, fuel, To(pointer), v) == RefHolds(d, root, false, fuel, Str(pointer), v)
  {
    hide Rooted, Accepts, Holds, RefHolds;
    var s := To(pointer);
    assert forall k :: Kw(k) in s.fields ==> k == Ref;
    SaysNothing(d, Inner(d, root, false, fuel, s), s.fields, v);
    Unfolded(d, root, fuel, s, v);
  }

  // ---- a narrowed definition, where accepting less means accepting more -----

  const NUMBER := Num(4.0)

  function AtMost(bound: real): Json {
    Obj(map[Kw(Maximum) := Num(bound)])
  }

  /** A document that defines `a` as the numbers up to a bound. */
  function Defining(bound: real, rest: Fields): Json {
    Obj(rest[Kw(Defs) := Obj(map[A := AtMost(bound)])])
  }

  /** What may stand beside the definitions. */
  predicate Plain(rest: Fields) {
    && Kw(Ref) !in rest && Kw(Defs) !in rest && Kw(Id) !in rest
    && (forall key :: key in rest ==> RootedAt(key, rest[key]))
    && (forall k :: Kw(k) in rest ==> !IsForeign(k))
  }

  predicate Addresses(d: Dialect, pointer: Text) {
    d.target(Str(pointer)) == Some(Definition(Defs, A))
  }

  /** Accepted when at least one reference is followed. */
  ghost predicate AtDepth(d: Dialect, root: Json, fuel: nat, v: Json) {
    Accepts(d, root, false, fuel + 1, root, v)
  }

  /** The bound lowered from 5 to 3, which nothing flags: at every depth the document accepts `v` after and not before. */
  ghost predicate WidenedByNarrowing(d: Dialect, rest: Fields, v: Json) {
    && Flags("agent", [], Defining(5.0, rest), Defining(3.0, rest)) == {}
    && forall fuel: nat :: AtDepth(d, Defining(3.0, rest), fuel, v) && !AtDepth(d, Defining(5.0, rest), fuel, v)
  }

  lemma AtMostMeans(d: Dialect, root: Json, bound: real, fuel: nat, x: real)
    ensures Accepts(d, root, false, fuel, AtMost(bound), Num(x)) <==> x <= bound
  {
    hide Rooted;
    var s := AtMost(bound);
    assert Holds(d, Inner(d, root, false, fuel, s), s.fields, Maximum, Num(x)) <==> x <= bound;
  }

  lemma DefiningIsRooted(bound: real, rest: Fields)
    requires Plain(rest)
    ensures Rooted(Defining(bound, rest))
  {
    var defs := Obj(map[A := AtMost(bound)]);
    assert Rooted(AtMost(bound)) by { assert RootedAt(Kw(Maximum), Num(bound)); }
    assert RootedAt(Kw(Defs), defs);
    forall key | key in Defining(bound, rest).fields ensures RootedAt(key, Defining(bound, rest).fields[key]) {
      if key != Kw(Defs) { assert key in rest; }
    }
  }

  /** What the reference accepts in it. */
  lemma ReferenceMeans(d: Dialect, pointer: Text, rest: Fields, bound: real, fuel: nat, x: real)
    requires Addresses(d, pointer) && Plain(rest)
    ensures Accepts(d, Defining(bound, rest), false, fuel + 1, To(pointer), Num(x)) <==> x <= bound
  {
    hide Rooted, Accepts, To, AtMost;
    var root := Defining(bound, rest);
    DefiningIsRooted(bound, rest);
    ToMeans(d, root, fuel + 1, pointer, Num(x));
    assert Resolve(d, root, Str(pointer)) == Some(AtMost(bound));
    AtMostMeans(d, root, bound, fuel, x);
  }

  lemma NarrowingUnflagged(rest: Fields)
    requires Kw(Defs) !in rest
    ensures Flags("agent", [], Defining(5.0, rest), Defining(3.0, rest)) == {}
  {
    var was, now := Defining(5.0, rest), Defining(3.0, rest);
    DefinitionsUnflagged(was, now);
    forall key | key in was.fields ensures KeyFlags("agent", [], was, now, key) == {} {
      if key != Kw(Defs) { PyEqReflexive(rest[key]); }
    }
    NothingFlagged(was, now);
  }

  lemma DefinitionsUnflagged(was: Json, now: Json)
    requires was.Obj? && now.Obj? && Kw(Defs) in was.fields && Kw(Defs) in now.fields
    requires was.fields[Kw(Defs)] == Obj(map[A := AtMost(5.0)]) && now.fields[Kw(Defs)] == Obj(map[A := AtMost(3.0)])
    ensures KeyFlags("agent", [], was, now, Kw(Defs)) == {}
  {
    var ov, nv := was.fields[Kw(Defs)], now.fields[Kw(Defs)];
    NothingFlaggedAt(ov.fields[A], nv.fields[A], [] + [Kw(Defs)] + [A]);
    assert EntryFlags("agent", [] + [Kw(Defs)] + [A], ov.fields[A], nv.fields[A]) == {};
    assert BlockFlags("agent", [] + [Kw(Defs)], Kw(Defs), ov, nv) == {};
    assert ChangedFlags("agent", [], was, now, Kw(Defs)) == {};
  }

  /** The whole document is judged by the keywords beside the definitions. */
  lemma DocumentMeans(d: Dialect, rest: Fields, bound: real, fuel: nat, v: Json)
    requires Plain(rest)
    ensures
      var root := Defining(bound, rest);
      Accepts(d, root, false, fuel, root, v) <==>
        forall k :: Kw(k) in rest ==> Holds(d, Inner(d, root, false, fuel, root), root.fields, k, v)
  {
    hide Rooted, AtMost;
    var root := Defining(bound, rest);
    assert Holds(d, Inner(d, root, false, fuel, root), root.fields, Defs, v);
    assert forall k :: Kw(k) in root.fields ==> k == Defs || Kw(k) in rest;
  }

  /** A document that accepts `v` exactly when the bound is below 4 is widened by lowering it. */
  lemma DecidedByBound(d: Dialect, rest: Fields, v: Json)
    requires Plain(rest)
    requires forall fuel: nat, bound: real {:trigger AtDepth(d, Defining(bound, rest), fuel, v)} ::
      AtDepth(d, Defining(bound, rest), fuel, v) <==> 4.0 > bound
    ensures WidenedByNarrowing(d, rest, v)
  {
    hide AtDepth;
    NarrowingUnflagged(rest);
    assert forall fuel: nat :: AtDepth(d, Defining(3.0, rest), fuel, v) && !AtDepth(d, Defining(5.0, rest), fuel, v);
  }

  function Negated(pointer: Text): Fields {
    map[Kw(Not) := To(pointer)]
  }

  /** Under `not`. */
  lemma NegatedReference(d: Dialect, pointer: Text)
    requires Addresses(d, pointer)
    ensures WidenedByNarrowing(d, Negated(pointer), NUMBER)
  {
    hide Accepts, Rooted;
    ToIsRooted(pointer);
    var rest := Negated(pointer);
    forall fuel: nat, bound: real ensures AtDepth(d, Defining(bound, rest), fuel, NUMBER) <==> 4.0 > bound {
      NegatedMeans(d, pointer, rest, bound, fuel);
    }
    DecidedByBound(d, rest, NUMBER);
  }

  lemma NegatedMeans(d: Dialect, pointer: Text, rest: Fields, bound: real, fuel: nat)
    requires Addresses(d, pointer) && rest == Negated(pointer) && Plain(rest)
    ensures AtDepth(d, Defining(bound, rest), fuel, NUMBER) <==> 4.0 > bound
  {
    hide Accepts, Rooted, AtMost, To;
    var root := Defining(bound, rest);
    DocumentMeans(d, rest, bound, fuel + 1, NUMBER);
    ReferenceMeans(d, pointer, rest, bound, fuel, 4.0);
    assert root.fields[Kw(Not)] < root;
    assert Kw(Not) in rest;
  }

  function Conditional(pointer: Text): Fields {
    map[Kw(If) := To(pointer), Kw(Then) := Bool(false)]
  }

  /** Under `if`. */
  lemma ConditionalReference(d: Dialect, pointer: Text)
    requires Addresses(d, pointer)
    ensures WidenedByNarrowing(d, Conditional(pointer), NUMBER)
  {
    hide Accepts;
    ToIsRooted(pointer);
    var rest := Conditional(pointer);
    forall fuel: nat, bound: real ensures AtDepth(d, Defining(bound, rest), fuel, NUMBER) <==> 4.0 > bound {
      ConditionalMeans(d, pointer, rest, bound, fuel);
    }
    DecidedByBound(d, rest, NUMBER);
  }

  lemma ConditionalMeans(d: Dialect, pointer: Text, rest: Fields, bound: real, fuel: nat)
    requires Addresses(d, pointer) && rest == Conditional(pointer) && Plain(rest)
    ensures AtDepth(d, Defining(bound, rest), fuel, NUMBER) <==> 4.0 > bound
  {
    hide Rooted, AtMost, To;
    var root := Defining(bound, rest);
    DocumentMeans(d, rest, bound, fuel + 1, NUMBER);
    ReferenceMeans(d, pointer, rest, bound, fuel, 4.0);
    assert root.fields[Kw(If)] < root && root.fields[Kw(Then)] < root;
    assert Kw(Then) in rest;
  }

  function Alternatives(pointer: Text): Fields {
    map[Kw(OneOf) := Arr([To(pointer), Bool(true)])]
  }

  /** Under `oneOf`. */
  lemma AlternativeReference(d: Dialect, pointer: Text)
    requires Addresses(d, pointer)
    ensures WidenedByNarrowing(d, Alternatives(pointer), NUMBER)
  {
    hide Accepts;
    ToIsRooted(pointer);
    var rest := Alternatives(pointer);
    var options := rest[Kw(OneOf)];
    assert Rooted(options.items[0]) && Rooted(options.items[1]);
    assert Rooted(options) && RootedAt(Kw(OneOf), options);
    forall fuel: nat, bound: real ensures AtDepth(d, Defining(bound, rest), fuel, NUMBER) <==> 4.0 > bound {
      AlternativesMean(d, pointer, rest, bound, fuel);
    }
    DecidedByBound(d, rest, NUMBER);
  }

  lemma AlternativesMean(d: Dialect, pointer: Text, rest: Fields, bound: real, fuel: nat)
    requires Addresses(d, pointer) && rest == Alternatives(pointer) && Plain(rest)
    ensures AtDepth(d, Defining(bound, rest), fuel, NUMBER) <==> 4.0 > bound
  {
    hide Rooted, AtMost, To;
    var root := Defining(bound, rest);
    var acc := Inner(d, root, false, fuel + 1, root);
    DocumentMeans(d, rest, bound, fuel + 1, NUMBER);
    ReferenceMeans(d, pointer, rest, bound, fuel, 4.0);
    var options := root.fields[Kw(OneOf)].items;
    assert options[0] < root.fields[Kw(OneOf)] < root && options[1] < root.fields[Kw(OneOf)];
    assert Branches(acc, options, NUMBER) == if 4.0 > bound then {1} else {0, 1};
    assert Kw(OneOf) in rest;
  }

  function Counted(pointer: Text): Fields {
    map[Kw(Contains) := To(pointer), Kw(MinContains) := Num(0.0), Kw(MaxContains) := Num(0.0)]
  }

  /** Under `contains` beside `maxContains`. */
  lemma CountedReference(d: Dialect, pointer: Text)
    requires Addresses(d, pointer)
    ensures WidenedByNarrowing(d, Counted(pointer), Arr([NUMBER]))
  {
    hide Accepts;
    ToIsRooted(pointer);
    var rest := Counted(pointer);
    forall fuel: nat, bound: real ensures AtDepth(d, Defining(bound, rest), fuel, Arr([NUMBER])) <==> 4.0 > bound {
      CountedMeans(d, pointer, rest, bound, fuel);
    }
    DecidedByBound(d, rest, Arr([NUMBER]));
  }

  lemma CountedMeans(d: Dialect, pointer: Text, rest: Fields, bound: real, fuel: nat)
    requires Addresses(d, pointer) && rest == Counted(pointer) && Plain(rest)
    ensures AtDepth(d, Defining(bound, rest), fuel, Arr([NUMBER])) <==> 4.0 > bound
  {
    hide Rooted, AtMost, To, Holds;
    var root := Defining(bound, rest);
    var acc := Inner(d, root, false, fuel + 1, root);
    DocumentMeans(d, rest, bound, fuel + 1, Arr([NUMBER]));
    ReferenceMeans(d, pointer, rest, bound, fuel, 4.0);
    assert root.fields[Kw(Contains)] < root;
    CountedHolds(d, acc, root.fields, To(pointer), acc(To(pointer), NUMBER));
    assert Kw(Contains) in rest;
  }

  lemma CountedHolds(d: Dialect, acc: Acceptance, f: Fields, s: Json, matched: bool)
    requires Kw(Contains) in f && Kw(MinContains) in f && Kw(MaxContains) in f
    requires f[Kw(Contains)] == s && f[Kw(MinContains)] == Num(0.0) && f[Kw(MaxContains)] == Num(0.0)
    requires matched == acc(s, NUMBER)
    ensures Holds(d, acc, f, Contains, Arr([NUMBER])) <==> !matched
    ensures Holds(d, acc, f, MinContains, Arr([NUMBER])) && Holds(d, acc, f, MaxContains, Arr([NUMBER]))
  {
    assert Matching(acc, s, [NUMBER]) == if matched then {0} else {};
  }

  // ---- references that a definition block does not govern -------------------

  /** A document of a reference and of what it leads to. */
  function Pointing(pointer: Text, block: Keyword, target: bool): Json {
    Obj(map[Kw(Ref) := Str(pointer), Kw(block) := Obj(map[A := Bool(target)])])
  }

  lemma PointingMeans(d: Dialect, pointer: Text, block: Keyword, target: bool, fuel: nat, w: Json)
    requires d.target(Str(pointer)) == Some(Definition(block, A)) && block in {Defs, Default}
    ensures var root := Pointing(pointer, block, target); Accepts(d, root, false, fuel, root, w) <==> fuel > 0 && target
  {
    var root := Pointing(pointer, block, target);
    assert root.fields.Keys == {Kw(Ref), Kw(block)} && root.fields[Kw(Ref)] == Str(pointer);
    PointingIsRooted(pointer, block, target);
    TargetMeans(d, root, pointer, block, target, fuel, w);
    hide Pointing, RefHolds, Rooted, Accepts, Holds, Inner;
    Unfolded(d, root, fuel, root, w);
    SaysNothing(d, Inner(d, root, false, fuel, root), root.fields, w);
    assert forall k :: Kw(k) in root.fields ==> Holds(d, Inner(d, root, false, fuel, root), root.fields, k, w);
  }

  lemma TargetMeans(d: Dialect, root: Json, pointer: Text, block: Keyword, target: bool, fuel: nat, w: Json)
    requires d.target(Str(pointer)) == Some(Definition(block, A)) && root == Pointing(pointer, block, target)
    requires block != Ref
    ensures RefHolds(d, root, false, fuel, Str(pointer), w) <==> fuel > 0 && target
  {
    hide Rooted;
    assert Resolve(d, root, Str(pointer)) == Some(Bool(target));
  }

  lemma PointingIsRooted(pointer: Text, block: Keyword, target: bool)
    requires block in {Defs, Default}
    ensures Rooted(Pointing(pointer, block, target))
  {
    assert RootedAt(Kw(Ref), Str(pointer));
    assert RootedAt(Kw(block), Obj(map[A := Bool(target)]));
  }

  /** A definition added under a reference that used to lead nowhere. */
  lemma AddedDefinition(d: Dialect, pointer: Text, w: Json)
    requires Addresses(d, pointer)
    ensures Widened(d, To(pointer), Pointing(pointer, Defs, true), w)
  {
    var was, now := To(pointer), Pointing(pointer, Defs, true);
    var one: nat := 1;
    NothingFlagged(was, now);
    ToIsRooted(pointer);
    hide Accepts, Rooted;
    forall fuel: nat ensures !Accepts(d, was, false, fuel, was, w) {
      ToMeans(d, was, fuel, pointer, w);
      assert Resolve(d, was, Str(pointer)).None?;
    }
    PointingMeans(d, pointer, Defs, true, one, w);
  }

  /** A reference into an annotation, whose changes are never flagged. */
  lemma AnnotationReference(d: Dialect, pointer: Text, w: Json)
    requires d.target(Str(pointer)) == Some(Definition(Default, A))
    ensures Widened(d, Pointing(pointer, Default, false), Pointing(pointer, Default, true), w)
  {
    var was, now := Pointing(pointer, Default, false), Pointing(pointer, Default, true);
    var one: nat := 1;
    NothingFlagged(was, now);
    hide Accepts, Rooted;
    forall fuel: nat ensures !Accepts(d, was, false, fuel, was, w) {
      PointingMeans(d, pointer, Default, false, fuel, w);
    }
    PointingMeans(d, pointer, Default, true, one, w);
  }

  // ---- keywords that look beyond their schema object ------------------------

  /** An `$id` added around a definition of its own: the reference beside it now leads there. */
  lemma AddedBase(d: Dialect, pointer: Text, id: Json)
    requires Addresses(d, pointer)
    requires forall root, f: Fields, v :: d.foreign(root, Obj(f), Id, v)
    requires forall root, f: Fields, v :: Kw(Id) in f && Resolve(d, Obj(f), Str(pointer)) == Some(Bool(true)) ==>
      d.foreign(root, Obj(f), Ref, v)
    ensures Widened(d, Listing(To(pointer)), Listing(Moved(pointer, id)), Arr([Null]))
  {
    var was, now := Listing(To(pointer)), Listing(Moved(pointer, id));
    ListingUnflagged(pointer, id);
    MovedAccepts(d, pointer, id);
    ListingRejects(d, pointer);
  }

  /** Lists of what one schema accepts, beside a definition of nothing. */
  function Listing(s: Json): Json {
    Obj(map[Kw(Items) := s, Kw(Defs) := Obj(map[A := Bool(false)])])
  }

  function Moved(pointer: Text, id: Json): Json {
    Obj(map[Kw(Ref) := Str(pointer), Kw(Id) := id, Kw(Defs) := Obj(map[A := Bool(true)])])
  }

  lemma ListingUnflagged(pointer: Text, id: Json)
    ensures Flags("agent", [], Listing(To(pointer)), Listing(Moved(pointer, id))) == {}
  {
    hide Rooted, Accepts;
    var was, now := Listing(To(pointer)), Listing(Moved(pointer, id));
    NothingFlaggedAt(To(pointer), Moved(pointer, id), [] + [Kw(Items)]);
    PyEqReflexive(was.fields[Kw(Defs)]);
    assert ItemsFlags("agent", [] + [Kw(Items)], To(pointer), Moved(pointer, id)) == {};
    assert KeyFlags("agent", [], was, now, Kw(Items)) == {};
    NothingFlagged(was, now);
  }

  lemma MovedAccepts(d: Dialect, pointer: Text, id: Json)
    requires Addresses(d, pointer)
    requires forall root, f: Fields, v :: d.foreign(root, Obj(f), Id, v)
    requires forall root, f: Fields, v :: Kw(Id) in f && Resolve(d, Obj(f), Str(pointer)) == Some(Bool(true)) ==>
      d.foreign(root, Obj(f), Ref, v)
    ensures Admits(d, Listing(Moved(pointer, id)), Arr([Null]))
  {
    var now, s := Listing(Moved(pointer, id)), Moved(pointer, id);
    MovedIsNotRooted(pointer, id);
    assert s.fields[Kw(Defs)].fields[A] == Bool(true);
    assert Resolve(d, s, Str(pointer)) == Some(Bool(true));
    hide Rooted, Accepts, Holds;
    MovedAcceptsItem(d, now, pointer, id);
    assert now.fields[Kw(Items)] < now;
    MovedItemsHold(d, Inner(d, now, false, 0, now), pointer, id);
    SaysNothing(d, Inner(d, now, false, 0, now), now.fields, Arr([Null]));
    hide Moved;
    UnfoldedWithoutReference(d, now, 0, now, Arr([Null]));
  }

  lemma MovedIsNotRooted(pointer: Text, id: Json)
    ensures !Rooted(Listing(Moved(pointer, id)))
  {
    assert !Rooted(Moved(pointer, id)) && !RootedAt(Kw(Items), Moved(pointer, id));
    assert Kw(Items) in Listing(Moved(pointer, id)).fields;
  }

  lemma MovedItemsHold(d: Dialect, acc: Acceptance, pointer: Text, id: Json)
    requires acc(Moved(pointer, id), Null)
    ensures Holds(d, acc, Listing(Moved(pointer, id)).fields, Items, Arr([Null]))
  {
    OnlyItems(acc, Listing(Moved(pointer, id)).fields, Null);
  }

  lemma MovedAcceptsItem(d: Dialect, now: Json, pointer: Text, id: Json)
    requires !Rooted(now) && d.foreign(now, Moved(pointer, id), Id, Null) && d.foreign(now, Moved(pointer, id), Ref, Null)
    ensures Accepts(d, now, false, 0, Moved(pointer, id), Null)
  {
    hide Rooted;
    var s := Moved(pointer, id);
    assert forall k :: Kw(k) in s.fields ==> k in {Ref, Id, Defs};
  }

  lemma ListingRejects(d: Dialect, pointer: Text)
    requires Addresses(d, pointer)
    ensures !Admits(d, Listing(To(pointer)), Arr([Null]))
  {
    var was := Listing(To(pointer));
    ToIsRooted(pointer);
    assert Rooted(was) by {
      assert RootedAt(Kw(Items), To(pointer));
      assert RootedAt(Kw(Defs), was.fields[Kw(Defs)]);
    }
    hide Rooted;
    assert was.fields[Kw(Defs)].fields[A] == Bool(false);
    assert Resolve(d, was, Str(pointer)) == Some(Bool(false));
    forall fuel: nat ensures !Accepts(d, was, false, fuel, was, Arr([Null])) {
      ToMeans(d, was, fuel, pointer, Null);
      assert !RefHolds(d, was, false, fuel, Str(pointer), Null);
      assert was.fields[Kw(Items)] < was;
      OnlyItems(Inner(d, was, false, fuel, was), was.fields, Null);
      assert !Holds(d, Inner(d, was, false, fuel, was), was.fields, Items, Arr([Null]));
    }
  }

  lemma OnlyItems(acc: Acceptance, f: Fields, w: Json)
    requires Kw(Items) in f && !f[Kw(Items)].Arr? && Kw(PrefixItems) !in f
    ensures ArrayHolds(acc, f, Items, [w]) <==> acc(f[Kw(Items)], w)
  {
    assert [w][0] == w;
  }
}
