/** JSON values, and what a JSON Schema (2020-12) accepts. A schema is itself a JSON value. */
module JsonSchema {

  import opened Wrappers

  /** The keywords that the comparator or the acceptance semantics names. */
  datatype Keyword =
    | Type | Enum | Const | MultipleOf
    | Maximum | ExclusiveMaximum | Minimum | ExclusiveMinimum
    | MaxLength | MinLength | Pattern | Format
    | MaxItems | MinItems | UniqueItems | Contains | MinContains | MaxContains
    | MaxProperties | MinProperties | Required | DependentRequired
    | PrefixItems | Items | Properties | PatternProperties | AdditionalProperties | PropertyNames
    | AllOf | AnyOf | OneOf | Not | If | Then | Else | DependentSchemas
    | Ref | Defs | Definitions
    | UnevaluatedProperties | UnevaluatedItems | Id | Anchor | DynamicRef | DynamicAnchor
    | Title | Description | Default | Examples

  /** A JSON text. One that spells a keyword is a `Kw`, any other is a `Word`,
      so that testing for a keyword is testing for a constructor. */
  datatype Text = Kw(k: Keyword) | Word(chars: string)

  datatype Json =
    | Null
    | Bool(b: bool)
    | Num(n: real)
    | Str(text: Text)
    | Arr(items: seq<Json>)
    | Obj(fields: map<Text, Json>)

  type Fields = map<Text, Json>

  /** The schema a `$ref` addresses, inside the document it occurs in. */
  datatype Target = Root | Definition(block: Keyword, name: Text)

  /** What JSON Schema leaves to others: regular expressions, the length of a text, named formats, the
      JSON pointer syntax of a `$ref`, and the reading of `type` names. What a keyword of a schema in
      a document means that looks beyond its own schema object is left open: nothing is known of `foreign`. */
  datatype Dialect = Dialect(
    matches: (Text, Text) -> bool,
    length: Text -> nat,
    conforms: (Json, Json) -> bool,
    target: Json -> Option<Target>,
    hasType: (Json, Json) -> bool,
    foreign: (Json, Json, Keyword, Json) -> bool)

  function At(f: Fields, k: Keyword): Option<Json> {
    if Kw(k) in f then Some(f[Kw(k)]) else None
  }

  /** The keywords that depend on what other keywords evaluated, or on names declared elsewhere. */
  predicate IsForeign(k: Keyword) {
    k.UnevaluatedProperties? || k.UnevaluatedItems? || k.Id? || k.Anchor? || k.DynamicRef? || k.DynamicAnchor?
  }

  /** No schema of the document has an `$id` of its own, so that every reference is looked up in the whole document. */
  predicate Rooted(s: Json)
    decreases s, 0
  {
    match s
    case Obj(f) => Kw(Id) !in f && forall key :: key in f ==> RootedAt(key, f[key])
    case Arr(a) => forall i :: 0 <= i < |a| ==> Rooted(a[i])
    case _ => true
  }

  /** What the values of names hold are schemas, and what is only data holds none. */
  predicate RootedAt(key: Text, val: Json)
    decreases val, 1
  {
    if key in {Kw(Properties), Kw(PatternProperties), Kw(DependentSchemas), Kw(Defs), Kw(Definitions)} && val.Obj? then
      forall n :: n in val.fields ==> Rooted(val.fields[n])
    else
      key in {Kw(Enum), Kw(Const), Kw(Default), Kw(Examples)} || Rooted(val)
  }

  // ---- acceptance -----------------------------------------------------------

  /** `v` is accepted by schema `s` of document `root`, following at most `fuel` references in a row;
      with the fuel spent, a reference accepts what `spent` says. A value that is no schema constrains nothing. */
  ghost predicate Accepts(d: Dialect, root: Json, spent: bool, fuel: nat, s: Json, v: Json)
    decreases fuel, s, 1
  {
    match s
    case Bool(b) => b
    case Obj(f) =>
      && (Kw(Ref) in f ==> if Rooted(root) then RefHolds(d, root, spent, fuel, f[Kw(Ref)], v) else d.foreign(root, s, Ref, v))
      && (forall k :: Kw(k) in f && IsForeign(k) ==> d.foreign(root, s, k, v))
      && forall k :: Kw(k) in f ==> Holds(d, Inner(d, root, spent, fuel, s), f, k, v)
    case _ => true
  }

  /** Acceptance by the schemas inside `s`. */
  ghost function Inner(d: Dialect, root: Json, spent: bool, fuel: nat, s: Json): Acceptance
    decreases fuel, s, 0
  {
    (c, w) => c < s && Accepts(d, root, spent, fuel, c, w)
  }

  /** A reference accepts what the schema it addresses accepts; one that addresses nothing accepts nothing. */
  ghost predicate RefHolds(d: Dialect, root: Json, spent: bool, fuel: nat, ref: Json, v: Json)
    decreases fuel, ref, 0
  {
    var target := Resolve(d, root, ref);
    target.Some? && if fuel == 0 then spent else Accepts(d, root, spent, fuel - 1, target.value, v)
  }

  /** Which values each schema accepts. */
  type Acceptance = (Json, Json) -> bool

  predicate OnObjects(k: Keyword) {
    k.Properties? || k.PatternProperties? || k.AdditionalProperties? || k.PropertyNames? || k.DependentSchemas?
  }

  predicate OnArrays(k: Keyword) {
    k.PrefixItems? || k.Items? || k.Contains?
  }

  predicate Combines(k: Keyword) {
    k.AllOf? || k.AnyOf? || k.OneOf? || k.Not? || k.Then? || k.Else?
  }

  /** Keyword `k` of the schema object `f` holds of `v`, when its subschemas accept what `acc` says. */
  ghost predicate Holds(d: Dialect, acc: Acceptance, f: Fields, k: Keyword, v: Json)
    requires Kw(k) in f
  {
    if OnObjects(k) then v.Obj? ==> ObjectHolds(d, acc, f, k, v.fields)
    else if OnArrays(k) then v.Arr? ==> ArrayHolds(acc, f, k, v.items)
    else if Combines(k) then CombinationHolds(acc, f, k, v)
    else ScalarHolds(d, k, f[Kw(k)], v)
  }

  ghost predicate ObjectHolds(d: Dialect, acc: Acceptance, f: Fields, k: Keyword, members: Fields)
    requires Kw(k) in f && OnObjects(k)
  {
    var val := f[Kw(k)];
    match k
    case Properties =>
      val.Obj? ==> forall name :: name in members && name in val.fields ==> acc(val.fields[name], members[name])
    case PatternProperties =>
      val.Obj? ==>
        forall name, p :: name in members && p in val.fields && d.matches(p, name) ==> acc(val.fields[p], members[name])
    case AdditionalProperties =>
      forall name :: name in members && !Named(f, name) && !Patterned(d, f, name) ==> acc(val, members[name])
    case PropertyNames =>
      forall name :: name in members ==> acc(val, Str(name))
    case DependentSchemas =>
      val.Obj? ==> forall name :: name in members && name in val.fields ==> acc(val.fields[name], Obj(members))
  }

  ghost predicate ArrayHolds(acc: Acceptance, f: Fields, k: Keyword, items: seq<Json>)
    requires Kw(k) in f && OnArrays(k)
  {
    var val := f[Kw(k)];
    match k
    case PrefixItems =>
      val.Arr? ==> forall i :: 0 <= i < |val.items| && i < |items| ==> acc(val.items[i], items[i])
    case Items =>
      if val.Arr? then
        // the positional form of earlier drafts
        forall i :: 0 <= i < |val.items| && i < |items| ==> acc(val.items[i], items[i])
      else
        forall i :: PrefixLength(f) <= i < |items| ==> acc(val, items[i])
    case Contains =>
      var n := |Matching(acc, val, items)| as real;
      n >= LeastContained(f) && (Kw(MaxContains) in f && f[Kw(MaxContains)].Num? ==> n <= f[Kw(MaxContains)].n)
  }

  ghost predicate CombinationHolds(acc: Acceptance, f: Fields, k: Keyword, v: Json)
    requires Kw(k) in f && Combines(k)
  {
    var val := f[Kw(k)];
    match k
    case AllOf => val.Arr? ==> forall i :: 0 <= i < |val.items| ==> acc(val.items[i], v)
    case AnyOf => val.Arr? ==> exists i :: 0 <= i < |val.items| && acc(val.items[i], v)
    case OneOf => val.Arr? ==> |Branches(acc, val.items, v)| == 1
    case Not => !acc(val, v)
    case Then => Kw(If) in f && acc(f[Kw(If)], v) ==> acc(val, v)
    case Else => Kw(If) in f && !acc(f[Kw(If)], v) ==> acc(val, v)
  }

  /** The positions of the items that schema `s` accepts. */
  ghost function Matching(acc: Acceptance, s: Json, items: seq<Json>): set<int> {
    set i | 0 <= i < |items| && acc(s, items[i])
  }

  /** The positions of the alternatives that accept `v`. */
  ghost function Branches(acc: Acceptance, options: seq<Json>, v: Json): set<int> {
    set i | 0 <= i < |options| && acc(options[i], v)
  }

  function Resolve(d: Dialect, root: Json, ref: Json): Option<Json> {
    match d.target(ref)
    case None => None
    case Some(Root) => Some(root)
    case Some(Definition(block, name)) =>
      if root.Obj? && At(root.fields, block).Some? && root.fields[Kw(block)].Obj?
         && name in root.fields[Kw(block)].fields
      then Some(root.fields[Kw(block)].fields[name]) else None
  }

  // `additionalProperties` skips the names that `properties` or `patternProperties` looked at.

  predicate Named(f: Fields, name: Text) {
    Kw(Properties) in f && f[Kw(Properties)].Obj? && name in f[Kw(Properties)].fields
  }

  ghost predicate Patterned(d: Dialect, f: Fields, name: Text) {
    Kw(PatternProperties) in f && f[Kw(PatternProperties)].Obj?
    && exists p :: p in f[Kw(PatternProperties)].fields && d.matches(p, name)
  }

  function PrefixLength(f: Fields): nat {
    if Kw(PrefixItems) in f && f[Kw(PrefixItems)].Arr? then |f[Kw(PrefixItems)].items| else 0
  }

  function LeastContained(f: Fields): real {
    if Kw(MinContains) in f && f[Kw(MinContains)].Num? then f[Kw(MinContains)].n else 1.0
  }

  /** The keywords without subschemas. The four annotations, the definition blocks and `if` alone constrain nothing. */
  ghost predicate ScalarHolds(d: Dialect, k: Keyword, val: Json, v: Json) {
    match k
    case Type => d.hasType(val, v)
    case Enum => val.Arr? ==> v in val.items
    case Const => v == val
    case MultipleOf => val.Num? && v.Num? && val.n > 0.0 ==> IsMultiple(v.n, val.n)
    case Maximum => val.Num? && v.Num? ==> v.n <= val.n
    case ExclusiveMaximum => val.Num? && v.Num? ==> v.n < val.n
    case Minimum => val.Num? && v.Num? ==> v.n >= val.n
    case ExclusiveMinimum => val.Num? && v.Num? ==> v.n > val.n
    case MaxLength => val.Num? && v.Str? ==> d.length(v.text) as real <= val.n
    case MinLength => val.Num? && v.Str? ==> d.length(v.text) as real >= val.n
    case Pattern => val.Str? && v.Str? ==> d.matches(val.text, v.text)
    case Format => d.conforms(val, v)
    case MaxItems => val.Num? && v.Arr? ==> |v.items| as real <= val.n
    case MinItems => val.Num? && v.Arr? ==> |v.items| as real >= val.n
    case UniqueItems => val == Bool(true) && v.Arr? ==> forall i, j :: 0 <= i < j < |v.items| ==> v.items[i] != v.items[j]
    case MaxProperties => val.Num? && v.Obj? ==> |v.fields| as real <= val.n
    case MinProperties => val.Num? && v.Obj? ==> |v.fields| as real >= val.n
    case Required => val.Arr? && v.Obj? ==> forall name :: Str(name) in val.items ==> name in v.fields
    case DependentRequired =>
      val.Obj? && v.Obj? ==>
        forall name, other :: (name in val.fields && name in v.fields && val.fields[name].Arr?
          && Str(other) in val.fields[name].items) ==> other in v.fields
    case _ => true
  }

  ghost predicate IsMultiple(x: real, m: real) {
    exists q :: x == Times(q, m)
  }

  function Times(q: int, m: real): real {
    q as real * m
  }

  /** The values a whole document accepts: those some finite unfolding of its references accepts. */
  ghost predicate Admits(d: Dialect, root: Json, v: Json) {
    exists fuel: nat :: Accepts(d, root, false, fuel, root, v)
  }
}
