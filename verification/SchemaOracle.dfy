/** The input-schema relaxation oracle: which changes between two schemas it flags. */
module SchemaOracle {

  import opened Wrappers
  import opened JsonSchema
  import opened Doubles
  import Strings

  /** One flagged change, at a traversal route through the two schemas. */
  datatype Relaxation = Relaxation(
    agent: string, path: seq<Text>, keyword: Option<Text>, before: Option<Json>, after: Option<Json>)

  // ---- Python's view of JSON data -------------------------------------------

  /** `==` on parsed JSON, where a boolean is also the number 0 or 1. */
  predicate PyEq(a: Json, b: Json) {
    match (a, b)
    case (Bool(x), Num(y)) => y == if x then 1.0 else 0.0
    case (Num(x), Bool(y)) => x == if y then 1.0 else 0.0
    case (Arr(x), Arr(y)) => |x| == |y| && forall i :: 0 <= i < |x| ==> PyEq(x[i], y[i])
    case (Obj(x), Obj(y)) => x.Keys == y.Keys && forall k :: k in x ==> PyEq(x[k], y[k])
    case _ => a == b
  }

  lemma {:induction false} PyEqReflexive(a: Json)
    ensures PyEq(a, a)
  {
    match a
    case Arr(x) => forall i | 0 <= i < |x| ensures PyEq(x[i], x[i]) { PyEqReflexive(x[i]); }
    case Obj(x) => forall k | k in x ensures PyEq(x[k], x[k]) { PyEqReflexive(x[k]); }
    case _ =>
  }

  // ---- small helpers --------------------------------------------------------

  predicate IsMetadata(k: Text) {
    k.Kw? && (k.k.Title? || k.k.Description? || k.k.Default? || k.k.Examples?)
  }

  predicate IsUpperBound(k: Keyword) {
    k.MaxLength? || k.MaxItems? || k.MaxProperties? || k.Maximum? || k.ExclusiveMaximum?
  }

  predicate IsLowerBound(k: Keyword) {
    k.MinLength? || k.MinItems? || k.MinProperties? || k.Minimum? || k.ExclusiveMinimum?
  }

  /** The double `1e-9`, a little above 10^-9. */
  const TOLERANCE: real := 4835703278458517.0 / 4835703278458516698824704.0

  /** Distance to the nearest integer. */
  function Fraction(q: real): (r: real)
    ensures 0.0 <= r <= 0.5
  {
    var low := q - q.Floor as real;
    if low <= 0.5 then low else 1.0 - low
  }

  /** Does `a` divide `b`, as far as the rounded quotient tells? A distance of two doubles is exact. */
  predicate Divides(a: real, b: real) {
    a != 0.0 && Fraction(Double(b / a)) < TOLERANCE
  }

  /** Permissiveness of an `additionalProperties` value. */
  function Rank(v: Json): nat {
    match v
    case Bool(b) => if b then 2 else 0
    case Obj(_) => 1
    case _ => 2
  }

  /** A field the old object did not name was accepted whatever its value. */
  predicate Open(additional: Option<Json>) {
    additional.None? || additional.value == Bool(true) || additional.value.Null? || additional.value == Obj(map[])
  }

  // ---- what is flagged ------------------------------------------------------

  function One(agent: string, path: seq<Text>, k: Text, before: Option<Json>, after: Option<Json>): set<Relaxation> {
    {Relaxation(agent, path, Some(k), before, after)}
  }

  /** Everything flagged between two schema nodes. */
  function Flags(agent: string, path: seq<Text>, was: Json, now: Json): set<Relaxation>
    decreases was, 4
  {
    if !was.Obj? || !now.Obj? then
      if PyEq(was, now) then {} else {Relaxation(agent, path, None, Some(was), Some(now))}
    else
      KeysFlags(agent, path, was, now, was.fields.Keys + now.fields.Keys)
  }

  function KeysFlags(agent: string, path: seq<Text>, was: Json, now: Json, keys: set<Text>): set<Relaxation>
    requires was.Obj? && now.Obj?
    decreases was, 3
  {
    set key, r | key in keys && r in KeyFlags(agent, path, was, now, key) :: r
  }

  function KeyFlags(agent: string, path: seq<Text>, was: Json, now: Json, key: Text): set<Relaxation>
    requires was.Obj? && now.Obj?
    decreases was, 2
  {
    if key in was.fields && key in now.fields then
      if PyEq(was.fields[key], now.fields[key]) || IsMetadata(key) then {}
      else ChangedFlags(agent, path, was, now, key)
    else if key in was.fields && !IsMetadata(key) then
      One(agent, path + [key], key, Some(was.fields[key]), None)
    else {}
  }

  /** A keyword present on both sides whose value changed. */
  function ChangedFlags(agent: string, path: seq<Text>, was: Json, now: Json, key: Text): set<Relaxation>
    requires was.Obj? && now.Obj? && key in was.fields && key in now.fields
    decreases was, 1
  {
    var ov, nv := was.fields[key], now.fields[key];
    var here := path + [key];
    match key
    case Word(_) => One(agent, here, key, Some(ov), Some(nv))
    case Kw(k) =>
      match k
      case Properties => PropertiesFlags(agent, here, ov, nv, At(was.fields, AdditionalProperties))
      case Defs => BlockFlags(agent, here, key, ov, nv)
      case Definitions => BlockFlags(agent, here, key, ov, nv)
      case Items => ItemsFlags(agent, here, ov, nv)
      case AdditionalProperties => AdditionalFlags(agent, here, ov, nv)
      case _ => if ValueNarrows(k, ov, nv) then {} else One(agent, here, key, Some(ov), Some(nv))
  }

  /** The value keywords whose change can be proved a narrowing; every other change is flagged. */
  predicate ValueNarrows(k: Keyword, ov: Json, nv: Json) {
    if IsUpperBound(k) then ov.Num? && nv.Num? && nv.n <= ov.n
    else if IsLowerBound(k) then ov.Num? && nv.Num? && nv.n >= ov.n
    else match k
      case MultipleOf =>
        ov.Num? && nv.Num? && ov.n > 0.0 && nv.n > 0.0 && !Divides(nv.n, ov.n) && Divides(ov.n, nv.n)
      case Enum => ov.Arr? && nv.Arr? && forall x :: x in nv.items ==> x in ov.items
      case Required =>
        ov.Arr? && nv.Arr? && forall x :: x in ov.items ==> exists y :: y in nv.items && PyEq(x, y)
      case _ => false
  }

  function PropertiesFlags(agent: string, here: seq<Text>, ov: Json, nv: Json, additional: Option<Json>): set<Relaxation>
    decreases ov, 7
  {
    if !ov.Obj? || !nv.Obj? then
      if PyEq(ov, nv) then {} else One(agent, here, Kw(Properties), Some(ov), Some(nv))
    else
      NamesFlags(agent, here, ov, nv, ov.fields.Keys + nv.fields.Keys, additional)
  }

  function NamesFlags(agent: string, here: seq<Text>, ov: Json, nv: Json, names: set<Text>, additional: Option<Json>): set<Relaxation>
    requires ov.Obj? && nv.Obj?
    decreases ov, 6
  {
    set name, r | name in names && r in PropertyFlags(agent, here, ov, nv, name, additional) :: r
  }

  function PropertyFlags(agent: string, here: seq<Text>, ov: Json, nv: Json, name: Text, additional: Option<Json>): set<Relaxation>
    requires ov.Obj? && nv.Obj?
    decreases ov, 5
  {
    if name in ov.fields && name in nv.fields then
      Flags(agent, here + [name], ov.fields[name], nv.fields[name])
    else if name in nv.fields then
      if Open(additional) then {} else One(agent, here + [name], Kw(Properties), None, Some(nv.fields[name]))
    else if name in ov.fields && additional != Some(Bool(false)) then
      One(agent, here + [name], Kw(Properties), Some(ov.fields[name]), None)
    else {}
  }

  /** A `$defs` or `definitions` block: entries on one side only are ignored. */
  function BlockFlags(agent: string, here: seq<Text>, key: Text, ov: Json, nv: Json): set<Relaxation>
    decreases ov, 5
  {
    if !ov.Obj? || !nv.Obj? then
      if PyEq(ov, nv) then {} else One(agent, here, key, Some(ov), Some(nv))
    else
      EntriesFlags(agent, here, ov.fields, nv.fields, ov.fields.Keys * nv.fields.Keys)
  }

  function EntriesFlags(agent: string, here: seq<Text>, f: Fields, g: Fields, names: set<Text>): set<Relaxation>
    requires names <= f.Keys && names <= g.Keys
    decreases Obj(f), 4
  {
    set name, r | name in names && r in EntryFlags(agent, here + [name], f[name], g[name]) :: r
  }

  /** A changed entry of a definition block, or of a positional `items`. */
  function EntryFlags(agent: string, here: seq<Text>, ov: Json, nv: Json): set<Relaxation>
    decreases ov, 5
  {
    if PyEq(ov, nv) then {} else Flags(agent, here, ov, nv)
  }

  function ItemsFlags(agent: string, here: seq<Text>, ov: Json, nv: Json): set<Relaxation>
    decreases ov, 5
  {
    if ov.Obj? && nv.Obj? then Flags(agent, here, ov, nv)
    else if ov.Arr? && nv.Arr? && |ov.items| == |nv.items| then
      PositionsFlags(agent, here, ov, nv, |ov.items|)
    else if PyEq(ov, nv) then {} else One(agent, here, Kw(Items), Some(ov), Some(nv))
  }

  function PositionsFlags(agent: string, here: seq<Text>, ov: Json, nv: Json, n: nat): set<Relaxation>
    requires ov.Arr? && nv.Arr? && n <= |ov.items| && n <= |nv.items|
    decreases ov, 4
  {
    set i, r | 0 <= i < n && r in EntryFlags(agent, here + [Index(i)], ov.items[i], nv.items[i]) :: r
  }

  function AdditionalFlags(agent: string, here: seq<Text>, ov: Json, nv: Json): set<Relaxation>
    decreases ov, 5
  {
    if Rank(nv) > Rank(ov) then One(agent, here, Kw(AdditionalProperties), Some(ov), Some(nv))
    else if Rank(nv) == Rank(ov) && ov.Obj? && nv.Obj? then Flags(agent, here, ov, nv)
    else {}
  }

  function Index(i: nat): Text {
    Word(Strings.Decimal(i))
  }

  /** A manifest, as far as this check reads it: the input schema of each agent. */
  type Manifest = map<string, Json>

  function DiffFlags(was: Manifest, now: Manifest, names: set<string>): set<Relaxation>
    requires names <= was.Keys && names <= now.Keys
  {
    set name, r | name in names && r in Flags(name, [], was[name], now[name]) :: r
  }
}
