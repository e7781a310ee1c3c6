/** The static check refuses no more than it has to: on annotations built from classes, literals, optionals and models it
    accepts exactly when whatever the source delivers is accepted. */
module SubtypingExact {

  import opened Subtyping

  /** Annotations of which the check knows what they mean: no class takes `None` for one of its own, literals are
      constants, and an optional is of something that is not one itself. */
  predicate Plain(w: World, t: Ty) {
    match t
    case Class(name) => !w.subclass("NoneType", name)
    case Literal(values) => values != [] && forall v :: v in values ==> v.Const? && v != NONE
    case Optional(inner) => !inner.Optional? && Plain(w, inner)
    case Model(name, fields) => name != "NoneType" && forall f :: f in fields ==> Plain(w, fields[f].ty)
    case _ => false
  }

  ghost predicate Ordered(w: World) {
    Transitive(w) && forall c :: w.subclass(c, c)
  }

  /** Something the type delivers. */
  function Example(w: World, t: Ty): Val
    requires Plain(w, t)
  {
    match t
    case Class(name) => Const(name, "")
    case Literal(values) => values[0]
    case Optional(inner) => NONE
    case Model(name, fields) => Instance(name, map f | f in fields :: Example(w, fields[f].ty))
  }

  lemma {:induction false} ExampleDelivered(w: World, t: Ty)
    requires Ordered(w) && Plain(w, t)
    ensures Delivers(w, t, Example(w, t))
    decreases t
  {
    match t
    case Model(_, fields) =>
      forall f | f in fields ensures Delivers(w, fields[f].ty, Example(w, fields[f].ty)) { ExampleDelivered(w, fields[f].ty); }
    case _ =>
  }

  lemma NeverNone(w: World, t: Ty)
    requires Plain(w, t) && !t.Optional?
    ensures !Delivers(w, t, NONE) && !Accepts(w, t, NONE)
  {
  }

  /** A text longer than what any of these constants is written as. */
  function Longer(values: seq<Val>): (s: string)
    ensures forall v :: v in values && v.Const? ==> |v.repr| < |s|
  {
    if values == [] then "x"
    else
      var rest, v := Longer(values[1..]), values[0];
      assert values == [v] + values[1..];
      if v.Const? then rest + v.repr + "x" else rest
  }

  /** A type that is not assignable delivers something that is not accepted. */
  lemma {:induction false} Counterexample(w: World, source: Ty, target: Ty) returns (v: Val)
    requires Ordered(w) && Plain(w, source) && Plain(w, target) && !Assignable(w, source, target)
    ensures Delivers(w, source, v) && !Accepts(w, target, v)
    decreases target
  {
    if target.Optional? {
      var inner := if source.Optional? then source.inner else source;
      v := Counterexample(w, inner, target.inner);
      NeverNone(w, inner);
    } else if source.Optional? {
      v := NONE;
      NeverNone(w, target);
    } else if source.Model? && target.Model? {
      v := FieldCounterexample(w, source, target);
    } else if source.Literal? && !target.Model? {
      v :| v in source.values && (if target.Literal? then v !in target.values else !w.subclass(ClassOf(v), target.name));
    } else if target.Literal? && source.Class? {
      v := Const(source.name, Longer(target.values));
    } else {
      v := Example(w, source);
      ExampleDelivered(w, source);
    }
  }

  lemma {:induction false} FieldCounterexample(w: World, source: Ty, target: Ty) returns (v: Val)
    requires Ordered(w) && Plain(w, source) && Plain(w, target) && source.Model? && target.Model?
    requires !ModelAssignable(w, source, target)
    ensures Delivers(w, source, v) && !Accepts(w, target, v)
    decreases target, 0
  {
    ExampleDelivered(w, source);
    var example := Example(w, source);
    var f :| f in target.fields
             && !(if f in source.fields then Assignable(w, source.fields[f].ty, target.fields[f].ty) else !target.fields[f].required);
    if f in source.fields {
      var part := Counterexample(w, source.fields[f].ty, target.fields[f].ty);
      v := Instance(source.name, example.fields[f := part]);
      assert v.fields.Keys == source.fields.Keys;
    } else {
      v := example;
    }
  }

  /** On such annotations the static check is exact. */
  lemma AssignableExactly(w: World, source: Ty, target: Ty)
    requires Ordered(w) && Plain(w, source) && Plain(w, target)
    ensures Assignable(w, source, target) <==> forall v :: Delivers(w, source, v) ==> Accepts(w, target, v)
  {
    if Assignable(w, source, target) {
      forall v | Delivers(w, source, v) ensures Accepts(w, target, v) { AssignableIsSound(w, source, target, v); }
    } else {
      var v := Counterexample(w, source, target);
    }
  }

  /** And everything is assignable to `Any`, and to itself. */
  lemma AlwaysAssignable(w: World, t: Ty)
    ensures Assignable(w, t, AnyTy) && Assignable(w, t, t)
  {
  }
}
