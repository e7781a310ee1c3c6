/** Static compatibility of annotations: when a value of one type will do where another is asked for,
    and what strict validation asks of the value beyond that. */
module Subtyping {

  /** A constant of a plain class, an instance of a model, or what an instance is dumped to. */
  datatype Val =
    | Const(cls: string, repr: string)
    | Instance(model: string, fields: map<string, Val>)
    | Dict(fields: map<string, Val>)

  /** The constraint of a field is no part of its annotation. */
  datatype Field = Field(ty: Ty, required: bool, constraint: string)

  /** Annotations. `Other` is any form that is compared by equality alone. */
  datatype Ty =
    | AnyTy
    | Class(name: string)
    | Literal(values: seq<Val>)
    | Optional(inner: Ty)
    | Model(name: string, fields: map<string, Field>)
    | Other(name: string)

  /** The class hierarchy, what the other forms mean, and what strict validation looks at: which classes of
      values a plain class admits, the constraints of fields, and the models that forbid extra fields. */
  datatype World = World(
    subclass: (string, string) -> bool, other: (string, Val) -> bool,
    admits: (string, string) -> bool, meets: (string, Val) -> bool, closed: string -> bool)

  const NONE := Const("NoneType", "None")

  function ClassOf(v: Val): string {
    match v
    case Const(cls, _) => cls
    case Instance(model, _) => model
    case Dict(_) => "dict"
  }

  ghost predicate Transitive(w: World) {
    forall a, b, c :: w.subclass(a, b) && w.subclass(b, c) ==> w.subclass(a, c)
  }

  // ---- what values a type has, by its annotation alone -----------------------

  /** A value that a field of this type accepts. A model needs its required fields only, and ignores any others. */
  ghost predicate Accepts(w: World, t: Ty, v: Val)
    decreases t
  {
    match t
    case AnyTy => true
    case Class(name) => w.subclass(ClassOf(v), name)
    case Literal(values) => v in values
    case Optional(inner) => v == NONE || Accepts(w, inner, v)
    case Model(_, fields) =>
      v.Instance?
      && forall f :: f in fields ==> if f in v.fields then Accepts(w, fields[f].ty, v.fields[f]) else !fields[f].required
    case Other(name) => w.other(name, v)
  }

  /** A value that a producer of this type delivers: an instance of a model itself, with exactly its fields. */
  ghost predicate Delivers(w: World, t: Ty, v: Val)
    decreases t
  {
    match t
    case AnyTy => true
    case Class(name) => w.subclass(ClassOf(v), name)
    case Literal(values) => v in values
    case Optional(inner) => v == NONE || Delivers(w, inner, v)
    case Model(name, fields) =>
      v.Instance? && v.model == name && v.fields.Keys == fields.Keys
      && forall f :: f in fields ==> Delivers(w, fields[f].ty, v.fields[f])
    case Other(name) => w.other(name, v)
  }

  // ---- the check ------------------------------------------------------------

  predicate LiteralAssignable(w: World, values: seq<Val>, target: Ty) {
    match target
    case Literal(wider) => forall v :: v in values ==> v in wider
    case Class(name) => forall v :: v in values ==> w.subclass(ClassOf(v), name)
    case Model(_, _) => values == []   // no constant is an instance of a model
    case _ => false
  }

  predicate ModelAssignable(w: World, source: Ty, target: Ty)
    requires source.Model? && target.Model?
    decreases target, 0
  {
    forall f :: f in target.fields ==>
      if f in source.fields then Assignable(w, source.fields[f].ty, target.fields[f].ty) else !target.fields[f].required
  }

  predicate Assignable(w: World, source: Ty, target: Ty)
    decreases target, 1
  {
    if target.AnyTy? then true
    else if source == target then true
    else if target.Optional? then Assignable(w, if source.Optional? then source.inner else source, target.inner)
    else if source.Optional? then false
    else if source.Literal? then LiteralAssignable(w, source.values, target)
    else if source.Model? && target.Model? then ModelAssignable(w, source, target)
    else if (source.Class? || source.Model?) && target.Class? then w.subclass(source.name, target.name)
    else false                         // a plain class is no subclass of a model
  }

  // ---- soundness ------------------------------------------------------------

  lemma {:induction false} DeliveredIsAccepted(w: World, t: Ty, v: Val)
    requires Delivers(w, t, v)
    ensures Accepts(w, t, v)
    decreases t
  {
    match t
    case Optional(inner) =>
      if v != NONE { DeliveredIsAccepted(w, inner, v); }
    case Model(_, fields) =>
      forall f | f in fields ensures Accepts(w, fields[f].ty, v.fields[f]) {
        DeliveredIsAccepted(w, fields[f].ty, v.fields[f]);
      }
    case _ =>
  }

  /** Whatever a producer of the source type delivers, the target accepts. */
  lemma {:induction false} AssignableIsSound(w: World, source: Ty, target: Ty, v: Val)
    requires Transitive(w) && Assignable(w, source, target) && Delivers(w, source, v)
    ensures Accepts(w, target, v)
    decreases target, 1
  {
    if target.AnyTy? {
    } else if source == target {
      DeliveredIsAccepted(w, target, v);
    } else if target.Optional? {
      if v != NONE {
        AssignableIsSound(w, if source.Optional? then source.inner else source, target.inner, v);
      }
    } else if source.Model? && target.Model? {
      ModelIsSound(w, source, target, v);
    }
  }

  lemma {:induction false} ModelIsSound(w: World, source: Ty, target: Ty, v: Val)
    requires Transitive(w) && source.Model? && target.Model? && Delivers(w, source, v)
    requires ModelAssignable(w, source, target)
    ensures Accepts(w, target, v)
    decreases target, 0
  {
    forall f | f in target.fields
      ensures if f in v.fields then Accepts(w, target.fields[f].ty, v.fields[f]) else !target.fields[f].required
    {
      if f in source.fields {
        AssignableIsSound(w, source.fields[f].ty, target.fields[f].ty, v.fields[f]);
      }
    }
  }

  /** Of a subclass instance, with fields that the source model does not have, the target accepts exactly
      those whose further fields it accepts where it names them. */
  lemma SubclassAcceptedExactly(w: World, source: Ty, target: Ty, v: Val)
    requires Transitive(w) && source.Model? && target.Model? && ModelAssignable(w, source, target)
    requires v.Instance? && source.fields.Keys <= v.fields.Keys
    requires forall f :: f in source.fields ==> Delivers(w, source.fields[f].ty, v.fields[f])
    ensures Accepts(w, target, v) <==>
      forall f :: f in target.fields && f in v.fields && f !in source.fields ==> Accepts(w, target.fields[f].ty, v.fields[f])
  {
    forall f | f in target.fields && f in source.fields ensures Accepts(w, target.fields[f].ty, v.fields[f]) {
      AssignableIsSound(w, source.fields[f].ty, target.fields[f].ty, v.fields[f]);
    }
  }

  // ---- strict validation ----------------------------------------------------

  /** What `model_validate(..., strict=True)` lets through: a dict is validated field by field, an instance
      of the model or of a subclass is taken as it is, and any other instance is refused. */
  ghost predicate Validates(w: World, t: Ty, v: Val)
    decreases t
  {
    match t
    case AnyTy => true
    case Class(name) => w.admits(ClassOf(v), name)
    case Literal(values) => v in values
    case Optional(inner) => v == NONE || Validates(w, inner, v)
    case Model(name, fields) =>
      match v {
        case Const(_, _) => false
        case Instance(model, _) => w.subclass(model, name)
        case Dict(members) =>
          && (w.closed(name) ==> members.Keys <= fields.Keys)
          && forall f :: f in fields ==>
               if f in members then Validates(w, fields[f].ty, members[f]) && w.meets(fields[f].constraint, members[f])
               else !fields[f].required
      }
    case Other(name) => w.other(name, v)
  }

  /** What a binding to a producer of this type carries, which validation by the producer's own model let through.
      A binding of a whole output dumps it, models inside included; a binding of one field hands over what the
      field holds. Subclass instances bring fields of their own. */
  ghost predicate Carries(w: World, dumped: bool, t: Ty, v: Val)
    decreases t
  {
    match t
    case AnyTy => true
    case Class(name) => v.Const? && w.admits(v.cls, name)
    case Literal(values) => v in values
    case Optional(inner) => v == NONE || Carries(w, dumped, inner, v)
    case Model(name, fields) =>
      && (if dumped then v.Dict? else v.Instance? && w.subclass(v.model, name))
      && fields.Keys <= v.fields.Keys
      && forall f :: f in fields ==> w.meets(fields[f].constraint, v.fields[f]) && Carries(w, dumped, fields[f].ty, v.fields[f])
    case Other(name) => w.other(name, v)
  }

  /** What the annotations leave open: whether a plain class admits the value, whether an instance is one of the
      target's class, whether extra fields are forbidden, whether constraints are met, and whether the fields
      that only the target knows of are what it expects. */
  ghost predicate Remains(w: World, source: Ty, target: Ty, v: Val)
    decreases target
  {
    match target
    case Class(name) => w.admits(ClassOf(v), name)
    case Optional(inner) => v == NONE || Remains(w, if source.Optional? then source.inner else source, inner, v)
    case Model(name, fields) =>
      if v.Instance? then w.subclass(v.model, name)
      else v.Dict? ==>
        && (w.closed(name) ==> v.fields.Keys <= fields.Keys)
        && forall f :: f in fields && f in v.fields ==>
             && w.meets(fields[f].constraint, v.fields[f])
             && (if source.Model? && f in source.fields then Remains(w, source.fields[f].ty, fields[f].ty, v.fields[f])
                 else Validates(w, fields[f].ty, v.fields[f]))
    case _ => true
  }

  lemma {:induction false} SameTypeValidates(w: World, dumped: bool, t: Ty, v: Val)
    requires Carries(w, dumped, t, v)
    ensures Validates(w, t, v) <==> Remains(w, t, t, v)
    decreases t
  {
    match t
    case Optional(inner) =>
      if v != NONE { SameTypeValidates(w, dumped, inner, v); }
    case Model(_, fields) =>
      if v.Dict? {
        forall f | f in fields
          ensures Validates(w, fields[f].ty, v.fields[f]) <==> Remains(w, fields[f].ty, fields[f].ty, v.fields[f])
        {
          SameTypeValidates(w, dumped, fields[f].ty, v.fields[f]);
        }
      }
    case _ =>
  }

  /** Of what a producer of an assignable type carries, strict validation refuses exactly what fails on what remains. */
  lemma {:induction false} AssignableValidates(w: World, dumped: bool, source: Ty, target: Ty, v: Val)
    requires Assignable(w, source, target) && Carries(w, dumped, source, v)
    ensures Validates(w, target, v) <==> Remains(w, source, target, v)
    decreases target, 1
  {
    if target.AnyTy? {
    } else if source == target {
      SameTypeValidates(w, dumped, target, v);
    } else if target.Optional? {
      if v != NONE {
        AssignableValidates(w, dumped, if source.Optional? then source.inner else source, target.inner, v);
      }
    } else if source.Model? && target.Model? {
      ModelValidates(w, dumped, source, target, v);
    }
  }

  lemma {:induction false} ModelValidates(w: World, dumped: bool, source: Ty, target: Ty, v: Val)
    requires source.Model? && target.Model? && ModelAssignable(w, source, target) && Carries(w, dumped, source, v)
    ensures Validates(w, target, v) <==> Remains(w, source, target, v)
    decreases target, 0
  {
    if v.Dict? {
      forall f | f in target.fields && f in source.fields
        ensures Validates(w, target.fields[f].ty, v.fields[f])
          <==> Remains(w, source.fields[f].ty, target.fields[f].ty, v.fields[f])
      {
        AssignableValidates(w, dumped, source.fields[f].ty, target.fields[f].ty, v.fields[f]);
      }
    }
  }

  // ---- bindings -------------------------------------------------------------

  /** What is bound to a field of the input: a whole output, or one of its fields, which keeps to its own constraint. */
  datatype Bound = Whole(ty: Ty) | Part(field: Field)

  function TypeOf(b: Bound): Ty {
    if b.Whole? then b.ty else b.field.ty
  }

  /** What registration checks of a binding map: every bound field exists and is assignable, every required field is bound. */
  predicate Bindable(w: World, bindings: map<string, Bound>, target: map<string, Field>) {
    && (forall f :: f in bindings ==> f in target && Assignable(w, TypeOf(bindings[f]), target[f].ty))
    && forall f :: f in target && target[f].required ==> f in bindings
  }

  /** The payload as the bindings deliver it. */
  ghost predicate Delivered(w: World, bindings: map<string, Bound>, payload: map<string, Val>) {
    && payload.Keys == bindings.Keys
    && forall f :: f in bindings ==> Brings(w, bindings[f], payload[f])
  }

  ghost predicate Brings(w: World, b: Bound, v: Val) {
    Carries(w, b.Whole?, TypeOf(b), v) && (b.Part? ==> w.meets(b.field.constraint, v))
  }

  /** A payload built from checked bindings passes strict validation exactly when each bound value meets the
      constraint of its field and passes what its annotation leaves open. */
  lemma BoundPayloadValidates(w: World, bindings: map<string, Bound>, name: string, target: map<string, Field>, payload: map<string, Val>)
    requires Bindable(w, bindings, target) && Delivered(w, bindings, payload)
    ensures Validates(w, Model(name, target), Dict(payload)) <==>
      forall f :: f in bindings ==>
        w.meets(target[f].constraint, payload[f]) && Remains(w, TypeOf(bindings[f]), target[f].ty, payload[f])
  {
    forall f | f in bindings
      ensures Validates(w, target[f].ty, payload[f]) <==> Remains(w, TypeOf(bindings[f]), target[f].ty, payload[f])
    {
      AssignableValidates(w, bindings[f].Whole?, TypeOf(bindings[f]), target[f].ty, payload[f]);
    }
  }

  // ---- what can be told before the run --------------------------------------

  /** What keeps to the constraint of the source keeps to the one of the target. */
  ghost predicate Kept(w: World, source: string, target: string) {
    forall v :: w.meets(source, v) ==> w.meets(target, v)
  }

  /** Nothing remains to be seen at run time: constraints are kept, classes admit every value bound to them, models
      allow extra fields and name none that the source model lacks, and an instance is of a class that inherits. */
  ghost predicate Settled(w: World, dumped: bool, source: Ty, target: Ty)
    decreases target
  {
    match target
    case Class(name) => forall v {:trigger Carries(w, dumped, source, v)} :: Carries(w, dumped, source, v) ==> w.admits(ClassOf(v), name)
    case Optional(inner) => Settled(w, dumped, if source.Optional? then source.inner else source, inner)
    case Model(name, fields) =>
      source.Model? && if !dumped then w.subclass(source.name, name) else
        && !w.closed(name) && fields.Keys <= source.fields.Keys
        && forall f :: f in fields ==>
             Kept(w, source.fields[f].constraint, fields[f].constraint) && Settled(w, dumped, source.fields[f].ty, fields[f].ty)
    case _ => true
  }

  lemma {:induction false} SettledRemains(w: World, dumped: bool, source: Ty, target: Ty, v: Val)
    requires Transitive(w) && Settled(w, dumped, source, target) && Carries(w, dumped, source, v)
    ensures Remains(w, source, target, v)
    decreases target
  {
    match target
    case Optional(inner) =>
      if v != NONE { SettledRemains(w, dumped, if source.Optional? then source.inner else source, inner, v); }
    case Model(_, fields) =>
      if v.Dict? {
        forall f | f in fields ensures Remains(w, source.fields[f].ty, fields[f].ty, v.fields[f]) {
          SettledRemains(w, dumped, source.fields[f].ty, fields[f].ty, v.fields[f]);
        }
      }
    case _ =>
  }

  ghost predicate BindingSettled(w: World, b: Bound, target: Field) {
    && (if b.Part? then Kept(w, b.field.constraint, target.constraint) else forall v :: w.meets(target.constraint, v))
    && Settled(w, b.Whole?, TypeOf(b), target.ty)
  }

  /** Then no payload that the bindings can deliver halts the step. */
  lemma SettledNeverHalts(w: World, bindings: map<string, Bound>, name: string, target: map<string, Field>, payload: map<string, Val>)
    requires Transitive(w) && Bindable(w, bindings, target) && Delivered(w, bindings, payload)
    requires forall f :: f in bindings ==> BindingSettled(w, bindings[f], target[f])
    ensures Validates(w, Model(name, target), Dict(payload))
  {
    forall f | f in bindings ensures Remains(w, TypeOf(bindings[f]), target[f].ty, payload[f]) {
      SettledRemains(w, bindings[f].Whole?, TypeOf(bindings[f]), target[f].ty, payload[f]);
    }
    BoundPayloadValidates(w, bindings, name, target, payload);
  }

  // ---- checked bindings whose payload halts the step ------------------------

  /** The binding passes registration, and this value of it fails validation. */
  ghost predicate CheckedYetRefused(w: World, b: Bound, field: Field, v: Val) {
    && Bindable(w, map["x" := b], map["x" := field])
    && Delivered(w, map["x" := b], map["x" := v])
    && !Validates(w, Model("Input", map["x" := field]), Dict(map["x" := v]))
  }

  lemma RefusedBy(w: World, b: Bound, field: Field, v: Val)
    requires Assignable(w, TypeOf(b), field.ty) && Brings(w, b, v)
    requires !(w.meets(field.constraint, v) && Remains(w, TypeOf(b), field.ty, v))
    ensures CheckedYetRefused(w, b, field, v)
  {
    BoundPayloadValidates(w, map["x" := b], "Input", map["x" := field], map["x" := v]);
    assert "x" in map["x" := b];
  }

  const ANY := ""
  const INT := Field(Class("int"), true, ANY)

  /** A constraint that the annotation does not show. */
  lemma ConstraintRefused(w: World)
    requires w.admits("int", "int") && w.meets(ANY, Const("int", "-1")) && !w.meets("gt=0", Const("int", "-1"))
    ensures CheckedYetRefused(w, Part(INT), INT.(constraint := "gt=0"), Const("int", "-1"))
  {
    RefusedBy(w, Part(INT), INT.(constraint := "gt=0"), Const("int", "-1"));
  }

  /** A subclass that strict validation does not admit. */
  lemma BooleanRefused(w: World)
    requires w.subclass("bool", "int") && w.admits("bool", "bool") && !w.admits("bool", "int")
    requires w.meets(ANY, Const("bool", "True"))
    ensures CheckedYetRefused(w, Part(Field(Class("bool"), true, ANY)), INT, Const("bool", "True"))
  {
    RefusedBy(w, Part(Field(Class("bool"), true, ANY)), INT, Const("bool", "True"));
  }

  /** An instance of another model with the very same fields: bound as a field it is refused, dumped it passes. */
  lemma StructuralMatchRefused(w: World)
    requires w.subclass("Source", "Source") && !w.subclass("Source", "Target") && !w.closed("Target")
    requires w.admits("int", "int") && forall v :: w.meets(ANY, v)
    ensures
      var inside, members := map["f" := INT], map["f" := Const("int", "1")];
      && CheckedYetRefused(
           w, Part(Field(Model("Source", inside), true, ANY)), Field(Model("Target", inside), true, ANY), Instance("Source", members))
      && Validates(w, Model("Target", inside), Dict(members))
  {
    var inside, members := map["f" := INT], map["f" := Const("int", "1")];
    assert Assignable(w, INT.ty, INT.ty);
    RefusedBy(w, Part(Field(Model("Source", inside), true, ANY)), Field(Model("Target", inside), true, ANY), Instance("Source", members));
  }

  /** The dump of a subclass instance may hold a field that the source model does not have and the target reads differently. */
  lemma SubclassInstanceRefused(w: World)
    requires !w.admits("str", "int")
    ensures
      CheckedYetRefused(
        w, Whole(Model("Source", map[])), Field(Model("Target", map["f" := INT.(required := false)]), true, ANY),
        Dict(map["f" := Const("str", "x")]))
  {
    var inner := map["f" := INT.(required := false)];
    var v := Dict(map["f" := Const("str", "x")]);
    assert "f" in inner && "f" in v.fields && !Validates(w, inner["f"].ty, v.fields["f"]);
    RefusedBy(w, Whole(Model("Source", map[])), Field(Model("Target", inner), true, ANY), v);
  }
}
