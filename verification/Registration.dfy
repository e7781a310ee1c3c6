/** What registration checks about the models of a node, and what that leaves to be refused at run time. */
module Registration {

  import opened Wrappers
  import opened Graph
  import Subtyping

  /** What a node declares: the fields of its input model, its output model, and its tools. A join has no input model
      of its own and no tools. */
  datatype Declared = Declared(input: map<string, Subtyping.Field>, output: Subtyping.Ty, tools: seq<string>)

  /** The class hierarchy, and the tools there are. */
  datatype Registry = Registry(world: Subtyping.World, tools: set<string>)

  type Models = map<string, Declared>

  const EVIDENCE_TOOL := "evidence://retrieve"

  function Fields(t: Subtyping.Ty): map<string, Subtyping.Field> {
    if t.Model? then t.fields else map[]
  }

  /** The binding names a node before it and, if any, a field that this node's output has. */
  predicate Resolves(models: Models, b: Binding) {
    b.agent in models && (b.field.Some? ==> b.field.value in Fields(models[b.agent].output))
  }

  function SourceOf(models: Models, b: Binding): Subtyping.Bound
    requires Resolves(models, b)
  {
    var output := models[b.agent].output;
    if b.field.None? then Subtyping.Whole(output) else Subtyping.Part(Fields(output)[b.field.value])
  }

  function SourcesOf(models: Models, inputs: map<string, Binding>): map<string, Subtyping.Bound>
    requires forall f :: f in inputs ==> Resolves(models, inputs[f])
  {
    map f | f in inputs :: SourceOf(models, inputs[f])
  }

  /** Bindings of an agent: none at all, or every one fits and every required field is bound. */
  predicate AgentTyped(reg: Registry, models: Models, n: Node, d: Declared)
    requires n.AgentNode?
  {
    && (n.inputs != map[] ==>
          && (forall f :: f in n.inputs ==> Resolves(models, n.inputs[f]))
          && Subtyping.Bindable(reg.world, SourcesOf(models, n.inputs), d.input))
    && (n.when.Some? ==> Resolves(models, From(n.when.value.agent, Some(n.when.value.field))))
    && forall t :: t in d.tools ==> t == EVIDENCE_TOOL || t in reg.tools
  }

  /** A selecting join forwards any of its sources; the other kind builds its output from bindings, and nothing asks
      whether every required field is bound. */
  predicate JoinTyped(reg: Registry, models: Models, n: Node, d: Declared)
    requires n.JoinNode?
  {
    if n.policy.AllPresent? then
      forall f :: f in n.inputs ==>
        && f in Fields(d.output) && Resolves(models, n.inputs[f])
        && Subtyping.Assignable(reg.world, Subtyping.TypeOf(SourceOf(models, n.inputs[f])), Fields(d.output)[f].ty)
    else
      forall s :: s in n.sources ==> s in models && Subtyping.Assignable(reg.world, models[s].output, d.output)
  }

  predicate Typed(reg: Registry, models: Models, n: Node, d: Declared) {
    if n.AgentNode? then AgentTyped(reg, models, n, d) else JoinTyped(reg, models, n, d)
  }

  /** The type of what a binding carries: the output model of the node it names, or one field of it. */
  ghost predicate Carries(models: Models, b: Binding, t: Subtyping.Ty) {
    && b.agent in models
    && var output := models[b.agent].output;
       match b.field
       case None => t == output
       case Some(f) => output.Model? && f in output.fields && t == output.fields[f].ty
  }

  /** A binding finds an assignable type for this field. */
  ghost predicate Fits(reg: Registry, models: Models, b: Binding, fields: map<string, Subtyping.Field>, f: string) {
    f in fields && exists t :: Carries(models, b, t) && Subtyping.Assignable(reg.world, t, fields[f].ty)
  }

  ghost predicate IsUnconditional(nodes: seq<Node>, name: string) {
    exists i :: 0 <= i < |nodes| && nodes[i].name == name && (nodes[i].AgentNode? ==> nodes[i].when.None?)
  }

  /** An agent is accepted exactly when its name is new, its bindings, if it has any, name nodes before it, fit their fields
      and leave no required one out, its condition reads a field of an unconditional node before it, and its tools are
      registered or the evidence tool. */
  lemma AgentAcceptedExactly(reg: Registry, nodes: seq<Node>, models: Models, n: Node, d: Declared)
    requires WellFormed(nodes) && models.Keys == Names(nodes) && n.AgentNode?
    ensures Admissible(nodes, n) && Typed(reg, models, n, d) <==>
      && n.name !in models
      && (forall f :: f in n.inputs ==> Fits(reg, models, n.inputs[f], d.input, f))
      && (n.inputs != map[] ==> forall f :: f in d.input && d.input[f].required ==> f in n.inputs)
      && (n.when.Some? ==>
            var w := n.when.value;
            IsUnconditional(nodes, w.agent) && w.agent in models
            && models[w.agent].output.Model? && w.field in models[w.agent].output.fields)
      && (forall t :: t in d.tools ==> t == "evidence://retrieve" || t in reg.tools)
  {
    FitsExactly(reg, models, n.inputs, d.input);
    BoundNames(n.inputs);
    if n.when.Some? { UnconditionalExactly(nodes, n.when.value.agent); }
    hide WellFormed, Names, Carries, Fits, Subtyping.Bindable, SourcesOf, IsUnconditional, Bound;
  }

  lemma CarriesExactly(models: Models, b: Binding)
    ensures Resolves(models, b) ==> forall t :: Carries(models, b, t) <==> t == Subtyping.TypeOf(SourceOf(models, b))
    ensures !Resolves(models, b) ==> forall t :: !Carries(models, b, t)
  {
  }

  lemma FitExactly(reg: Registry, models: Models, b: Binding, fields: map<string, Subtyping.Field>, f: string)
    ensures Fits(reg, models, b, fields, f) <==>
      f in fields && Resolves(models, b)
      && Subtyping.Assignable(reg.world, Subtyping.TypeOf(SourceOf(models, b)), fields[f].ty)
    ensures Fits(reg, models, b, fields, f) ==> b.agent in models
  {
    CarriesExactly(models, b);
    hide Carries, Subtyping.Assignable;
  }

  lemma FitsExactly(reg: Registry, models: Models, inputs: map<string, Binding>, fields: map<string, Subtyping.Field>)
    ensures (forall f :: f in inputs ==> Fits(reg, models, inputs[f], fields, f)) <==>
      (forall f :: f in inputs ==> Resolves(models, inputs[f]))
      && forall f :: f in inputs ==>
           f in fields && Subtyping.Assignable(reg.world, Subtyping.TypeOf(SourceOf(models, inputs[f])), fields[f].ty)
    ensures (forall f :: f in inputs ==> Fits(reg, models, inputs[f], fields, f))
            && (forall f :: f in fields && fields[f].required ==> f in inputs) <==>
      (forall f :: f in inputs ==> Resolves(models, inputs[f])) && Subtyping.Bindable(reg.world, SourcesOf(models, inputs), fields)
    ensures (forall f :: f in inputs ==> Fits(reg, models, inputs[f], fields, f)) ==> forall f :: f in inputs ==> inputs[f].agent in models
  {
    forall f | f in inputs
      ensures Fits(reg, models, inputs[f], fields, f) <==>
        f in fields && Resolves(models, inputs[f])
        && Subtyping.Assignable(reg.world, Subtyping.TypeOf(SourceOf(models, inputs[f])), fields[f].ty)
    {
      FitExactly(reg, models, inputs[f], fields, f);
    }
    hide Fits, Subtyping.Assignable, Subtyping.TypeOf;
  }

  lemma BoundNames(inputs: map<string, Binding>)
    ensures forall f :: f in inputs ==> inputs[f].agent in Bound(inputs)
    ensures forall s :: s in Bound(inputs) ==> exists f :: f in inputs && inputs[f].agent == s
  {
  }

  lemma UnconditionalExactly(nodes: seq<Node>, name: string)
    requires WellFormed(nodes)
    ensures IsUnconditional(nodes, name) <==>
      name in Names(nodes) && forall i :: 0 <= i < |nodes| && nodes[i].name == name ==> !Conditional(nodes[i])
  {
    if IsUnconditional(nodes, name) {
      var i :| 0 <= i < |nodes| && nodes[i].name == name && (nodes[i].AgentNode? ==> nodes[i].when.None?);
      forall j | 0 <= j < |nodes| && nodes[j].name == name ensures j == i {
        if j < i { NamesDistinct(nodes, j, i); } else if i < j { NamesDistinct(nodes, i, j); }
      }
    }
  }

  /** A join is accepted exactly when its name is new, it has sources and they are nodes before it, and they are all
      assignable to its output if it selects one of them, or its bindings fit if it builds its output. */
  lemma JoinAcceptedExactly(reg: Registry, nodes: seq<Node>, models: Models, n: Node, d: Declared)
    requires models.Keys == Names(nodes) && n.JoinNode?
    ensures Admissible(nodes, n) && Typed(reg, models, n, d) <==>
      && n.name !in models && n.sources != []
      && (forall s :: s in n.sources ==> s in models)
      && (n.policy.AllPresent? ==> forall f :: f in n.inputs ==> Fits(reg, models, n.inputs[f], Fields(d.output), f))
      && (!n.policy.AllPresent? ==>
            forall s :: s in n.sources ==> s in models && Subtyping.Assignable(reg.world, models[s].output, d.output))
  {
    FitsExactly(reg, models, n.inputs, Fields(d.output));
    BoundNames(n.inputs);
    hide WellFormed, Names, Carries, Fits, Subtyping.Bindable, SourcesOf, Bound;
  }

  /** Every node has been checked against the models it is registered with. */
  ghost predicate AllTyped(reg: Registry, nodes: seq<Node>, models: Models) {
    && models.Keys == Names(nodes)
    && forall i :: 0 <= i < |nodes| ==> nodes[i].name in models && Typed(reg, models, nodes[i], models[nodes[i].name])
  }

  /** A node stays checked when others are registered after it. */
  lemma TypedStays(reg: Registry, models: Models, more: Models, n: Node, d: Declared)
    requires Typed(reg, models, n, d)
    requires models.Keys <= more.Keys && forall s :: s in models ==> more[s] == models[s]
    ensures Typed(reg, more, n, d)
    ensures
      UsesInputs(n) && n.inputs != map[] ==>
        (forall f :: f in n.inputs ==> Resolves(models, n.inputs[f]) && Resolves(more, n.inputs[f]))
        && SourcesOf(more, n.inputs) == SourcesOf(models, n.inputs)
  {
    if UsesInputs(n) && n.inputs != map[] {
      assert SourcesOf(more, n.inputs) == SourcesOf(models, n.inputs);
    }
  }

  lemma TypedNext(reg: Registry, nodes: seq<Node>, models: Models, n: Node, d: Declared)
    requires AllTyped(reg, nodes, models) && Admissible(nodes, n) && Typed(reg, models, n, d)
    ensures AllTyped(reg, nodes + [n], models[n.name := d])
  {
    hide Typed;
    var nodes', models' := nodes + [n], models[n.name := d];
    NamesNext(nodes', |nodes|);
    assert nodes'[..|nodes|] == nodes && nodes'[..|nodes'|] == nodes';
    forall i | 0 <= i < |nodes'| ensures nodes'[i].name in models' && Typed(reg, models', nodes'[i], models'[nodes'[i].name]) {
      if i < |nodes| {
        NameAt(nodes, i);
        TypedStays(reg, models, models', nodes[i], models[nodes[i].name]);
      } else {
        TypedStays(reg, models, models', n, d);
      }
    }
  }

  // ---- what a registered node can still be refused for ----------------------

  /** The payload of a registered agent passes strict validation exactly when each bound value meets the constraint of
      its field and passes what its annotation leaves open. */
  lemma RegisteredAgentValidates(
    reg: Registry, nodes: seq<Node>, models: Models, i: nat, input: string, payload: map<string, Subtyping.Val>
  )
    requires AllTyped(reg, nodes, models) && i < |nodes| && nodes[i].AgentNode? && nodes[i].inputs != map[]
    requires Subtyping.Delivered(reg.world, SourcesOf(models, nodes[i].inputs), payload)
    ensures
      var w, sources, target := reg.world, SourcesOf(models, nodes[i].inputs), models[nodes[i].name].input;
      && sources.Keys <= target.Keys
      && (Subtyping.Validates(w, Subtyping.Model(input, target), Subtyping.Dict(payload)) <==>
            forall f :: f in sources ==>
              && w.meets(target[f].constraint, payload[f])
              && Subtyping.Remains(w, Subtyping.TypeOf(sources[f]), target[f].ty, payload[f]))
  {
    var target := models[nodes[i].name].input;
    Subtyping.BoundPayloadValidates(reg.world, SourcesOf(models, nodes[i].inputs), input, target, payload);
  }

  /** What a registered selecting join forwards passes its model exactly when it passes what the annotations leave open. */
  lemma RegisteredJoinForwards(reg: Registry, nodes: seq<Node>, models: Models, i: nat, s: string, v: Subtyping.Val)
    requires AllTyped(reg, nodes, models) && i < |nodes| && nodes[i].JoinNode? && !nodes[i].policy.AllPresent?
    requires s in nodes[i].sources
    requires s in models ==> Subtyping.Carries(reg.world, true, models[s].output, v)
    ensures
      s in models
      && (Subtyping.Validates(reg.world, models[nodes[i].name].output, v) <==>
            Subtyping.Remains(reg.world, models[s].output, models[nodes[i].name].output, v))
  {
    Subtyping.AssignableValidates(reg.world, true, models[s].output, models[nodes[i].name].output, v);
  }

  /** What a registered join builds from its bindings passes exactly when, besides, every required field is bound. */
  lemma RegisteredJoinBuilds(reg: Registry, nodes: seq<Node>, models: Models, i: nat, payload: map<string, Subtyping.Val>)
    requires AllTyped(reg, nodes, models) && i < |nodes| && nodes[i].JoinNode? && nodes[i].policy.AllPresent?
    requires nodes[i].inputs != map[] && models[nodes[i].name].output.Model?
    requires Subtyping.Delivered(reg.world, SourcesOf(models, nodes[i].inputs), payload)
    ensures
      var w, sources, output := reg.world, SourcesOf(models, nodes[i].inputs), models[nodes[i].name].output;
      && sources.Keys <= output.fields.Keys
      && (Subtyping.Validates(w, output, Subtyping.Dict(payload)) <==>
            (forall f :: f in output.fields && output.fields[f].required ==> f in sources)
            && forall f :: f in sources ==>
              && w.meets(output.fields[f].constraint, payload[f])
              && Subtyping.Remains(w, Subtyping.TypeOf(sources[f]), output.fields[f].ty, payload[f]))
  {
    hide Subtyping.Remains, Subtyping.Carries, Subtyping.Assignable;
    var w, sources, fields := reg.world, SourcesOf(models, nodes[i].inputs), models[nodes[i].name].output.fields;
    forall f | f in sources
      ensures Subtyping.Validates(w, fields[f].ty, payload[f]) <==>
        Subtyping.Remains(w, Subtyping.TypeOf(sources[f]), fields[f].ty, payload[f])
    {
      Subtyping.AssignableValidates(w, sources[f].Whole?, Subtyping.TypeOf(sources[f]), fields[f].ty, payload[f]);
    }
  }

  const X := Subtyping.Field(Subtyping.AnyTy, true, "")

  /** A join that binds one field of its output and leaves another, which is required, unbound. */
  function Unfinished(): (seq<Node>, Models) {
    var a := AgentNode("a", map[], None, false, "");
    var j := JoinNode("j", ["a"], AllPresent, map["x" := From("a", None)]);
    ([a, j],
     map["a" := Declared(map[], Subtyping.Model("A", map["x" := X]), []),
         "j" := Declared(map[], Subtyping.Model("J", map["x" := X, "y" := X]), [])])
  }

  lemma UnfinishedRegistered(reg: Registry)
    ensures WellFormed(Unfinished().0) && AllTyped(reg, Unfinished().0, Unfinished().1)
  {
    var (nodes, models) := Unfinished();
    assert nodes[..0] == [] && nodes[..1] == [nodes[0]];
    NamesNext(nodes, 0);
    NamesNext(nodes, 1);
    assert nodes[..2] == nodes && Names([]) == {};
    assert Admissible([], nodes[0]) && Admissible([nodes[0]], nodes[1]);
  }

  /** Such a join is registered, and then every payload it can build is refused. */
  lemma UnboundFieldRefused(reg: Registry, payload: map<string, Subtyping.Val>)
    ensures WellFormed(Unfinished().0) && AllTyped(reg, Unfinished().0, Unfinished().1)
    ensures
      var (nodes, models) := Unfinished();
      Subtyping.Delivered(reg.world, SourcesOf(models, nodes[1].inputs), payload) ==>
        !Subtyping.Validates(reg.world, models["j"].output, Subtyping.Dict(payload))
  {
    UnfinishedRegistered(reg);
    hide WellFormed, AllTyped;
    assert "y" in Unfinished().1["j"].output.fields;
  }
}
