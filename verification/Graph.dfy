/** The nodes of a pipeline, what registration checks about them, and how their inputs are put together. */
module Graph {

  import opened Wrappers

  /** A validated model instance, or what a field of one holds. */
  datatype Value = Null | Atom(n: int) | Object(fields: map<string, Value>)

  /** Upstream output, whole or one field of it. */
  datatype Binding = From(agent: string, field: Option<string>)

  /** A branch condition: one operator over one field of an upstream output. It may raise, as a comparison with
      `None` does, and then comes to nothing. */
  datatype When = When(agent: string, field: string, holds: Value -> Option<bool>)

  datatype Policy = ExactlyOne | FirstByPriority | AllPresent

  datatype Node =
    | AgentNode(name: string, inputs: map<string, Binding>, when: Option<When>, needsApproval: bool, seal: string)
    | JoinNode(name: string, sources: seq<string>, policy: Policy, inputs: map<string, Binding>)

  type Outputs = map<string, Value>

  /** A validated instance has every field of its model; registration saw to it that the field is one of them. */
  function FieldOf(v: Value, field: string): Value {
    if v.Object? && field in v.fields then v.fields[field] else Atom(0)
  }

  function Pick(b: Binding, outputs: Outputs): Value
    requires b.agent in outputs
  {
    if b.field.None? then outputs[b.agent] else FieldOf(outputs[b.agent], b.field.value)
  }

  /** The input payload, or nothing when an upstream output that it needs is missing. */
  function BuildInput(
    inputs: map<string, Binding>, outputs: Outputs, initial: Option<Value>, predecessor: Option<string>
  ): Option<Value> {
    if inputs == map[] then
      if predecessor.None? then initial
      else if predecessor.value in outputs then Some(outputs[predecessor.value])
      else None
    else if forall f :: f in inputs ==> inputs[f].agent in outputs then
      Some(Object(map f | f in inputs :: Pick(inputs[f], outputs)))
    else None
  }

  function Bound(inputs: map<string, Binding>): set<string> {
    set f | f in inputs :: inputs[f].agent
  }

  // ---- registration ---------------------------------------------------------

  function Names(nodes: seq<Node>): set<string> {
    set i | 0 <= i < |nodes| :: nodes[i].name
  }

  lemma NameAt(nodes: seq<Node>, i: nat)
    requires i < |nodes|
    ensures nodes[i].name in Names(nodes)
  {
  }

  predicate Conditional(n: Node) {
    n.AgentNode? && n.when.Some?
  }

  /** A selecting join has no use for bindings, and none of its bindings are checked. */
  predicate UsesInputs(n: Node) {
    n.AgentNode? || n.policy.AllPresent?
  }

  /** What `add` checks about a node, given the nodes before it. What it checks about models and tools is in `Registration`. */
  predicate Admissible(before: seq<Node>, n: Node) {
    && n.name !in Names(before)
    && (UsesInputs(n) ==> Bound(n.inputs) <= Names(before))
    && (n.JoinNode? ==> n.sources != [] && forall s :: s in n.sources ==> s in Names(before))
    && (Conditional(n) ==>
          n.when.value.agent in Names(before)
          && forall i :: 0 <= i < |before| && before[i].name == n.when.value.agent ==> !Conditional(before[i]))
  }

  ghost predicate WellFormed(nodes: seq<Node>) {
    forall i :: 0 <= i < |nodes| ==> Admissible(nodes[..i], nodes[i])
  }

  lemma NamesDistinct(nodes: seq<Node>, i: nat, j: nat)
    requires WellFormed(nodes) && i < j < |nodes|
    ensures nodes[i].name != nodes[j].name
  {
    assert Admissible(nodes[..j], nodes[j]);
    assert nodes[i] in nodes[..j];
  }

  lemma NamesNext(nodes: seq<Node>, i: nat)
    requires i < |nodes|
    ensures Names(nodes[..i + 1]) == Names(nodes[..i]) + {nodes[i].name}
  {
    assert nodes[..i + 1] == nodes[..i] + [nodes[i]];
  }

  /** Every join that builds its output from bindings binds only what it waits for. */
  predicate JoinsBindSources(nodes: seq<Node>) {
    forall i :: 0 <= i < |nodes| && nodes[i].JoinNode? && nodes[i].policy.AllPresent? ==>
      forall s :: s in Bound(nodes[i].inputs) ==> s in nodes[i].sources
  }

  /** Every such join has bindings. */
  predicate JoinsHaveInputs(nodes: seq<Node>) {
    forall i :: 0 <= i < |nodes| && nodes[i].JoinNode? && nodes[i].policy.AllPresent? ==> nodes[i].inputs != map[]
  }

  function Predecessor(nodes: seq<Node>, idx: nat): Option<string>
    requires idx < |nodes|
  {
    if idx > 0 then Some(nodes[idx - 1].name) else None
  }

  /** The nodes an agent's input is built from. */
  function ReachSources(nodes: seq<Node>, idx: nat): set<string>
    requires idx < |nodes|
  {
    if nodes[idx].inputs != map[] then Bound(nodes[idx].inputs)
    else if idx > 0 then {nodes[idx - 1].name} else {}
  }

  /** Where an agent's input comes from. */
  lemma ReachSourcesEarlier(nodes: seq<Node>, idx: nat)
    requires WellFormed(nodes) && idx < |nodes| && nodes[idx].AgentNode?
    ensures ReachSources(nodes, idx) <= Names(nodes[..idx])
  {
    assert Admissible(nodes[..idx], nodes[idx]);
    if idx > 0 {
      assert nodes[..idx][idx - 1] == nodes[idx - 1];
    }
  }

  /** `byName` finds every node under its name, and nothing else. */
  ghost predicate Indexed(nodes: seq<Node>, byName: map<string, Node>) {
    && (forall i :: 0 <= i < |nodes| ==> nodes[i].name in byName && byName[nodes[i].name] == nodes[i])
    && byName.Keys == Names(nodes)
  }

  lemma Extended(nodes: seq<Node>, byName: map<string, Node>, n: Node)
    requires WellFormed(nodes) && Indexed(nodes, byName) && Admissible(nodes, n)
    ensures WellFormed(nodes + [n]) && Indexed(nodes + [n], byName[n.name := n])
  {
    var more := nodes + [n];
    forall i | 0 <= i < |more| ensures Admissible(more[..i], more[i]) {
      assert more[..i] == nodes[..i];
      assert nodes[..|nodes|] == nodes;
    }
    NamesNext(more, |nodes|);
    assert more[..|nodes|] == nodes && more[..|more|] == more;
  }
}
