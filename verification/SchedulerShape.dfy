/** What holds at every node of every attempt: each earlier node either has an output or was skipped,
    and nothing is looked up that is not there. */
module SchedulerShape {

  import opened Wrappers
  import opened Taint
  import opened Graph
  import opened Checkpoints
  import opened Scheduler

  ghost predicate Shape(nodes: seq<Node>, k: Core, idx: nat)
    requires idx <= |nodes|
  {
    && k.outputs.Keys + k.skipped == Names(nodes[..idx])
    && k.outputs.Keys !! k.skipped
    && k.trust.Keys == k.outputs.Keys
  }

  /** The loop gained an output for this node, or skipped it, and nothing else happened to what came before. */
  ghost predicate Grew(k: Core, k': Core, name: string) {
    || (name in k'.outputs && name in k'.trust && k' == Ran(k, name, k'.outputs[name], k'.trust[name]))
    || k' == Skipped(k, name)
  }

  lemma ExecuteGrows(c: Context, l: Loop, idx: nat, n: Node, seed: Trust)
    requires idx < |c.plan.nodes| && n.AgentNode?
    ensures
      var next := Execute(c, l, idx, n, seed);
      next.Continue? ==> Grew(l.core, next.l.core, n.name) && n.name in next.l.core.outputs
  {
  }

  lemma DecideGrows(c: Context, l: Loop, idx: nat, n: Node, pending: Request, seed: Trust)
    requires n.AgentNode?
    ensures
      var next := Decide(c, l, idx, n, pending, seed);
      next.Continue? ==> Grew(l.core, next.l.core, n.name) && n.name in next.l.core.outputs
  {
  }

  lemma EnterGrows(c: Context, l: Loop, idx: nat, n: Node)
    requires idx < |c.plan.nodes| && n == c.plan.nodes[idx] && n.AgentNode?
    ensures
      var next := Enter(c, l, idx, n);
      next.Continue? ==> Grew(l.core, next.l.core, n.name) && n.name in next.l.core.outputs
  {
    ExecuteGrows(c, l, idx, n, SeedOf(c, l.core, idx));
    if PendingAt(l, n) {
      DecideGrows(c, l, idx, n, l.store.value.request.value, SeedOf(c, l.core, idx));
    }
  }

  lemma AdvanceGrows(c: Context, l: Loop, idx: nat)
    requires idx < |c.plan.nodes|
    ensures Advance(c, l, idx).Continue? ==> Grew(l.core, Advance(c, l, idx).l.core, c.plan.nodes[idx].name)
  {
    var n := c.plan.nodes[idx];
    if n.AgentNode? {
      EnterGrows(c, l, idx, n);
    }
  }

  lemma GrewShape(nodes: seq<Node>, k: Core, k': Core, idx: nat)
    requires WellFormed(nodes) && idx < |nodes|
    requires Shape(nodes, k, idx) && Grew(k, k', nodes[idx].name)
    ensures Shape(nodes, k', idx + 1)
  {
    NamesNext(nodes, idx);
    assert Admissible(nodes[..idx], nodes[idx]);
  }

  lemma AdvanceShape(c: Context, l: Loop, idx: nat)
    requires WellFormed(c.plan.nodes) && idx < |c.plan.nodes| && Shape(c.plan.nodes, l.core, idx)
    ensures Advance(c, l, idx).Continue? ==> Shape(c.plan.nodes, Advance(c, l, idx).l.core, idx + 1)
  {
    AdvanceGrows(c, l, idx);
    if Advance(c, l, idx).Continue? {
      GrewShape(c.plan.nodes, l.core, Advance(c, l, idx).l.core, idx);
    }
  }

  /** The loop after `k` nodes, or where it stopped before. */
  function Cut(c: Context, l: Loop, idx: nat, k: nat): Loop
    requires idx <= |c.plan.nodes|
    decreases k
  {
    if k == 0 || idx == |c.plan.nodes| then l
    else
      match Advance(c, l, idx)
      case Continue(l') => Cut(c, l', idx + 1, k - 1)
      case Stop(_, l') => l'
  }

  /** What a cut loop goes on to after this node. */
  function CutAfter(c: Context, next: Next, idx: nat, k: nat): Loop
    requires idx <= |c.plan.nodes|
  {
    if next.Continue? then Cut(c, next.l, idx, k) else next.l
  }

  lemma CutNext(c: Context, l: Loop, idx: nat, k: nat) returns (next: Next)
    requires k > 0 && idx < |c.plan.nodes|
    ensures next == Advance(c, l, idx) && Cut(c, l, idx, k) == CutAfter(c, next, idx + 1, k - 1)
  {
    next := Advance(c, l, idx);
  }

  lemma AdvanceStore(c: Context, l: Loop, idx: nat)
    requires idx < |c.plan.nodes|
    ensures Advance(c, l, idx).l.store.Some? == l.store.Some?
  {
  }

  lemma {:induction false} CutStore(c: Context, l: Loop, idx: nat, k: nat)
    requires idx <= |c.plan.nodes|
    ensures Cut(c, l, idx, k).store.Some? == l.store.Some?
    decreases k
  {
    hide Advance;
    if k > 0 && idx < |c.plan.nodes| {
      AdvanceStore(c, l, idx);
      if Advance(c, l, idx).Continue? {
        CutStore(c, Advance(c, l, idx).l, idx + 1, k - 1);
      }
    }
  }

  /** One attempt: its own surroundings and decision, and how many nodes it gets through before it ends or dies. */
  datatype Try = Try(env: Env, decision: Option<Decision>, freshId: string, nodes: nat)

  function ContextOf(plan: Plan, t: Try): Context {
    Context(plan, t.env, t.decision, t.freshId)
  }

  /** The loop at the end of an attempt, if preflight lets it begin. */
  function LoopOf(plan: Plan, r: Record, t: Try): Option<Loop> {
    var p := Preflight(ContextOf(plan, t), r);
    if p.Err? || !t.env.clean then None else Some(Cut(ContextOf(plan, t), Start(Some(p.value)), 0, t.nodes))
  }

  /** What an attempt leaves in the store. A refused store is left as it was. */
  function StoreOf(plan: Plan, r: Record, t: Try): Record {
    var p, l := Preflight(ContextOf(plan, t), r), LoopOf(plan, r, t);
    if p.Err? then r
    else if l.Some? && l.value.store.Some? then l.value.store.value
    else p.value
  }

  /** The store after these attempts on a new one. */
  function StoreAfter(plan: Plan, tries: seq<Try>): Record {
    if tries == [] then EMPTY
    else StoreOf(plan, StoreAfter(plan, tries[..|tries| - 1]), tries[|tries| - 1])
  }

  // ---- which nodes are skipped ----------------------------------------------

  /** An agent is skipped exactly when its skip is on record, a node it reads from was skipped, or its
      condition came out false; joins never are. */
  lemma SkippedExactly(c: Context, l: Loop, idx: nat)
    requires WellFormed(c.plan.nodes) && idx < |c.plan.nodes| && Shape(c.plan.nodes, l.core, idx)
    ensures
      var n, next := c.plan.nodes[idx], Advance(c, l, idx);
      next.Continue? && n.name in next.l.core.skipped
      <==>
      n.AgentNode?
      && (SkipRecorded(l, idx) || Cascades(c.plan.nodes, l.core, idx) || WhenGate(l.core, n.when).NotTaken?)
  {
    var n := c.plan.nodes[idx];
    assert Admissible(c.plan.nodes[..idx], n);
    if n.AgentNode? {
      EnterGrows(c, l, idx, n);
    }
  }

  // ---- nothing missing ------------------------------------------------------

  lemma PayloadThere(c: Context, l: Loop, idx: nat)
    requires WellFormed(c.plan.nodes) && idx < |c.plan.nodes| && Shape(c.plan.nodes, l.core, idx)
    requires c.plan.nodes[idx].AgentNode? && !Cascades(c.plan.nodes, l.core, idx)
    ensures PayloadOf(c, l.core, idx, c.plan.nodes[idx]).Some?
  {
    var nodes, n := c.plan.nodes, c.plan.nodes[idx];
    ReachSourcesEarlier(nodes, idx);
    forall s | s in ReachSources(nodes, idx) ensures s in l.core.outputs {
      assert s in Names(nodes[..idx]);
      assert s !in ReachSources(nodes, idx) * l.core.skipped;
    }
    if n.inputs == map[] && idx > 0 {
      assert nodes[idx - 1].name in ReachSources(nodes, idx);
    }
    forall f | f in n.inputs ensures n.inputs[f].agent in l.core.outputs {
      assert n.inputs[f].agent in Bound(n.inputs);
    }
  }

  lemma WhenThere(nodes: seq<Node>, k: Core, idx: nat)
    requires WellFormed(nodes) && idx < |nodes| && Shape(nodes, k, idx) && nodes[idx].AgentNode?
    ensures !WhenGate(k, nodes[idx].when).Missing?
  {
    assert Admissible(nodes[..idx], nodes[idx]);
  }

  lemma ExecuteNeverEscapes(c: Context, l: Loop, idx: nat, n: Node)
    requires idx < |c.plan.nodes| && n == c.plan.nodes[idx] && n.AgentNode? && !Done(l, idx)
    requires PayloadOf(c, l.core, idx, n).Some?
    ensures Enter(c, l, idx, n).Stop? ==> !Enter(c, l, idx, n).outcome.Escaped?
  {
  }

  /** The condition reads an output that is there and trusted, and raises on it. */
  predicate RaisesOn(k: Core, when: Option<When>) {
    when.Some?
    && var w := when.value;
       && w.agent !in k.skipped && LabelOf(k.trust, w.agent).Trusted? && w.agent in k.outputs
       && w.holds(FieldOf(k.outputs[w.agent], w.field)).None?
  }

  /** There is no condition, or it reads an output that is there and trusted, and is true of it. */
  predicate Taken(k: Core, when: Option<When>) {
    when.Some? ==>
      var w := when.value;
      && w.agent !in k.skipped && LabelOf(k.trust, w.agent).Trusted? && w.agent in k.outputs
      && w.holds(FieldOf(k.outputs[w.agent], w.field)) == Some(true)
  }

  /** The store has the step, and reading it raises. */
  predicate Unreadable(c: Context, l: Loop, idx: nat) {
    Done(l, idx) && !c.env.readable(idx, l.store.value.outputs[idx])
  }

  /** An agent that is not skipped, and whose condition raises, or which is reached and cannot be restored. */
  predicate AgentRaises(c: Context, l: Loop, idx: nat)
    requires idx < |c.plan.nodes| && c.plan.nodes[idx].AgentNode?
  {
    var n := c.plan.nodes[idx];
    && !SkipRecorded(l, idx) && !Cascades(c.plan.nodes, l.core, idx)
    && (RaisesOn(l.core, n.when)
        || (Taken(l.core, n.when) && !c.env.blocked(n.name) && Unreadable(c, l, idx)))
  }

  /** An agent step escapes exactly when its condition raises, or reading its stored output does; it never fails for
      want of an upstream output. */
  lemma AgentEscapesExactly(c: Context, l: Loop, idx: nat)
    requires WellFormed(c.plan.nodes) && idx < |c.plan.nodes| && Shape(c.plan.nodes, l.core, idx)
    requires c.plan.nodes[idx].AgentNode?
    ensures Advance(c, l, idx).Stop? && Advance(c, l, idx).outcome.Escaped? <==> AgentRaises(c, l, idx)
  {
    WhenThere(c.plan.nodes, l.core, idx);
    if !Cascades(c.plan.nodes, l.core, idx) && !Done(l, idx) {
      PayloadThere(c, l, idx);
      ExecuteNeverEscapes(c, l, idx, c.plan.nodes[idx]);
    }
  }

  /** The first source that was not skipped. */
  predicate IsFirst(k: Core, sources: seq<string>, i: int) {
    0 <= i < |sources| && sources[i] !in k.skipped && forall m :: 0 <= m < i ==> sources[m] in k.skipped
  }

  /** The only one. */
  predicate IsOnly(k: Core, sources: seq<string>, i: int) {
    0 <= i < |sources| && sources[i] !in k.skipped && forall m :: 0 <= m < |sources| && m != i ==> sources[m] in k.skipped
  }

  /** Skipped sources are the ones that are not present. */
  predicate Settled(k: Core, sources: seq<string>) {
    forall s :: s in sources ==> (Present(k, s) <==> s !in k.skipped)
  }

  lemma {:induction false} FirstOf(k: Core, sources: seq<string>) returns (i: int)
    requires Settled(k, sources) && PresentOf(k, sources) != []
    ensures IsFirst(k, sources, i) && PresentOf(k, sources)[0] == sources[i]
    decreases |sources|
  {
    var last := |sources| - 1;
    if PresentOf(k, sources[..last]) != [] {
      i := FirstOf(k, sources[..last]);
    } else {
      i := last;
      forall m | 0 <= m < last ensures sources[m] in k.skipped {
        assert sources[m] in sources[..last] && sources[m] !in PresentOf(k, sources[..last]);
      }
    }
  }

  lemma {:induction false} OnlyIsPresent(k: Core, sources: seq<string>, i: int)
    requires Settled(k, sources) && IsOnly(k, sources, i)
    ensures PresentOf(k, sources) == [sources[i]]
    decreases |sources|
  {
    var last := |sources| - 1;
    if i < last {
      OnlyIsPresent(k, sources[..last], i);
    } else if PresentOf(k, sources[..last]) != [] {
      var m := FirstOf(k, sources[..last]);
      assert false;
    }
  }

  lemma {:induction false} OnlyOf(k: Core, sources: seq<string>) returns (i: int)
    requires Settled(k, sources) && |PresentOf(k, sources)| == 1
    ensures IsOnly(k, sources, i)
    decreases |sources|
  {
    var last := |sources| - 1;
    if Present(k, sources[last]) {
      i := last;
      forall m | 0 <= m < last ensures sources[m] in k.skipped {
        assert sources[m] in sources[..last] && sources[m] !in PresentOf(k, sources[..last]);
      }
    } else {
      i := OnlyOf(k, sources[..last]);
    }
  }

  /** The policy of the join is met, and what it selects or builds is missing or refused by its model. */
  ghost predicate Refuses(c: Context, k: Core, idx: nat)
    requires idx < |c.plan.nodes| && c.plan.nodes[idx].JoinNode?
  {
    var n := c.plan.nodes[idx];
    match n.policy
    case ExactlyOne =>
      exists i :: IsOnly(k, n.sources, i) && n.sources[i] in k.outputs && c.env.conform(idx, k.outputs[n.sources[i]]).None?
    case FirstByPriority =>
      exists i :: IsFirst(k, n.sources, i) && n.sources[i] in k.outputs && c.env.conform(idx, k.outputs[n.sources[i]]).None?
    case AllPresent =>
      && (forall s :: s in n.sources ==> s !in k.skipped)
      && (n.inputs == map[] || Bound(n.inputs) * k.skipped != {} || RefusesBuilt(c.env, k.outputs, idx, n.inputs))
  }

  ghost predicate RefusesBuilt(env: Env, outputs: Outputs, idx: nat, inputs: map<string, Binding>) {
    && (forall f :: f in inputs ==> inputs[f].agent in outputs)
    && env.conform(idx, Object(map f | f in inputs :: Pick(inputs[f], outputs))).None?
  }

  lemma SelectBreaksExactly(c: Context, k: Core, idx: nat)
    requires WellFormed(c.plan.nodes) && idx < |c.plan.nodes| && Shape(c.plan.nodes, k, idx)
    requires c.plan.nodes[idx].JoinNode?
    ensures Select(c.env, k, idx, c.plan.nodes[idx]).Broken? <==> Refuses(c, k, idx)
  {
    var n := c.plan.nodes[idx];
    SourcesPresent(c.plan.nodes, k, idx);
    var present := PresentOf(k, n.sources);
    assert present != [] ==> present[0] in present;
    match n.policy
    case AllPresent =>
      BoundThere(c.plan.nodes, k, idx);
    case FirstByPriority =>
      if present != [] { var i := FirstOf(k, n.sources); }
    case ExactlyOne =>
      if |present| == 1 { var i := OnlyOf(k, n.sources); }
      forall i | IsOnly(k, n.sources, i) ensures present == [n.sources[i]] { OnlyIsPresent(k, n.sources, i); }
  }

  ghost predicate JoinRaises(c: Context, l: Loop, idx: nat)
    requires idx < |c.plan.nodes| && c.plan.nodes[idx].JoinNode?
  {
    if Done(l, idx) then Unreadable(c, l, idx) else Refuses(c, l.core, idx)
  }

  /** A join escapes exactly when it is in the store and cannot be read, or when it is not in the store, its policy is met,
      and what it selects or builds is missing or does not conform to its output model. */
  lemma JoinEscapesExactly(c: Context, l: Loop, idx: nat)
    requires WellFormed(c.plan.nodes) && idx < |c.plan.nodes| && Shape(c.plan.nodes, l.core, idx)
    requires c.plan.nodes[idx].JoinNode?
    ensures
      var next := Advance(c, l, idx);
      next.Stop? && next.outcome.Escaped? <==> JoinRaises(c, l, idx)
  {
    hide Refuses;
    SelectBreaksExactly(c, l.core, idx);
  }

  lemma SourcesPresent(nodes: seq<Node>, k: Core, idx: nat)
    requires WellFormed(nodes) && idx < |nodes| && Shape(nodes, k, idx) && nodes[idx].JoinNode?
    ensures Settled(k, nodes[idx].sources)
  {
    assert Admissible(nodes[..idx], nodes[idx]);
    forall s | s in nodes[idx].sources ensures Present(k, s) <==> s !in k.skipped {
      assert s in Names(nodes[..idx]);
    }
  }

  lemma BoundThere(nodes: seq<Node>, k: Core, idx: nat)
    requires WellFormed(nodes) && idx < |nodes| && Shape(nodes, k, idx) && nodes[idx].JoinNode? && UsesInputs(nodes[idx])
    ensures (forall f :: f in nodes[idx].inputs ==> nodes[idx].inputs[f].agent in k.outputs)
      <==> Bound(nodes[idx].inputs) * k.skipped == {}
  {
    var n := nodes[idx];
    assert Admissible(nodes[..idx], n);
    forall f | f in n.inputs ensures n.inputs[f].agent in k.outputs <==> n.inputs[f].agent !in k.skipped {
      assert n.inputs[f].agent in Bound(n.inputs);
    }
    if Bound(n.inputs) * k.skipped == {} {
      forall f | f in n.inputs ensures n.inputs[f].agent !in k.skipped {
        assert n.inputs[f].agent !in Bound(n.inputs) * k.skipped;
      }
    } else {
      var s :| s in Bound(n.inputs) * k.skipped;
      var f :| f in n.inputs && n.inputs[f].agent == s;
    }
  }

  /** The loop as it gets to node `j`, if it does. */
  function LoopAt(c: Context, l: Loop, idx: nat, j: nat): Option<Loop>
    requires idx <= j <= |c.plan.nodes|
    decreases j - idx
  {
    if idx == j then Some(l)
    else
      match Advance(c, l, idx)
      case Continue(l') => LoopAt(c, l', idx + 1, j)
      case Stop(_, _) => None
  }

  /** The node raises. */
  ghost predicate Raises(c: Context, l: Loop, idx: nat)
    requires idx < |c.plan.nodes|
  {
    if c.plan.nodes[idx].AgentNode? then AgentRaises(c, l, idx) else JoinRaises(c, l, idx)
  }

  /** The loop gets to a node that raises. */
  ghost predicate EscapesAt(c: Context, l: Loop, idx: nat, j: int) {
    && idx <= j < |c.plan.nodes|
    && var at := LoopAt(c, l, idx, j);
       at.Some? && Raises(c, at.value, j)
  }

  lemma {:induction false} RunEscapesExactly(c: Context, l: Loop, idx: nat)
    requires WellFormed(c.plan.nodes) && idx <= |c.plan.nodes| && Shape(c.plan.nodes, l.core, idx)
    ensures RunFrom(c, l, idx).0.Escaped? <==> exists j :: EscapesAt(c, l, idx, j)
    decreases |c.plan.nodes| - idx
  {
    hide Advance, Raises, Shape;
    if idx < |c.plan.nodes| {
      EscapesHere(c, l, idx);
      AdvanceShape(c, l, idx);
      var next := Advance(c, l, idx);
      if next.Continue? {
        var later := idx + 1;
        RunEscapesExactly(c, next.l, later);
        forall j | EscapesAt(c, l, idx, j) ensures EscapesAt(c, next.l, later, j) {
        }
        forall j | EscapesAt(c, next.l, later, j) ensures EscapesAt(c, l, idx, j) {
        }
      } else {
        forall j | EscapesAt(c, l, idx, j) ensures j == idx {
        }
      }
    }
  }

  lemma EscapesHere(c: Context, l: Loop, idx: nat)
    requires WellFormed(c.plan.nodes) && idx < |c.plan.nodes| && Shape(c.plan.nodes, l.core, idx)
    ensures EscapesAt(c, l, idx, idx) <==> Advance(c, l, idx).Stop? && Advance(c, l, idx).outcome.Escaped?
  {
    hide Advance, AgentRaises, JoinRaises;
    if c.plan.nodes[idx].AgentNode? { AgentEscapesExactly(c, l, idx); } else { JoinEscapesExactly(c, l, idx); }
  }

  /** The loop begins: the store is this pipeline's, and the initial input is clean. */
  predicate Begins(c: Context, store: Option<Record>) {
    c.env.clean && (store.Some? ==> Preflight(c, store.value).Ok?)
  }

  function FirstLoop(c: Context, store: Option<Record>): Loop
    requires Begins(c, store)
  {
    Start(if store.None? then None else Some(Preflight(c, store.value).value))
  }

  /** An attempt escapes exactly when it begins and gets to a node that raises: an agent's condition, a stored output
      that cannot be read, or a join whose selection or construction fails. */
  lemma AttemptEscapesExactly(c: Context, store: Option<Record>)
    requires WellFormed(c.plan.nodes)
    ensures Attempt(c, store).0.Escaped? <==> Begins(c, store) && exists j :: EscapesAt(c, FirstLoop(c, store), 0, j)
  {
    hide RunFrom, Preflight;
    assert c.plan.nodes[..0] == [];
    if Begins(c, store) {
      RunEscapesExactly(c, FirstLoop(c, store), 0);
    }
  }

  // ---- when nothing escapes -------------------------------------------------

  /** A value that the output model of node `idx` lets through. */
  ghost predicate Modelled(env: Env, idx: nat, v: Value) {
    exists raw :: env.conform(idx, raw) == Some(v)
  }

  /** Outputs that the nodes before `idx` may have delivered. */
  ghost predicate Deliverable(nodes: seq<Node>, env: Env, outputs: Outputs, idx: nat)
    requires idx <= |nodes|
  {
    forall i :: 0 <= i < idx && nodes[i].name in outputs ==> Modelled(env, i, outputs[nodes[i].name])
  }

  /** The model of the join lets through each of its sources, or what it builds from them. */
  ghost predicate Welcomes(env: Env, outputs: Outputs, idx: nat, n: Node)
    requires n.JoinNode?
  {
    if n.policy.AllPresent? then !RefusesBuilt(env, outputs, idx, n.inputs)
    else forall s :: s in n.sources && s in outputs ==> env.conform(idx, outputs[s]).Some?
  }

  /** The output model of every join accepts whatever the models of the nodes before it let through. */
  ghost predicate JoinsAccept(nodes: seq<Node>, env: Env) {
    forall idx, outputs :: 0 <= idx < |nodes| && nodes[idx].JoinNode? && Deliverable(nodes, env, outputs, idx) ==>
      Welcomes(env, outputs, idx, nodes[idx])
  }

  ghost predicate JoinsSound(nodes: seq<Node>, env: Env) {
    JoinsHaveInputs(nodes) && JoinsBindSources(nodes) && JoinsAccept(nodes, env)
  }

  /** Every condition is defined on whatever the model of its source lets through. */
  ghost predicate ConditionsDefined(nodes: seq<Node>, env: Env) {
    forall i, j, v :: 0 <= i < j < |nodes| && Reads(nodes[j], nodes[i].name) && Modelled(env, i, v) ==>
      nodes[j].when.value.holds(FieldOf(v, nodes[j].when.value.field)).Some?
  }

  predicate Reads(n: Node, name: string) {
    Conditional(n) && n.when.value.agent == name
  }

  /** The store hands back whatever the models let through. */
  ghost predicate ReadsBack(env: Env) {
    forall i, v :: Modelled(env, i, v) ==> env.readable(i, v)
  }

  ghost predicate NothingRaises(nodes: seq<Node>, env: Env) {
    JoinsSound(nodes, env) && ConditionsDefined(nodes, env) && ReadsBack(env)
  }

  /** What is stored was validated, by these models. */
  ghost predicate StoredModelled(env: Env, store: Option<Record>) {
    store.Some? ==> forall i :: i in store.value.outputs ==> Modelled(env, i, store.value.outputs[i])
  }

  lemma AdvanceNeverEscapes(c: Context, l: Loop, idx: nat)
    requires WellFormed(c.plan.nodes) && NothingRaises(c.plan.nodes, c.env) && StoredModelled(c.env, l.store)
    requires idx < |c.plan.nodes| && Shape(c.plan.nodes, l.core, idx) && Deliverable(c.plan.nodes, c.env, l.core.outputs, idx)
    ensures Advance(c, l, idx).Stop? ==> !Advance(c, l, idx).outcome.Escaped?
  {
    hide Advance;
    if c.plan.nodes[idx].AgentNode? {
      AgentEscapesExactly(c, l, idx);
      ConditionDefined(c, l, idx);
    } else {
      JoinEscapesExactly(c, l, idx);
      NotRefused(c, l.core, idx);
    }
  }

  lemma ConditionDefined(c: Context, l: Loop, idx: nat)
    requires WellFormed(c.plan.nodes) && ConditionsDefined(c.plan.nodes, c.env)
    requires idx < |c.plan.nodes| && Shape(c.plan.nodes, l.core, idx) && Deliverable(c.plan.nodes, c.env, l.core.outputs, idx)
    requires c.plan.nodes[idx].AgentNode?
    ensures !RaisesOn(l.core, c.plan.nodes[idx].when)
  {
    var nodes, n := c.plan.nodes, c.plan.nodes[idx];
    if n.when.Some? && n.when.value.agent in l.core.outputs {
      assert n.when.value.agent in Names(nodes[..idx]);
      var i :| 0 <= i < idx && nodes[..idx][i].name == n.when.value.agent;
      assert Reads(n, nodes[i].name) && Modelled(c.env, i, l.core.outputs[nodes[i].name]);
    }
  }

  lemma NotRefused(c: Context, k: Core, idx: nat)
    requires JoinsSound(c.plan.nodes, c.env) && idx < |c.plan.nodes| && c.plan.nodes[idx].JoinNode?
    requires Deliverable(c.plan.nodes, c.env, k.outputs, idx)
    ensures !Refuses(c, k, idx)
  {
    var n := c.plan.nodes[idx];
    assert Welcomes(c.env, k.outputs, idx, n);
    if n.policy.AllPresent? && forall s :: s in n.sources ==> s !in k.skipped {
      forall s | s in Bound(n.inputs) ensures s !in k.skipped { assert s in n.sources; }
    }
  }

  lemma SelectModelled(env: Env, k: Core, idx: nat, n: Node)
    requires n.JoinNode?
    ensures Select(env, k, idx, n).Chosen? ==> Modelled(env, idx, Select(env, k, idx, n).value)
    ensures Select(env, k, idx, n).All? ==> Modelled(env, idx, Select(env, k, idx, n).value)
  {
    var present, selection := PresentOf(k, n.sources), Select(env, k, idx, n);
    if selection.Chosen? {
      assert present[0] in present;
      assert env.conform(idx, k.outputs[present[0]]) == Some(selection.value);
    }
  }

  /** What a node adds to the outputs and to the store has been validated. */
  lemma AdvanceModelled(c: Context, l: Loop, idx: nat)
    requires idx < |c.plan.nodes| && StoredModelled(c.env, l.store)
    ensures StoredModelled(c.env, Advance(c, l, idx).l.store)
    ensures
      var next, name := Advance(c, l, idx), c.plan.nodes[idx].name;
      next.Continue? && name !in l.core.outputs && name in next.l.core.outputs ==>
        Modelled(c.env, idx, next.l.core.outputs[name])
  {
    var n := c.plan.nodes[idx];
    if n.AgentNode? {
      EnterModelled(c, l, idx, n);
    } else {
      SelectModelled(c.env, l.core, idx, n);
    }
  }

  lemma EnterModelled(c: Context, l: Loop, idx: nat, n: Node)
    requires idx < |c.plan.nodes| && n == c.plan.nodes[idx] && n.AgentNode? && StoredModelled(c.env, l.store)
    ensures StoredModelled(c.env, Enter(c, l, idx, n).l.store)
    ensures
      var next := Enter(c, l, idx, n);
      next.Continue? && n.name in next.l.core.outputs ==> Modelled(c.env, idx, next.l.core.outputs[n.name])
  {
  }

  lemma AdvanceDelivers(c: Context, l: Loop, idx: nat)
    requires WellFormed(c.plan.nodes) && idx < |c.plan.nodes| && Shape(c.plan.nodes, l.core, idx)
    requires StoredModelled(c.env, l.store) && Deliverable(c.plan.nodes, c.env, l.core.outputs, idx)
    ensures
      var next := Advance(c, l, idx);
      next.Continue? ==>
        Shape(c.plan.nodes, next.l.core, idx + 1) && StoredModelled(c.env, next.l.store)
        && Deliverable(c.plan.nodes, c.env, next.l.core.outputs, idx + 1)
  {
    hide Advance;
    AdvanceModelled(c, l, idx);
    AdvanceShape(c, l, idx);
    AdvanceGrows(c, l, idx);
    var next := Advance(c, l, idx);
    if next.Continue? {
      assert Admissible(c.plan.nodes[..idx], c.plan.nodes[idx]);
      forall i | 0 <= i < idx + 1 && c.plan.nodes[i].name in next.l.core.outputs
        ensures Modelled(c.env, i, next.l.core.outputs[c.plan.nodes[i].name])
      {
        if i < idx { NamesDistinct(c.plan.nodes, i, idx); }
      }
    }
  }

  lemma {:induction false} RunFromNeverEscapes(c: Context, l: Loop, idx: nat)
    requires WellFormed(c.plan.nodes) && NothingRaises(c.plan.nodes, c.env) && StoredModelled(c.env, l.store)
    requires idx <= |c.plan.nodes| && Shape(c.plan.nodes, l.core, idx)
    requires Deliverable(c.plan.nodes, c.env, l.core.outputs, idx)
    ensures !RunFrom(c, l, idx).0.Escaped?
    decreases |c.plan.nodes| - idx
  {
    hide Advance, NothingRaises, Shape, Deliverable, StoredModelled;
    if idx < |c.plan.nodes| {
      AdvanceNeverEscapes(c, l, idx);
      AdvanceDelivers(c, l, idx);
      if Advance(c, l, idx).Continue? {
        RunFromNeverEscapes(c, Advance(c, l, idx).l, idx + 1);
      }
    }
  }

  /** Whatever the agents do, an attempt ends in a result, if every join binds what it waits for and nothing else,
      its model accepts what the models before it let through, every condition is defined on what it reads, and the
      store hands back what the models let through. */
  lemma AttemptNeverEscapes(c: Context, store: Option<Record>)
    requires WellFormed(c.plan.nodes) && NothingRaises(c.plan.nodes, c.env) && StoredModelled(c.env, store)
    ensures !Attempt(c, store).0.Escaped?
  {
    hide RunFrom;
    assert c.plan.nodes[..0] == [];
    if store.None? {
      RunFromNeverEscapes(c, Start(None), 0);
    } else if Preflight(c, store.value).Ok? {
      RunFromNeverEscapes(c, Start(Some(Preflight(c, store.value).value)), 0);
    }
  }

  lemma {:induction false} CutModelled(c: Context, l: Loop, idx: nat, k: nat)
    requires idx <= |c.plan.nodes| && StoredModelled(c.env, l.store)
    ensures StoredModelled(c.env, Cut(c, l, idx, k).store)
    decreases k
  {
    hide Advance;
    if k > 0 && idx < |c.plan.nodes| {
      AdvanceModelled(c, l, idx);
      if Advance(c, l, idx).Continue? {
        CutModelled(c, Advance(c, l, idx).l, idx + 1, k - 1);
      }
    }
  }

  /** Attempts under one set of models leave only what those models let through. */
  lemma {:induction false} StoreAfterModelled(plan: Plan, tries: seq<Try>, env: Env)
    requires forall i :: 0 <= i < |tries| ==> tries[i].env.conform == env.conform
    ensures StoredModelled(env, Some(StoreAfter(plan, tries)))
    decreases |tries|
  {
    if tries != [] {
      var n := |tries| - 1;
      StoreAfterModelled(plan, tries[..n], env);
      var r, c := StoreAfter(plan, tries[..n]), ContextOf(plan, tries[n]);
      assert StoredModelled(c.env, Some(r));
      if Preflight(c, r).Ok? {
        CutModelled(c, Start(Some(Preflight(c, r).value)), 0, tries[n].nodes);
      }
    }
  }

  /** So no attempt of a run escapes, however many there were before. */
  lemma RunNeverEscapes(plan: Plan, tries: seq<Try>, t: Try)
    requires WellFormed(plan.nodes) && NothingRaises(plan.nodes, t.env)
    requires forall i :: 0 <= i < |tries| ==> tries[i].env.conform == t.env.conform
    ensures !Attempt(ContextOf(plan, t), Some(StoreAfter(plan, tries))).0.Escaped?
  {
    StoreAfterModelled(plan, tries, t.env);
    AttemptNeverEscapes(ContextOf(plan, t), Some(StoreAfter(plan, tries)));
  }

  /** A loop cut after `k` nodes stands at the node after them, at the end, or where it stopped; at that node the
      earlier names are the outputs and the skipped, disjoint. */
  lemma {:induction false} CutShape(c: Context, l: Loop, idx: nat, k: nat) returns (at: nat)
    requires WellFormed(c.plan.nodes) && idx <= |c.plan.nodes| && Shape(c.plan.nodes, l.core, idx)
    ensures idx <= at <= |c.plan.nodes| && at <= idx + k
    ensures LoopAt(c, l, idx, at).Some? && LoopAt(c, l, idx, at).value.core == Cut(c, l, idx, k).core
    ensures at == idx + k || at == |c.plan.nodes| || Advance(c, LoopAt(c, l, idx, at).value, at).Stop?
    ensures Shape(c.plan.nodes, Cut(c, l, idx, k).core, at)
    decreases k
  {
    hide Advance;
    at := idx;
    if k > 0 && idx < |c.plan.nodes| {
      AdvanceShape(c, l, idx);
      if Advance(c, l, idx).Continue? {
        at := CutShape(c, Advance(c, l, idx).l, idx + 1, k - 1);
      } else {
        StopShape(c, l, idx);
      }
    }
  }

  lemma StopShape(c: Context, l: Loop, idx: nat)
    requires idx < |c.plan.nodes| && Advance(c, l, idx).Stop?
    ensures Advance(c, l, idx).l.core == l.core
  {
  }

  /** A join over one node that builds its output from another: when that other was skipped, the run escapes. */
  function Unlisted(): Context {
    var a := AgentNode("a", map[], None, false, "");
    var b := AgentNode("b", map["x" := From("a", None)], Some(When("a", "f", v => Some(false))), false, "");
    var j := JoinNode("j", ["a"], AllPresent, map["x" := From("b", None)]);
    Context(
      Plan("p", [a, b, j], ""),
      Env(Atom(0), Trusted, true, (i, v, t) => Produced(Atom(1), Trusted, false, Unmarked), s => false,
          (i, v) => Some(v), None, None, (i, v) => true),
      None, "")
  }

  function AfterA(): Loop {
    Loop(Core(map["a" := Atom(1)], map["a" := Trusted], {}, 1), None, [0], None)
  }

  function AfterB(): Loop {
    AfterA().(core := Skipped(AfterA().core, "b"))
  }

  lemma UnlistedA()
    ensures Advance(Unlisted(), Start(None), 0) == Continue(AfterA())
  {
  }

  lemma UnlistedB()
    ensures Advance(Unlisted(), AfterA(), 1) == Continue(AfterB())
  {
    assert ReachSources(Unlisted().plan.nodes, 1) == {"a"};
  }

  lemma UnlistedJ()
    ensures Advance(Unlisted(), AfterB(), 2) == Stop(Escaped, AfterB())
  {
    var j := Unlisted().plan.nodes[2];
    var k := AfterB().core;
    assert j.sources[..0] == [];
    assert j.inputs["x"].agent !in k.outputs;
  }

  lemma UnlistedBindingEscapes()
    ensures WellFormed(Unlisted().plan.nodes) && JoinsAccept(Unlisted().plan.nodes, Unlisted().env)
    ensures JoinsHaveInputs(Unlisted().plan.nodes)
    ensures Attempt(Unlisted(), None).0.Escaped?
  {
    var nodes := Unlisted().plan.nodes;
    assert WellFormed(nodes) by {
      assert nodes[..0] == [] && nodes[..1] == [nodes[0]] && nodes[..2] == [nodes[0], nodes[1]];
      NameAt([nodes[0]], 0);
      NameAt([nodes[0], nodes[1]], 0);
      NameAt([nodes[0], nodes[1]], 1);
    }
    assert nodes[2].inputs["x"] == From("b", None);
    UnlistedA();
    UnlistedB();
    UnlistedJ();
    assert RunFrom(Unlisted(), AfterA(), 1) == (Escaped, AfterB());
  }

  /** A join that selects its one source, and whose field has to be positive; annotations do not show that. */
  function Refusing(): Context {
    var a := AgentNode("a", map[], None, false, "");
    var j := JoinNode("j", ["a"], ExactlyOne, map[]);
    Context(
      Plan("p", [a, j], ""),
      Env(Atom(0), Trusted, true, (i, v, t) => Produced(Object(map["x" := Atom(-1)]), Trusted, false, Unmarked),
          s => false, (i, v) => if i == 0 || Positive(v) then Some(v) else None, None, None, (i, v) => true),
      None, "")
  }

  predicate Positive(v: Value) {
    v.Object? && "x" in v.fields && v.fields["x"].Atom? && v.fields["x"].n > 0
  }

  const NEGATIVE := Object(map["x" := Atom(-1)])

  function AfterAgent(): Loop {
    Loop(Core(map["a" := NEGATIVE], map["a" := Trusted], {}, 1), None, [0], None)
  }

  lemma RefusingAgent()
    ensures Advance(Refusing(), Start(None), 0) == Continue(AfterAgent())
  {
  }

  lemma NegativeRefused()
    ensures Refusing().env.conform(1, NEGATIVE).None?
  {
    assert NEGATIVE.fields["x"] == Atom(-1);
    assert !Positive(NEGATIVE);
  }

  lemma RefusingJoin()
    ensures Raises(Refusing(), AfterAgent(), 1)
  {
    NegativeRefused();
    var n, k := Refusing().plan.nodes[1], AfterAgent().core;
    assert IsOnly(k, n.sources, 0);
    assert k.outputs[n.sources[0]] == NEGATIVE;
  }

  /** The refusal of a join's own model is no halt: the exception leaves the run. */
  lemma RefusingJoinEscapes()
    ensures WellFormed(Refusing().plan.nodes)
    ensures JoinsHaveInputs(Refusing().plan.nodes) && JoinsBindSources(Refusing().plan.nodes)
    ensures Attempt(Refusing(), None).0.Escaped?
  {
    var nodes := Refusing().plan.nodes;
    assert WellFormed(nodes) by {
      assert nodes[..0] == [] && nodes[..1] == [nodes[0]];
      NameAt([nodes[0]], 0);
    }
    RefusingAgent();
    RefusingJoin();
    SecondNodeRaises(Refusing(), None, AfterAgent());
  }

  lemma SecondNodeRaises(c: Context, store: Option<Record>, l: Loop)
    requires WellFormed(c.plan.nodes) && |c.plan.nodes| >= 2 && Begins(c, store)
    requires Advance(c, FirstLoop(c, store), 0) == Continue(l) && Raises(c, l, 1)
    ensures Attempt(c, store).0.Escaped?
  {
    hide Advance, Raises, FirstLoop, Begins;
    AttemptEscapesExactly(c, store);
    assert LoopAt(c, l, 1, 1) == Some(l);
    assert LoopAt(c, FirstLoop(c, store), 0, 1) == Some(l);
    assert EscapesAt(c, FirstLoop(c, store), 0, 1);
  }

  /** A review that is taken when an amount is large, of a scorer whose amount may be missing. */
  function Comparing(): Context {
    var scorer := AgentNode("scorer", map[], None, false, "");
    var above := When("scorer", "amount", (v: Value) => if v.Atom? then Some(v.n > 10000) else None);
    var review := AgentNode("review", map["x" := From("scorer", None)], Some(above), false, "");
    Context(
      Plan("p", [scorer, review], ""),
      Env(Atom(0), Trusted, true, (i, v, t) => Produced(MISSING, Trusted, false, Unmarked),
          s => false, (i, v) => Some(v), None, None, (i, v) => true),
      None, "")
  }

  const MISSING := Object(map["amount" := Null])

  function AfterScorer(): Loop {
    Loop(Core(map["scorer" := MISSING], map["scorer" := Trusted], {}, 1), None, [0], None)
  }

  lemma ComparingScorer()
    ensures Advance(Comparing(), Start(None), 0) == Continue(AfterScorer())
  {
  }

  lemma ComparingReview()
    ensures Raises(Comparing(), AfterScorer(), 1)
  {
    assert MISSING.fields["amount"] == Null;
    assert ReachSources(Comparing().plan.nodes, 1) == {"scorer"};
    assert RaisesOn(AfterScorer().core, Comparing().plan.nodes[1].when);
  }

  /** Registration asks only that the field of a condition exists. A comparison with `None` raises, and leaves the run. */
  lemma ComparisonEscapes()
    ensures WellFormed(Comparing().plan.nodes)
    ensures JoinsSound(Comparing().plan.nodes, Comparing().env) && ReadsBack(Comparing().env)
    ensures Attempt(Comparing(), None).0.Escaped?
  {
    var nodes := Comparing().plan.nodes;
    assert WellFormed(nodes) by {
      assert nodes[..0] == [] && nodes[..1] == [nodes[0]];
      NameAt([nodes[0]], 0);
    }
    ComparingScorer();
    ComparingReview();
    SecondNodeRaises(Comparing(), None, AfterScorer());
  }

  /** Neither seal nor topology covers the model of a join: a step that is in the store under an older model of it may
      not be handed back, and preflight does not see that. */
  lemma UnreadableJoinEscapes(c: Context, r: Record)
    requires c.plan.nodes == Refusing().plan.nodes && c.env.clean && !c.env.blocked("a")
    requires Matches(r, c.plan.topology) && r.skipped == {}
    requires 0 in r.outputs && SealOf(r, 0) == Some("") && c.env.readable(0, r.outputs[0])
    requires 1 in r.outputs && !c.env.readable(1, r.outputs[1])
    ensures Preflight(c, r) == Ok(r) && Attempt(c, Some(r)).0.Escaped?
  {
    RefusingJoinEscapes();
    assert HasProgress(r, 2);
    assert forall i :: 0 <= i < 2 ==> !Drifted(c, r, i);
    var l := Restored(Start(Some(r)), 0, "a");
    assert Advance(c, Start(Some(r)), 0) == Continue(l);
    assert Raises(c, l, 1);
    SecondNodeRaises(c, Some(r), l);
  }
}
