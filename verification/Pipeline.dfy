/** A pipeline: registration, and one attempt at a run as the loop that the source has. */
module Pipelines {

  import opened Wrappers
  import opened Taint
  import opened Graph
  import opened Registration
  import opened Checkpoints
  import opened Scheduler

  /** What the store holds of this run, if there is a store. */
  ghost function View(checkpoints: InMemoryCheckpointStore?, runId: string): Option<Record>
    reads checkpoints
  {
    if checkpoints == null then None else Some(checkpoints.RecordOf(runId))
  }

  /** The other runs in the store are as they were. */
  twostate predicate OthersKept(checkpoints: InMemoryCheckpointStore?, runId: string)
    reads checkpoints
  {
    checkpoints == null || checkpoints.OthersKept(runId)
  }

  /** The locals of the loop. */
  datatype Locals = Locals(core: Core, executed: seq<nat>, consumed: Option<string>)

  function LoopWith(v: Locals, store: Option<Record>): Loop {
    Loop(v.core, store, v.executed, v.consumed)
  }

  function NextWith(stop: Option<Outcome>, l: Loop): Next {
    if stop.Some? then Stop(stop.value, l) else Continue(l)
  }

  class Pipeline {
    const name: string
    const threshold: Option<real>
    const registry: Registry
    var steps: seq<Node>
    var byName: map<string, Node>
    var models: Models

    ghost predicate Valid()
      reads this
    {
      WellFormed(steps) && Indexed(steps, byName) && AllTyped(registry, steps, models)
    }

    constructor (name: string, threshold: Option<real>, registry: Registry)
      ensures Valid() && steps == [] && this.name == name && this.threshold == threshold && this.registry == registry
    {
      this.name, this.threshold, this.registry := name, threshold, registry;
      steps, byName, models := [], map[], map[];
    }

    /** Accepts a node with its models and tools, or refuses it and changes nothing. */
    method Add(n: Node, d: Declared) returns (ok: bool)
      requires Valid()
      modifies this
      ensures Valid()
      ensures ok <==> Admissible(old(steps), n) && Typed(registry, old(models), n, d)
      ensures steps == old(steps) + if ok then [n] else []
      ensures models == if ok then old(models)[n.name := d] else old(models)
    {
      ok := Checked(n);
      ok := ok && Typed(registry, models, n, d);
      if ok {
        Extended(steps, byName, n);
        TypedNext(registry, steps, models, n, d);
        steps := steps + [n];
        byName := byName[n.name := n];
        models := models[n.name := d];
      }
    }

    method Checked(n: Node) returns (ok: bool)
      requires Valid()
      ensures ok <==> Admissible(steps, n)
    {
      assert byName.Keys == Names(steps);
      if n.name in byName {
        return false;
      }
      if UsesInputs(n) {
        if !(forall f :: f in n.inputs ==> n.inputs[f].agent in byName) {
          return false;
        }
      }
      if n.JoinNode? {
        return n.sources != [] && forall s :: s in n.sources ==> s in byName;
      }
      if n.when.Some? {
        return n.when.value.agent in byName && !Conditional(byName[n.when.value.agent]);
      }
      return true;
    }

    // ---- running ------------------------------------------------------------

    /** What an attempt of this pipeline is run with. */
    function ContextFor(env: Env, topology: string, decision: Option<Decision>, freshId: string): Context
      reads this
    {
      Context(Plan(name, steps, topology), env, decision, freshId)
    }

    method Present(k: Core, sources: seq<string>) returns (present: seq<string>)
      ensures present == PresentOf(k, sources)
    {
      present := [];
      for i := 0 to |sources|
        invariant present == PresentOf(k, sources[..i])
      {
        assert sources[..i + 1][..i] == sources[..i];
        if sources[i] !in k.skipped && sources[i] in k.outputs {
          present := present + [sources[i]];
        }
      }
      assert sources[..|sources|] == sources;
    }

    method EvaluateJoin(env: Env, k: Core, idx: nat, n: Node) returns (selection: Selection)
      requires n.JoinNode?
      ensures selection == Select(env, k, idx, n)
    {
      var present := Present(k, n.sources);
      if n.policy.ExactlyOne? {
        if |present| != 1 {
          return Violated;
        }
        assert present[0] in present;
        return Forward(env, k, idx, present[0]);
      }
      if n.policy.FirstByPriority? {
        if present == [] {
          return Violated;
        }
        assert present[0] in present;
        return Forward(env, k, idx, present[0]);
      }
      for i := 0 to |n.sources|
        invariant forall m :: 0 <= m < i ==> Scheduler.Present(k, n.sources[m])
      {
        if n.sources[i] !in present {
          return Violated;
        }
      }
      assert forall s :: s in n.sources ==> Scheduler.Present(k, s);
      var payload := BuildInput(n.inputs, k.outputs, None, None);
      if payload.None? {
        return Broken;
      }
      var out := env.conform(idx, payload.value);
      return if out.Some? then All(out.value) else Broken;
    }

    method CommitStep(checkpoints: InMemoryCheckpointStore?, runId: string, idx: nat, n: Node, v: Locals, output: Value, trust: Trust)
      returns (v': Locals)
      modifies if checkpoints == null then {} else {checkpoints}
      ensures OthersKept(checkpoints, runId)
      ensures LoopWith(v', View(checkpoints, runId)) ==
              Commit(LoopWith(v, old(View(checkpoints, runId))), idx, n.name, output, trust,
                     if n.AgentNode? then Some(n.seal) else None)
    {
      v' := v.(core := Ran(v.core, n.name, output, trust));
      if checkpoints != null {
        checkpoints.CommitStep(runId, idx, output, trust, if n.AgentNode? then Some(n.seal) else None);
      }
    }

    /** The stored output, if the store hands it back. */
    method RestoreStep(env: Env, checkpoints: InMemoryCheckpointStore, runId: string, idx: nat, n: Node, v: Locals)
      returns (stop: Option<Outcome>, v': Locals)
      requires checkpoints.IsCompleted(runId, idx)
      ensures NextWith(stop, LoopWith(v', View(checkpoints, runId))) ==
              Restore(env, LoopWith(v, View(checkpoints, runId)), idx, n.name)
    {
      var output := checkpoints.OutputOf(runId, idx);
      if !env.readable(idx, output) {
        return Some(Escaped), v;
      }
      stop := None;
      v' := v.(core := Ran(v.core, n.name, output, checkpoints.TrustAt(runId, idx)));
    }

    method VisitJoin(c: Context, checkpoints: InMemoryCheckpointStore?, runId: string, idx: nat, n: Node, v: Locals)
      returns (stop: Option<Outcome>, v': Locals)
      requires n.JoinNode?
      modifies if checkpoints == null then {} else {checkpoints}
      ensures OthersKept(checkpoints, runId)
      ensures NextWith(stop, LoopWith(v', View(checkpoints, runId))) ==
              AdvanceJoin(c, LoopWith(v, old(View(checkpoints, runId))), idx, n)
    {
      stop, v' := None, v;
      if checkpoints != null && checkpoints.IsCompleted(runId, idx) {
        stop, v' := RestoreStep(c.env, checkpoints, runId, idx, n, v);
        return;
      }
      var selection := EvaluateJoin(c.env, v.core, idx, n);
      match selection
      case Violated =>
        stop := Some(Halted(v.core.outputs, v.core.stepsRun, Some(n.name), JoinPolicyViolation, None));
      case Broken =>
        stop := Some(Escaped);
      case Chosen(source, value) =>
        v' := CommitStep(checkpoints, runId, idx, n, v, value, LabelOf(v.core.trust, source));
      case All(value) =>
        v' := CommitStep(checkpoints, runId, idx, n, v, value, Labels(v.core.trust, set s | s in n.sources));
    }

    method HandlePendingApproval(c: Context, checkpoints: InMemoryCheckpointStore, runId: string, idx: nat, n: Node,
                                 pending: Request, seed: Trust, v: Locals)
      returns (stop: Option<Outcome>, v': Locals)
      requires n.AgentNode? && checkpoints.RecordOf(runId).request == Some(pending)
      modifies checkpoints
      ensures OthersKept(checkpoints, runId)
      ensures NextWith(stop, LoopWith(v', View(checkpoints, runId))) ==
              Decide(c, LoopWith(v, old(View(checkpoints, runId))), idx, n, pending, seed)
    {
      stop, v' := None, v;
      var outputs, stepsRun, at := v.core.outputs, v.core.stepsRun, Some(n.name);
      if c.decision.None? {
        var code := PollCode(pending.reason);
        if code.None? {
          return Some(Halted(outputs, stepsRun, at, ApprovalError, None)), v;
        }
        return Some(Halted(outputs, stepsRun, at, code.value, Some(pending))), v;
      }
      var d := c.decision.value;
      if d.id != pending.id {
        return Some(Halted(outputs, stepsRun, at, ApprovalError, None)), v;
      }
      if d.verdict.Rejected? {
        checkpoints.ClearApprovalRequest(runId);
        return Some(Halted(outputs, stepsRun, at, ApprovalRejected, None)), v;
      }
      var out := c.env.conform(idx, if d.verdict.Amended? then d.verdict.output else pending.output);
      checkpoints.ClearApprovalRequest(runId);
      if out.None? {
        return Some(Halted(outputs, stepsRun, at, SchemaViolation, None)), v;
      }
      v' := CommitStep(checkpoints, runId, idx, n, v, out.value, Join(pending.trust, seed));
      v' := v'.(consumed := Some(d.id));
    }

    method Raise(checkpoints: InMemoryCheckpointStore?, runId: string, request: Request)
      modifies if checkpoints == null then {} else {checkpoints}
      ensures OthersKept(checkpoints, runId)
      ensures View(checkpoints, runId) ==
              if checkpoints == null then None else Some(old(checkpoints.RecordOf(runId)).(request := Some(request)))
    {
      if checkpoints != null {
        checkpoints.RecordApprovalRequest(runId, request);
      }
    }

    method AfterExecution(c: Context, checkpoints: InMemoryCheckpointStore?, runId: string, idx: nat, n: Node,
                          output: Value, scope: Trust, confidence: Confidence, v: Locals)
      returns (stop: Option<Outcome>, v': Locals)
      requires n.AgentNode?
      modifies if checkpoints == null then {} else {checkpoints}
      ensures OthersKept(checkpoints, runId)
      ensures NextWith(stop, LoopWith(v', View(checkpoints, runId))) ==
              Review(c, LoopWith(v, old(View(checkpoints, runId))), idx, n, output, scope, confidence)
    {
      stop, v' := None, v;
      var proposed, stepsRun, at := v.core.outputs[n.name := output], v.core.stepsRun + 1, Some(n.name);
      if c.env.threshold.Some? {
        if confidence.Unusable? {
          return Some(Halted(proposed, stepsRun, at, ConfidenceMarkerWithoutValue, None)), v;
        }
        if confidence.Level? && confidence.value < c.env.threshold.value && !n.needsApproval && c.env.onFailure != Some(Async) {
          if checkpoints == null {
            return Some(Halted(proposed, stepsRun, at, ConfidenceBelowThreshold, None)), v;
          }
          var request := Request(c.freshId, n.name, LowConfidence, output, scope);
          Raise(checkpoints, runId, request);
          return Some(Halted(proposed, stepsRun, at, ConfidenceApprovalPending, Some(request))), v;
        }
      }
      if n.needsApproval {
        var request := Request(c.freshId, n.name, HumanApproval, output, scope);
        Raise(checkpoints, runId, request);
        return Some(Halted(proposed, stepsRun, at, RequiresHumanApproval, Some(request))), v;
      }
      v' := CommitStep(checkpoints, runId, idx, n, v, output, scope);
    }

    method ExecuteStep(c: Context, checkpoints: InMemoryCheckpointStore?, runId: string, idx: nat, n: Node, seed: Trust, v: Locals)
      returns (stop: Option<Outcome>, v': Locals)
      requires idx < |c.plan.nodes| && n.AgentNode?
      modifies if checkpoints == null then {} else {checkpoints}
      ensures OthersKept(checkpoints, runId)
      ensures NextWith(stop, LoopWith(v', View(checkpoints, runId))) ==
              Execute(c, LoopWith(v, old(View(checkpoints, runId))), idx, n, seed)
    {
      stop, v' := None, v;
      var payload := BuildInput(n.inputs, v.core.outputs, Some(c.env.initial), Predecessor(c.plan.nodes, idx));
      if payload.None? {
        return Some(Escaped), v;
      }
      v' := v.(executed := v.executed + [idx]);
      var execution := c.env.agent(idx, payload.value, seed);
      match execution
      case Failed(code) =>
        stop := Some(Halted(v.core.outputs, v.core.stepsRun, Some(n.name), StepFailed(code), None));
      case Produced(output, observed, orphaned, confidence) =>
        var validated := c.env.conform(idx, output);
        if validated.None? {
          stop := Some(Halted(v.core.outputs, v.core.stepsRun, Some(n.name), SchemaViolation, None));
        } else if orphaned {
          stop := Some(Halted(v.core.outputs, v.core.stepsRun, Some(n.name), EffectDivergence, None));
        } else {
          stop, v' := AfterExecution(c, checkpoints, runId, idx, n, validated.value, Join(seed, observed), confidence, v');
        }
    }

    method EnterStep(c: Context, checkpoints: InMemoryCheckpointStore?, runId: string, idx: nat, n: Node, v: Locals)
      returns (stop: Option<Outcome>, v': Locals)
      requires idx < |c.plan.nodes| && n == c.plan.nodes[idx] && n.AgentNode?
      modifies if checkpoints == null then {} else {checkpoints}
      ensures OthersKept(checkpoints, runId)
      ensures NextWith(stop, LoopWith(v', View(checkpoints, runId))) ==
              Enter(c, LoopWith(v, old(View(checkpoints, runId))), idx, n)
    {
      stop, v' := None, v;
      if c.env.blocked(n.name) {
        return Some(Halted(v.core.outputs, v.core.stepsRun, Some(n.name), IdentityBlocked, None)), v;
      }
      if checkpoints != null && checkpoints.IsCompleted(runId, idx) {
        stop, v' := RestoreStep(c.env, checkpoints, runId, idx, n, v);
        return;
      }
      var seed := SeedOf(c, v.core, idx);
      if checkpoints != null {
        var pending := checkpoints.ApprovalRequestOf(runId);
        if pending.Some? && pending.value.step == n.name {
          stop, v' := HandlePendingApproval(c, checkpoints, runId, idx, n, pending.value, seed, v);
          return;
        }
      }
      stop, v' := ExecuteStep(c, checkpoints, runId, idx, n, seed, v);
    }

    method VisitAgent(c: Context, checkpoints: InMemoryCheckpointStore?, runId: string, idx: nat, n: Node, v: Locals)
      returns (stop: Option<Outcome>, v': Locals)
      requires idx < |c.plan.nodes| && n == c.plan.nodes[idx] && n.AgentNode?
      modifies if checkpoints == null then {} else {checkpoints}
      ensures OthersKept(checkpoints, runId)
      ensures NextWith(stop, LoopWith(v', View(checkpoints, runId))) ==
              AdvanceAgent(c, LoopWith(v, old(View(checkpoints, runId))), idx, n)
    {
      stop := None;
      v' := v.(core := Skipped(v.core, n.name));
      if checkpoints != null && checkpoints.IsSkipped(runId, idx) {
        return;
      }
      if ReachSources(c.plan.nodes, idx) * v.core.skipped != {} {
        if checkpoints != null {
          checkpoints.StepSkipped(runId, idx);
        }
        return;
      }
      match WhenGate(v.core, n.when)
      case Shut(code) =>
        return Some(Halted(v.core.outputs, v.core.stepsRun, Some(n.name), code, None)), v;
      case Missing =>
        return Some(Escaped), v;
      case Raising =>
        return Some(Escaped), v;
      case NotTaken =>
        return;
      case Open =>
        stop, v' := EnterStep(c, checkpoints, runId, idx, n, v);
    }

    method Visit(c: Context, checkpoints: InMemoryCheckpointStore?, runId: string, idx: nat, v: Locals)
      returns (stop: Option<Outcome>, v': Locals)
      requires idx < |c.plan.nodes|
      modifies if checkpoints == null then {} else {checkpoints}
      ensures OthersKept(checkpoints, runId)
      ensures NextWith(stop, LoopWith(v', View(checkpoints, runId))) ==
              Advance(c, LoopWith(v, old(View(checkpoints, runId))), idx)
    {
      var n := c.plan.nodes[idx];
      if n.JoinNode? {
        stop, v' := VisitJoin(c, checkpoints, runId, idx, n, v);
      } else {
        stop, v' := VisitAgent(c, checkpoints, runId, idx, n, v);
      }
    }

    /** The loop over the nodes. */
    method RunNodes(c: Context, checkpoints: InMemoryCheckpointStore?, runId: string) returns (outcome: Outcome, v: Locals)
      modifies if checkpoints == null then {} else {checkpoints}
      ensures OthersKept(checkpoints, runId)
      ensures (outcome, LoopWith(v, View(checkpoints, runId))) == RunFrom(c, Start(old(View(checkpoints, runId))), 0)
    {
      v := Locals(Core(map[], map[], {}, 0), [], None);
      ghost var result := RunFrom(c, Start(View(checkpoints, runId)), 0);
      var idx := 0;
      while idx < |c.plan.nodes|
        invariant 0 <= idx <= |c.plan.nodes|
        invariant OthersKept(checkpoints, runId)
        invariant result == RunFrom(c, LoopWith(v, View(checkpoints, runId)), idx)
      {
        var stop;
        stop, v := Visit(c, checkpoints, runId, idx, v);
        if stop.Some? {
          return stop.value, v;
        }
        idx := idx + 1;
      }
      if c.decision.Some? && v.consumed.None? {
        outcome := Halted(v.core.outputs, v.core.stepsRun, Some(""), ApprovalError, None);
      } else {
        outcome := Completed(v.core.outputs, v.core.stepsRun);
      }
    }

    method Progress(checkpoints: InMemoryCheckpointStore, runId: string, n: nat) returns (progress: bool)
      ensures progress == HasProgress(checkpoints.RecordOf(runId), n)
    {
      for i := 0 to n
        invariant !HasProgress(checkpoints.RecordOf(runId), i)
      {
        if checkpoints.IsCompleted(runId, i) || checkpoints.IsSkipped(runId, i) {
          return true;
        }
      }
      return false;
    }

    /** The first completed step that was checkpointed under other semantics. */
    method VerifySeals(c: Context, checkpoints: InMemoryCheckpointStore, runId: string) returns (drift: Option<nat>)
      ensures drift == FirstDrift(c, checkpoints.RecordOf(runId), 0)
    {
      drift := None;
      for i := 0 to |c.plan.nodes|
        invariant drift.None? ==> FirstDrift(c, checkpoints.RecordOf(runId), 0) == FirstDrift(c, checkpoints.RecordOf(runId), i)
        invariant drift.Some? ==> drift == FirstDrift(c, checkpoints.RecordOf(runId), 0)
      {
        var n := c.plan.nodes[i];
        if n.JoinNode? || !checkpoints.IsCompleted(runId, i) {
          continue;
        }
        if checkpoints.SealAt(runId, i) != Some(n.seal) && drift.None? {
          drift := Some(i);
        }
      }
    }

    /** Nothing runs before the store is known to belong to this pipeline. */
    method CheckStore(c: Context, checkpoints: InMemoryCheckpointStore, runId: string) returns (refusedAt: Option<string>)
      modifies checkpoints
      ensures OthersKept(checkpoints, runId)
      ensures
        match Preflight(c, old(checkpoints.RecordOf(runId)))
        case Err(at) => refusedAt == Some(at) && checkpoints.RecordOf(runId) == old(checkpoints.RecordOf(runId))
        case Ok(r) => refusedAt == None && checkpoints.RecordOf(runId) == r
    {
      refusedAt := None;
      var progress := Progress(checkpoints, runId, |c.plan.nodes|);
      if !checkpoints.FingerprintMatches(runId, c.plan.topology) {
        if progress {
          return Some(c.plan.name);
        }
        checkpoints.RecordFingerprint(runId, c.plan.topology);
      } else if !progress {
        checkpoints.RecordFingerprint(runId, c.plan.topology);
      }
      if progress {
        var drift := VerifySeals(c, checkpoints, runId);
        if drift.Some? {
          return Some(c.plan.nodes[drift.value].name);
        }
      }
    }

    /** One attempt. It keeps to the value-level definition of an attempt, and so has everything proved about that. */
    method Run(env: Env, topology: string, checkpoints: InMemoryCheckpointStore?, runId: string,
               decision: Option<Decision>, freshId: string)
      returns (outcome: Outcome, v: Locals)
      modifies if checkpoints == null then {} else {checkpoints}
      ensures OthersKept(checkpoints, runId)
      ensures (outcome, LoopWith(v, View(checkpoints, runId))) ==
              Attempt(ContextFor(env, topology, decision, freshId), old(View(checkpoints, runId)))
    {
      var c := ContextFor(env, topology, decision, freshId);
      v := Locals(Core(map[], map[], {}, 0), [], None);
      if checkpoints != null {
        var refusedAt := CheckStore(c, checkpoints, runId);
        if refusedAt.Some? {
          return Halted(map[], 0, refusedAt, ResumeDrift, None), v;
        }
      }
      if !env.clean {
        return Halted(map[], 0, None, SanitizationHalt, None), v;
      }
      outcome, v := RunNodes(c, checkpoints, runId);
    }
  }
}
