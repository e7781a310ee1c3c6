/** What an attempt comes to, case by case, in terms of what the store, the plan and the surroundings hold:
    when a store is refused, when a step halts and with which code, and what a step that passes leaves behind. */
module Outcomes {

  import opened Wrappers
  import opened Taint
  import opened Graph
  import opened Checkpoints
  import opened Scheduler
  import opened SchedulerShape

  // ---- a store of another pipeline ------------------------------------------

  /** Some step of the plan is completed or skipped. */
  ghost predicate Progressed(nodes: seq<Node>, r: Record) {
    exists i :: 0 <= i < |nodes| && (i in r.outputs || i in r.skipped)
  }

  /** A completed agent step that was sealed under other semantics, or not at all. */
  ghost predicate Stale(nodes: seq<Node>, r: Record, i: int) {
    0 <= i < |nodes| && nodes[i].AgentNode? && i in r.outputs && !(i in r.seals && r.seals[i] == nodes[i].seal)
  }

  ghost predicate FirstStale(nodes: seq<Node>, r: Record, i: int) {
    Stale(nodes, r, i) && forall j :: 0 <= j < i ==> !Stale(nodes, r, j)
  }

  ghost predicate OtherTopology(c: Context, r: Record) {
    r.topology.Some? && r.topology.value != c.plan.topology
  }

  ghost predicate MustRefuse(c: Context, r: Record) {
    Progressed(c.plan.nodes, r) && (OtherTopology(c, r) || exists i :: Stale(c.plan.nodes, r, i))
  }

  predicate HaltsWith(o: Outcome, code: Code) {
    o.Halted? && o.code == code
  }

  lemma PreflightDecides(c: Context, r: Record)
    ensures Preflight(c, r).Err? <==> MustRefuse(c, r)
    ensures Preflight(c, r).Ok? ==>
      Preflight(c, r).value == if Progressed(c.plan.nodes, r) then r else r.(topology := Some(c.plan.topology))
  {
    var d := FirstDrift(c, r, 0);
    forall i | 0 <= i < |c.plan.nodes| ensures Drifted(c, r, i) <==> Stale(c.plan.nodes, r, i) {
    }
  }

  /** No node halts for drift. */
  lemma {:induction false} RunNeverDrifts(c: Context, l: Loop, idx: nat)
    requires idx <= |c.plan.nodes|
    ensures !HaltsWith(RunFrom(c, l, idx).0, ResumeDrift)
    decreases |c.plan.nodes| - idx
  {
    hide Advance;
    if idx < |c.plan.nodes| {
      AdvanceNeverDrifts(c, l, idx);
      if Advance(c, l, idx).Continue? { RunNeverDrifts(c, Advance(c, l, idx).l, idx + 1); }
    }
  }

  lemma AdvanceNeverDrifts(c: Context, l: Loop, idx: nat)
    requires idx < |c.plan.nodes|
    ensures Advance(c, l, idx).Stop? ==> !HaltsWith(Advance(c, l, idx).outcome, ResumeDrift)
  {
  }

  /** A store is refused exactly when it holds progress, and was written under another topology or holds an output
      under another seal. Then nothing runs, nothing is written, and the halt names the pipeline or the first such step. */
  lemma DriftExactly(c: Context, r: Record)
    ensures HaltsWith(Attempt(c, Some(r)).0, ResumeDrift) <==> MustRefuse(c, r)
    ensures MustRefuse(c, r) ==>
      var (o, l) := Attempt(c, Some(r));
      && l.executed == [] && l.store == Some(r) && l.core == Core(map[], map[], {}, 0)
      && (OtherTopology(c, r) ==> o == Halted(map[], 0, Some(c.plan.name), ResumeDrift, None))
      && (!OtherTopology(c, r) ==>
            exists i :: FirstStale(c.plan.nodes, r, i) && o == Halted(map[], 0, Some(c.plan.nodes[i].name), ResumeDrift, None))
  {
    PreflightDecides(c, r);
    if MustRefuse(c, r) {
      if !OtherTopology(c, r) {
        var d := FirstDrift(c, r, 0);
        assert FirstStale(c.plan.nodes, r, d.value) by {
          forall j | 0 <= j < d.value ensures !Stale(c.plan.nodes, r, j) { NotBefore(c, r, 0, j); }
        }
      }
    } else if c.env.clean {
      RunNeverDrifts(c, Start(Some(Preflight(c, r).value)), 0);
    }
  }

  lemma {:induction false} NotBefore(c: Context, r: Record, i: nat, j: nat)
    requires i <= j < |c.plan.nodes| && FirstDrift(c, r, i).Some? && j < FirstDrift(c, r, i).value
    ensures !Drifted(c, r, j)
    decreases |c.plan.nodes| - i
  {
    if i < j { NotBefore(c, r, i + 1, j); }
  }

  // ---- from node to node ----------------------------------------------------

  /** The attempt goes into its loop, on this store. */
  ghost predicate Opens(c: Context, store: Option<Record>, l: Loop) {
    && c.env.clean
    && match store {
         case None => l == Start(None)
         case Some(r) =>
           && !MustRefuse(c, r)
           && l == Start(Some(if Progressed(c.plan.nodes, r) then r else r.(topology := Some(c.plan.topology))))
       }
  }

  /** The attempt gets to node `idx` with this loop. */
  ghost predicate Arrives(c: Context, store: Option<Record>, idx: nat, l: Loop) {
    idx <= |c.plan.nodes| && exists first :: Opens(c, store, first) && LoopAt(c, first, 0, idx) == Some(l)
  }

  lemma {:induction false} LoopFollows(c: Context, first: Loop, from: nat, idx: nat, l: Loop)
    requires from <= idx <= |c.plan.nodes| && LoopAt(c, first, from, idx) == Some(l)
    ensures RunFrom(c, first, from) == RunFrom(c, l, idx)
    ensures idx < |c.plan.nodes| && Advance(c, l, idx).Continue? ==> LoopAt(c, first, from, idx + 1) == Some(Advance(c, l, idx).l)
    decreases idx - from
  {
    hide Advance;
    if from < idx {
      LoopFollows(c, Advance(c, first, from).l, from + 1, idx, l);
    } else if idx < |c.plan.nodes| && Advance(c, l, idx).Continue? {
      assert LoopAt(c, Advance(c, l, idx).l, idx + 1, idx + 1) == Some(Advance(c, l, idx).l);
    }
  }

  /** An attempt that opens gets to its first node, and on an unclean input it halts before anything runs. */
  lemma AttemptOpens(c: Context, store: Option<Record>)
    requires store.Some? ==> !MustRefuse(c, store.value)
    ensures c.env.clean ==> exists l :: Opens(c, store, l) && Arrives(c, store, 0, l)
    ensures !c.env.clean ==> Attempt(c, store).0 == Halted(map[], 0, None, SanitizationHalt, None) && Attempt(c, store).1.executed == []
  {
    if c.env.clean {
      var first := Start(if store.None? then None
                         else Some(if Progressed(c.plan.nodes, store.value) then store.value
                                   else store.value.(topology := Some(c.plan.topology))));
      assert Opens(c, store, first) && LoopAt(c, first, 0, 0) == Some(first);
    } else if store.Some? {
      PreflightDecides(c, store.value);
    }
  }

  /** An attempt goes through its nodes in order, ends where a node stops it, and after the last one is complete, unless
      a decision is left that no request asked for. */
  lemma AttemptFollows(c: Context, store: Option<Record>, idx: nat, l: Loop)
    requires Arrives(c, store, idx, l)
    ensures idx < |c.plan.nodes| ==>
      match Advance(c, l, idx)
      case Stop(o, l') => Attempt(c, store) == (o, l')
      case Continue(l') => Arrives(c, store, idx + 1, l')
    ensures idx == |c.plan.nodes| ==>
      Attempt(c, store) ==
        (if c.decision.Some? && l.consumed.None? then Halted(l.core.outputs, l.core.stepsRun, Some(""), ApprovalError, None)
         else Completed(l.core.outputs, l.core.stepsRun), l)
  {
    hide Advance, MustRefuse, Preflight;
    var first :| Opens(c, store, first) && LoopAt(c, first, 0, idx) == Some(l);
    if store.Some? { PreflightDecides(c, store.value); }
    LoopFollows(c, first, 0, idx, l);
  }

  // ---- what becomes of an agent step ----------------------------------------

  /** Node `idx` has its input from the node `s`. */
  ghost predicate FedBy(nodes: seq<Node>, idx: nat, s: string)
    requires idx < |nodes|
  {
    if nodes[idx].inputs != map[] then exists f :: f in nodes[idx].inputs && nodes[idx].inputs[f].agent == s
    else idx > 0 && s == nodes[idx - 1].name
  }

  predicate OnRecord(l: Loop, idx: nat) {
    l.store.Some? && idx in l.store.value.skipped
  }

  ghost predicate FedBySkipped(c: Context, l: Loop, idx: nat)
    requires idx < |c.plan.nodes|
  {
    exists s :: s in l.core.skipped && FedBy(c.plan.nodes, idx, s)
  }

  /** The condition reads an output that is there and trusted, and is false of it. */
  predicate ComesOutFalse(k: Core, when: Option<When>) {
    when.Some?
    && var w := when.value;
       && w.agent !in k.skipped && LabelOf(k.trust, w.agent).Trusted? && w.agent in k.outputs
       && w.holds(FieldOf(k.outputs[w.agent], w.field)) == Some(false)
  }

  /** Nothing skips the agent, and its condition, if it has one, is true. */
  ghost predicate ComesUp(c: Context, l: Loop, idx: nat)
    requires idx < |c.plan.nodes|
  {
    && c.plan.nodes[idx].AgentNode? && !OnRecord(l, idx) && !FedBySkipped(c, l, idx) && Taken(l.core, c.plan.nodes[idx].when)
  }

  /** It comes up, its identity is in order, and neither an output nor a request of it is in the store. */
  ghost predicate Executes(c: Context, l: Loop, idx: nat)
    requires idx < |c.plan.nodes|
  {
    && ComesUp(c, l, idx) && !c.env.blocked(c.plan.nodes[idx].name)
    && (l.store.Some? ==>
          idx !in l.store.value.outputs
          && !(l.store.value.request.Some? && l.store.value.request.value.step == c.plan.nodes[idx].name))
  }

  lemma CascadesWhenFed(c: Context, l: Loop, idx: nat)
    requires idx < |c.plan.nodes| && c.plan.nodes[idx].AgentNode?
    ensures Cascades(c.plan.nodes, l.core, idx) <==> FedBySkipped(c, l, idx)
  {
    var reach := ReachSources(c.plan.nodes, idx);
    forall s ensures s in reach <==> FedBy(c.plan.nodes, idx, s) {
    }
    if Cascades(c.plan.nodes, l.core, idx) {
      var s :| s in reach * l.core.skipped;
    }
    if FedBySkipped(c, l, idx) {
      var s :| s in l.core.skipped && FedBy(c.plan.nodes, idx, s);
      assert s in reach * l.core.skipped;
    }
  }

  /** An agent is skipped exactly when its skip is on record, it is fed by a skipped node, or its condition is false;
      only the second is put on record. */
  lemma SkipsExactly(c: Context, l: Loop, idx: nat)
    requires WellFormed(c.plan.nodes) && idx < |c.plan.nodes| && Shape(c.plan.nodes, l.core, idx)
    requires c.plan.nodes[idx].AgentNode?
    ensures
      var n, next := c.plan.nodes[idx], Advance(c, l, idx);
      var skips := OnRecord(l, idx) || FedBySkipped(c, l, idx) || ComesOutFalse(l.core, n.when);
      && (next.Continue? && n.name in next.l.core.skipped <==> skips)
      && (skips ==>
            next.l == l.(core := l.core.(skipped := l.core.skipped + {n.name}),
                         store := if l.store.Some? && !OnRecord(l, idx) && FedBySkipped(c, l, idx)
                                  then Some(l.store.value.(skipped := l.store.value.skipped + {idx})) else l.store))
  {
    CascadesWhenFed(c, l, idx);
    SkippedExactly(c, l, idx);
  }

  lemma EnterHalts(c: Context, l: Loop, idx: nat, n: Node)
    requires idx < |c.plan.nodes| && n == c.plan.nodes[idx] && n.AgentNode?
    ensures
      var next := Enter(c, l, idx, n);
      && (next.Stop? ==> !HaltsWith(next.outcome, ConditionUnevaluable) && !HaltsWith(next.outcome, ConditionTainted))
      && (next.Stop? && HaltsWith(next.outcome, IdentityBlocked) <==> c.env.blocked(n.name))
      && (c.env.blocked(n.name) ==> next == Stop(Halted(l.core.outputs, l.core.stepsRun, Some(n.name), IdentityBlocked, None), l))
  {
    hide SeedOf, PayloadOf, Cascades;
  }

  lemma AgentRuns(c: Context, l: Loop, idx: nat)
    requires idx < |c.plan.nodes| && c.plan.nodes[idx].AgentNode?
    requires !Cascades(c.plan.nodes, l.core, idx) ==> PayloadOf(c, l.core, idx, c.plan.nodes[idx]).Some?
    ensures
      var n := c.plan.nodes[idx];
      Advance(c, l, idx).l.executed ==
        if OnRecord(l, idx) || Cascades(c.plan.nodes, l.core, idx) || !Taken(l.core, n.when)
           || c.env.blocked(n.name) || Done(l, idx) || PendingAt(l, n)
        then l.executed else l.executed + [idx]
  {
    if !Cascades(c.plan.nodes, l.core, idx) { EnterRuns(c, l, idx, c.plan.nodes[idx]); }
    hide Enter, Cascades, PayloadOf;
  }

  lemma EnterRuns(c: Context, l: Loop, idx: nat, n: Node)
    requires idx < |c.plan.nodes| && n == c.plan.nodes[idx] && n.AgentNode? && PayloadOf(c, l.core, idx, n).Some?
    ensures
      Enter(c, l, idx, n).l.executed ==
        if c.env.blocked(n.name) || Done(l, idx) || PendingAt(l, n) then l.executed else l.executed + [idx]
  {
    hide SeedOf, PayloadOf;
  }

  /** Before an agent is executed it can halt for its condition or its identity. */
  lemma GatesHaltExactly(c: Context, l: Loop, idx: nat)
    requires idx < |c.plan.nodes| && c.plan.nodes[idx].AgentNode?
    ensures
      var n, next := c.plan.nodes[idx], Advance(c, l, idx);
      var gated := !OnRecord(l, idx) && !FedBySkipped(c, l, idx) && n.when.Some?;
      && (next.Stop? && HaltsWith(next.outcome, ConditionUnevaluable) <==> gated && n.when.value.agent in l.core.skipped)
      && (next.Stop? && HaltsWith(next.outcome, ConditionTainted) <==>
            gated && n.when.value.agent !in l.core.skipped
            && (n.when.value.agent in l.core.trust ==> l.core.trust[n.when.value.agent].Untrusted?))
      && (next.Stop? && HaltsWith(next.outcome, IdentityBlocked) <==> ComesUp(c, l, idx) && c.env.blocked(n.name))
      && (next.Stop? && next.outcome.Halted? && next.outcome.code in {ConditionUnevaluable, ConditionTainted, IdentityBlocked} ==>
            next == Stop(Halted(l.core.outputs, l.core.stepsRun, Some(n.name), next.outcome.code, None), l))
  {
    CascadesWhenFed(c, l, idx);
    EnterHalts(c, l, idx, c.plan.nodes[idx]);
    hide Enter, Cascades, FedBySkipped;
  }

  /** The agent runs exactly when nothing keeps it from it. */
  lemma ExecutesExactly(c: Context, l: Loop, idx: nat)
    requires WellFormed(c.plan.nodes) && idx < |c.plan.nodes| && Shape(c.plan.nodes, l.core, idx)
    ensures Advance(c, l, idx).l.executed == if Executes(c, l, idx) then l.executed + [idx] else l.executed
  {
    if c.plan.nodes[idx].AgentNode? {
      CascadesWhenFed(c, l, idx);
      if !Cascades(c.plan.nodes, l.core, idx) { PayloadThere(c, l, idx); }
      AgentRuns(c, l, idx);
      hide Advance, Cascades, FedBySkipped, WellFormed, Shape, PayloadOf;
    } else {
      hide WellFormed, Shape, Select, Labels, LabelOf;
    }
  }

  /** A completed step that comes up, and a completed join, is restored: its stored output, under its recorded label, or
      UNTRUSTED if none is recorded. */
  lemma RestoresExactly(c: Context, l: Loop, idx: nat)
    requires idx < |c.plan.nodes| && l.store.Some? && idx in l.store.value.outputs
    requires c.plan.nodes[idx].AgentNode? ==> ComesUp(c, l, idx) && !c.env.blocked(c.plan.nodes[idx].name)
    ensures
      var name, r, k := c.plan.nodes[idx].name, l.store.value, l.core;
      Advance(c, l, idx) ==
        if !c.env.readable(idx, r.outputs[idx]) then Stop(Escaped, l)
        else
          Continue(l.(core := Core(k.outputs[name := r.outputs[idx]],
                                   k.trust[name := if idx in r.trusts then r.trusts[idx] else Untrusted],
                                   k.skipped, k.stepsRun + 1)))
  {
    if c.plan.nodes[idx].AgentNode? { CascadesWhenFed(c, l, idx); }
  }

  // ---- what becomes of an execution -----------------------------------------

  /** What the execution of the agent at `idx` comes to. */
  function ExecutionAt(c: Context, l: Loop, idx: nat): Execution
    requires idx < |c.plan.nodes| && c.plan.nodes[idx].AgentNode? && PayloadOf(c, l.core, idx, c.plan.nodes[idx]).Some?
  {
    c.env.agent(idx, PayloadOf(c, l.core, idx, c.plan.nodes[idx]).value, SeedOf(c, l.core, idx))
  }

  lemma ExecutingEnters(c: Context, l: Loop, idx: nat)
    requires WellFormed(c.plan.nodes) && idx < |c.plan.nodes| && Shape(c.plan.nodes, l.core, idx) && Executes(c, l, idx)
    ensures PayloadOf(c, l.core, idx, c.plan.nodes[idx]).Some?
    ensures Advance(c, l, idx) == Execute(c, l, idx, c.plan.nodes[idx], SeedOf(c, l.core, idx))
  {
    CascadesWhenFed(c, l, idx);
    PayloadThere(c, l, idx);
    hide Execute, SeedOf, PayloadOf;
  }

  /** An execution that fails, delivers what the output model refuses, or leaves recorded effects unused halts the run,
      in this order of precedence, and nothing is stored. */
  lemma BadExecutionHalts(c: Context, l: Loop, idx: nat)
    requires WellFormed(c.plan.nodes) && idx < |c.plan.nodes| && Shape(c.plan.nodes, l.core, idx) && Executes(c, l, idx)
    ensures PayloadOf(c, l.core, idx, c.plan.nodes[idx]).Some?
    ensures
      var e, next := ExecutionAt(c, l, idx), Advance(c, l, idx);
      var refused := e.Produced? && c.env.conform(idx, e.output).None?;
      && (e.Failed? ==> next.Stop? && HaltsWith(next.outcome, StepFailed(e.code)))
      && (next.Stop? && HaltsWith(next.outcome, SchemaViolation) <==> refused)
      && (next.Stop? && HaltsWith(next.outcome, EffectDivergence) <==> e.Produced? && !refused && e.orphaned)
      && (e.Failed? || refused || e.orphaned ==>
            next.Stop? && next.outcome.Halted?
            && next == Stop(Halted(l.core.outputs, l.core.stepsRun, Some(c.plan.nodes[idx].name), next.outcome.code, None),
                            l.(executed := l.executed + [idx])))
  {
    ExecutingEnters(c, l, idx);
    hide Advance;
  }

  /** The execution has delivered an output that its model lets through, and has used all its recorded effects. */
  ghost predicate Delivers(c: Context, l: Loop, idx: nat, v: Value, confidence: Confidence) {
    && WellFormed(c.plan.nodes) && idx < |c.plan.nodes| && Shape(c.plan.nodes, l.core, idx) && Executes(c, l, idx)
    && PayloadOf(c, l.core, idx, c.plan.nodes[idx]).Some?
    && var e := ExecutionAt(c, l, idx);
       e.Produced? && !e.orphaned && e.confidence == confidence && c.env.conform(idx, e.output) == Some(v)
  }

  lemma DeliveredReviewed(c: Context, l: Loop, idx: nat, v: Value, confidence: Confidence)
    requires Delivers(c, l, idx, v, confidence)
    ensures
      Advance(c, l, idx) ==
        Review(c, l.(executed := l.executed + [idx]), idx, c.plan.nodes[idx], v,
               Join(SeedOf(c, l.core, idx), ExecutionAt(c, l, idx).observed), confidence)
  {
    ExecutingEnters(c, l, idx);
    hide Advance, SeedOf, PayloadOf, Executes, WellFormed, Shape, Review;
  }

  /** It is committed exactly when it needs no approval, and there is no threshold, or the output has no confidence to
      it, or one that reaches the threshold, or the policy on failure is to go on. */
  lemma CommitsExactly(c: Context, l: Loop, idx: nat, v: Value, confidence: Confidence)
    requires Delivers(c, l, idx, v, confidence)
    ensures
      var n, next, scope := c.plan.nodes[idx], Advance(c, l, idx), Join(SeedOf(c, l.core, idx), ExecutionAt(c, l, idx).observed);
      && (next.Continue? <==>
            !n.needsApproval
            && (c.env.threshold.None? || confidence.Unmarked?
                || (confidence.Level? && (confidence.value >= c.env.threshold.value || c.env.onFailure == Some(Async)))))
      && (next.Continue? ==>
            && next.l.core == Core(l.core.outputs[n.name := v], l.core.trust[n.name := scope], l.core.skipped, l.core.stepsRun + 1)
            && next.l.executed == l.executed + [idx] && next.l.consumed == l.consumed && next.l.store.Some? == l.store.Some?
            && (l.store.Some? ==>
                  next.l.store.value == l.store.value.(outputs := l.store.value.outputs[idx := v],
                                                      trusts := l.store.value.trusts[idx := scope],
                                                      seals := l.store.value.seals[idx := n.seal])))
  {
    DeliveredReviewed(c, l, idx, v, confidence);
    hide Advance, SeedOf, PayloadOf, Delivers, ExecutionAt;
  }

  /** The output has a confidence below the threshold, and the step neither waits for approval anyway nor goes on. */
  predicate FallsShort(c: Context, n: Node, confidence: Confidence)
    requires n.AgentNode?
  {
    && c.env.threshold.Some? && confidence.Level? && confidence.value < c.env.threshold.value
    && !n.needsApproval && (c.env.onFailure.None? || c.env.onFailure.value.Sync?)
  }

  lemma ReviewHalts(c: Context, l: Loop, idx: nat, n: Node, v: Value, scope: Trust, confidence: Confidence)
    requires n.AgentNode?
    ensures
      var next := Review(c, l, idx, n, v, scope, confidence);
      var unusable, short := c.env.threshold.Some? && confidence.Unusable?, FallsShort(c, n, confidence);
      && (next.Stop? ==> next.outcome.Halted?)
      && (next.Stop? && HaltsWith(next.outcome, ConfidenceMarkerWithoutValue) <==> unusable)
      && (next.Stop? && HaltsWith(next.outcome, ConfidenceApprovalPending) <==> short && l.store.Some?)
      && (next.Stop? && HaltsWith(next.outcome, ConfidenceBelowThreshold) <==> short && l.store.None?)
      && (next.Stop? && HaltsWith(next.outcome, RequiresHumanApproval) <==> n.needsApproval && !unusable)
  {
    hide Commit;
  }

  /** Every other case is a halt of its own. */
  lemma HaltsExactly(c: Context, l: Loop, idx: nat, v: Value, confidence: Confidence)
    requires Delivers(c, l, idx, v, confidence)
    ensures
      var n, next := c.plan.nodes[idx], Advance(c, l, idx);
      var unusable, short := c.env.threshold.Some? && confidence.Unusable?, FallsShort(c, n, confidence);
      && (next.Stop? ==> next.outcome.Halted?)
      && (next.Stop? && HaltsWith(next.outcome, ConfidenceMarkerWithoutValue) <==> unusable)
      && (next.Stop? && HaltsWith(next.outcome, ConfidenceApprovalPending) <==> short && l.store.Some?)
      && (next.Stop? && HaltsWith(next.outcome, ConfidenceBelowThreshold) <==> short && l.store.None?)
      && (next.Stop? && HaltsWith(next.outcome, RequiresHumanApproval) <==> n.needsApproval && !unusable)
  {
    DeliveredReviewed(c, l, idx, v, confidence);
    hide Advance, SeedOf, PayloadOf, Delivers, ExecutionAt, Review, Join, FallsShort;
    ReviewHalts(c, l.(executed := l.executed + [idx]), idx, c.plan.nodes[idx], v,
                Join(SeedOf(c, l.core, idx), ExecutionAt(c, l, idx).observed), confidence);
  }

  lemma ReviewProposes(c: Context, l: Loop, idx: nat, n: Node, v: Value, scope: Trust, confidence: Confidence)
    requires n.AgentNode? && Review(c, l, idx, n, v, scope, confidence).Stop?
    ensures
      var next := Review(c, l, idx, n, v, scope, confidence);
      var request := Request(c.freshId, n.name, if n.needsApproval then HumanApproval else LowConfidence, v, scope);
      var asks := (FallsShort(c, n, confidence) && l.store.Some?)
                  || (n.needsApproval && !(c.env.threshold.Some? && confidence.Unusable?));
      && next.outcome.Halted?
      && next.outcome == Halted(l.core.outputs[n.name := v], l.core.stepsRun + 1, Some(n.name), next.outcome.code,
                                if asks then Some(request) else None)
      && next.l == l.(store := if asks && l.store.Some? then Some(l.store.value.(request := Some(request))) else l.store)
  {
    hide Commit;
  }

  /** Such a halt shows the proposed output. A request is raised exactly for the two that wait for a decision, and stored
      if there is a store. */
  lemma HaltsProposing(c: Context, l: Loop, idx: nat, v: Value, confidence: Confidence)
    requires Delivers(c, l, idx, v, confidence) && Advance(c, l, idx).Stop?
    ensures
      var n, next, scope := c.plan.nodes[idx], Advance(c, l, idx), Join(SeedOf(c, l.core, idx), ExecutionAt(c, l, idx).observed);
      var request := Request(c.freshId, n.name, if n.needsApproval then HumanApproval else LowConfidence, v, scope);
      var asks := (FallsShort(c, n, confidence) && l.store.Some?)
                  || (n.needsApproval && !(c.env.threshold.Some? && confidence.Unusable?));
      && next.outcome.Halted?
      && next.outcome == Halted(l.core.outputs[n.name := v], l.core.stepsRun + 1, Some(n.name), next.outcome.code,
                                if asks then Some(request) else None)
      && next.l == l.(executed := l.executed + [idx],
                      store := if asks && l.store.Some? then Some(l.store.value.(request := Some(request))) else l.store)
  {
    DeliveredReviewed(c, l, idx, v, confidence);
    hide Advance, SeedOf, PayloadOf, Delivers, ExecutionAt, Review, Join, FallsShort;
    ReviewProposes(c, l.(executed := l.executed + [idx]), idx, c.plan.nodes[idx], v,
                   Join(SeedOf(c, l.core, idx), ExecutionAt(c, l, idx).observed), confidence);
  }

  // ---- what becomes of a pending request ------------------------------------

  /** It comes up, and an output of it waits in the store for a decision. */
  ghost predicate Awaits(c: Context, l: Loop, idx: nat, q: Request) {
    && idx < |c.plan.nodes| && ComesUp(c, l, idx) && !c.env.blocked(c.plan.nodes[idx].name)
    && l.store.Some? && idx !in l.store.value.outputs
    && l.store.value.request == Some(q) && q.step == c.plan.nodes[idx].name
  }

  /** The agent does not run. Without a decision the request is shown again, with the code of its reason; a decision for
      another request changes nothing; a rejection, or an output that the model refuses, uses the request up and halts;
      anything else commits the proposed or amended output, under a label that has the proposed one in it. */
  lemma AwaitedSettles(c: Context, l: Loop, idx: nat, q: Request)
    requires Awaits(c, l, idx, q)
    ensures
      var n, next, k, r := c.plan.nodes[idx], Advance(c, l, idx), l.core, l.store.value;
      var gone := l.(store := Some(r.(request := None)));
      if c.decision.None? then
        next == Stop(match q.reason
                     case HumanApproval => Halted(k.outputs, k.stepsRun, Some(n.name), RequiresHumanApproval, Some(q))
                     case LowConfidence => Halted(k.outputs, k.stepsRun, Some(n.name), ConfidenceApprovalPending, Some(q))
                     case OtherReason(_) => Halted(k.outputs, k.stepsRun, Some(n.name), ApprovalError, None),
                     l)
      else if c.decision.value.id != q.id then
        next == Stop(Halted(k.outputs, k.stepsRun, Some(n.name), ApprovalError, None), l)
      else
        var chosen := match c.decision.value.verdict case Amended(output) => output case _ => q.output;
        var out, trust := c.env.conform(idx, chosen), Join(q.trust, SeedOf(c, k, idx));
        if c.decision.value.verdict.Rejected? then
          next == Stop(Halted(k.outputs, k.stepsRun, Some(n.name), ApprovalRejected, None), gone)
        else if out.None? then
          next == Stop(Halted(k.outputs, k.stepsRun, Some(n.name), SchemaViolation, None), gone)
        else
          && next.Continue? && next.l.executed == l.executed && next.l.consumed == Some(q.id)
          && next.l.core == Core(k.outputs[n.name := out.value], k.trust[n.name := trust], k.skipped, k.stepsRun + 1)
          && next.l.store == Some(r.(outputs := r.outputs[idx := out.value], trusts := r.trusts[idx := trust],
                                     seals := r.seals[idx := n.seal], request := None))
  {
    CascadesWhenFed(c, l, idx);
  }

  // ---- what becomes of a join -----------------------------------------------

  /** The value a join hands to its model: the one source that ran, the first that ran, or what it builds, if every
      source ran. */
  ghost predicate Offers(c: Context, k: Core, idx: nat, s: Option<string>, raw: Value)
    requires idx < |c.plan.nodes| && c.plan.nodes[idx].JoinNode?
  {
    var n := c.plan.nodes[idx];
    match n.policy
    case ExactlyOne => exists i :: IsOnly(k, n.sources, i) && s == Some(n.sources[i]) && raw == OfferedBy(k, n.sources[i])
    case FirstByPriority => exists i :: IsFirst(k, n.sources, i) && s == Some(n.sources[i]) && raw == OfferedBy(k, n.sources[i])
    case AllPresent =>
      && s == None && (forall x :: x in n.sources ==> x !in k.skipped)
      && n.inputs != map[] && (forall f :: f in n.inputs ==> n.inputs[f].agent in k.outputs)
      && raw == Object(map f | f in n.inputs :: Pick(n.inputs[f], k.outputs))
  }

  function OfferedBy(k: Core, s: string): Value {
    if s in k.outputs then k.outputs[s] else Null
  }

  /** The label of what a join commits: that of the source it chose, or UNTRUSTED if any of its sources is. */
  function JoinedLabel(k: Core, n: Node, s: Option<string>): Trust
    requires n.JoinNode?
  {
    if s.Some? then LabelOf(k.trust, s.value)
    else if exists x :: x in n.sources && LabelOf(k.trust, x).Untrusted? then Untrusted else Trusted
  }

  /** The policy of the join is not met. */
  ghost predicate Unmet(k: Core, n: Node)
    requires n.JoinNode?
  {
    match n.policy
    case ExactlyOne => !exists i :: IsOnly(k, n.sources, i)
    case FirstByPriority => forall x :: x in n.sources ==> x in k.skipped
    case AllPresent => exists x :: x in n.sources && x in k.skipped
  }

  lemma SelectsExactly(c: Context, k: Core, idx: nat)
    requires WellFormed(c.plan.nodes) && idx < |c.plan.nodes| && Shape(c.plan.nodes, k, idx) && c.plan.nodes[idx].JoinNode?
    ensures Select(c.env, k, idx, c.plan.nodes[idx]).Violated? <==> Unmet(k, c.plan.nodes[idx])
  {
    var n := c.plan.nodes[idx];
    var present := PresentOf(k, n.sources);
    SourcesPresent(c.plan.nodes, k, idx);
    match n.policy
    case ExactlyOne =>
      if |present| == 1 { var i := OnlyOf(k, n.sources); }
      forall i | IsOnly(k, n.sources, i) ensures present == [n.sources[i]] { OnlyIsPresent(k, n.sources, i); }
    case FirstByPriority =>
      assert present != [] ==> present[0] in present;
      forall x | x in n.sources && x !in k.skipped ensures x in present {
      }
    case AllPresent =>
  }

  lemma BuiltSelects(c: Context, k: Core, idx: nat, raw: Value)
    requires idx < |c.plan.nodes| && c.plan.nodes[idx].JoinNode? && c.plan.nodes[idx].policy.AllPresent?
    requires Offers(c, k, idx, None, raw) && Settled(k, c.plan.nodes[idx].sources)
    ensures
      var out := c.env.conform(idx, raw);
      Select(c.env, k, idx, c.plan.nodes[idx]) == if out.None? then Broken else All(out.value)
  {
    hide PresentOf, Pick;
  }

  lemma OffersSelect(c: Context, k: Core, idx: nat, s: Option<string>, raw: Value)
    requires WellFormed(c.plan.nodes) && idx < |c.plan.nodes| && Shape(c.plan.nodes, k, idx) && c.plan.nodes[idx].JoinNode?
    requires Offers(c, k, idx, s, raw)
    ensures
      var out := c.env.conform(idx, raw);
      Select(c.env, k, idx, c.plan.nodes[idx]) ==
        if out.None? then Broken else if s.Some? then Chosen(s.value, out.value) else All(out.value)
  {
    var n := c.plan.nodes[idx];
    SourcesPresent(c.plan.nodes, k, idx);
    hide WellFormed, Shape;
    match n.policy
    case ExactlyOne =>
      var i :| IsOnly(k, n.sources, i) && s == Some(n.sources[i]) && raw == OfferedBy(k, n.sources[i]);
      OnlyIsPresent(k, n.sources, i);
      hide IsOnly, PresentOf, Settled;
    case FirstByPriority =>
      var i :| IsFirst(k, n.sources, i) && s == Some(n.sources[i]) && raw == OfferedBy(k, n.sources[i]);
      FirstIsPresent(k, n.sources, i);
      hide IsFirst, Settled;
    case AllPresent =>
      BuiltSelects(c, k, idx, raw);
      hide Select, Offers;
  }

  lemma FirstIsPresent(k: Core, sources: seq<string>, i: int)
    requires Settled(k, sources) && IsFirst(k, sources, i)
    ensures PresentOf(k, sources) != [] && PresentOf(k, sources)[0] == sources[i]
  {
    assert sources[i] in PresentOf(k, sources);
    var j := FirstOf(k, sources);
    assert i == j;
  }

  lemma SelectOffers(c: Context, k: Core, idx: nat) returns (s: Option<string>, raw: Value)
    requires WellFormed(c.plan.nodes) && idx < |c.plan.nodes| && Shape(c.plan.nodes, k, idx) && c.plan.nodes[idx].JoinNode?
    requires Select(c.env, k, idx, c.plan.nodes[idx]).Chosen? || Select(c.env, k, idx, c.plan.nodes[idx]).All?
    ensures Offers(c, k, idx, s, raw) && c.env.conform(idx, raw).Some?
  {
    var n := c.plan.nodes[idx];
    SourcesPresent(c.plan.nodes, k, idx);
    match n.policy
    case ExactlyOne =>
      var i := OnlyOf(k, n.sources);
      OnlyIsPresent(k, n.sources, i);
      s, raw := Some(n.sources[i]), OfferedBy(k, n.sources[i]);
    case FirstByPriority =>
      var i := FirstOf(k, n.sources);
      s, raw := Some(n.sources[i]), OfferedBy(k, n.sources[i]);
    case AllPresent =>
      s, raw := None, Object(map f | f in n.inputs :: Pick(n.inputs[f], k.outputs));
  }

  /** A join that is not restored halts exactly when its policy is not met. */
  lemma JoinHaltsExactly(c: Context, l: Loop, idx: nat)
    requires WellFormed(c.plan.nodes) && idx < |c.plan.nodes| && Shape(c.plan.nodes, l.core, idx) && c.plan.nodes[idx].JoinNode?
    requires l.store.Some? ==> idx !in l.store.value.outputs
    ensures
      var n, next := c.plan.nodes[idx], Advance(c, l, idx);
      && (next.Stop? && HaltsWith(next.outcome, JoinPolicyViolation) <==> Unmet(l.core, n))
      && (Unmet(l.core, n) ==>
            next == Stop(Halted(l.core.outputs, l.core.stepsRun, Some(n.name), JoinPolicyViolation, None), l))
  {
    SelectsExactly(c, l.core, idx);
    hide WellFormed, Shape, Unmet, Select;
  }

  lemma OfferCommits(c: Context, l: Loop, idx: nat, s: Option<string>, raw: Value)
    requires WellFormed(c.plan.nodes) && idx < |c.plan.nodes| && Shape(c.plan.nodes, l.core, idx) && c.plan.nodes[idx].JoinNode?
    requires l.store.Some? ==> idx !in l.store.value.outputs
    requires Offers(c, l.core, idx, s, raw) && c.env.conform(idx, raw).Some?
    ensures Advance(c, l, idx).Continue? && JoinCommits(c, l, idx, s, c.env.conform(idx, raw).value)
  {
    OffersSelect(c, l.core, idx, s, raw);
    hide Offers, WellFormed, Shape, Select;
    SelectedCommits(c, l, idx, s, c.env.conform(idx, raw).value);
  }

  lemma SelectedCommits(c: Context, l: Loop, idx: nat, s: Option<string>, v: Value)
    requires idx < |c.plan.nodes| && c.plan.nodes[idx].JoinNode? && !Done(l, idx)
    requires Select(c.env, l.core, idx, c.plan.nodes[idx]) == if s.Some? then Chosen(s.value, v) else All(v)
    ensures Advance(c, l, idx).Continue? && JoinCommits(c, l, idx, s, v)
  {
    hide Select;
  }

  /** It passes exactly when its model lets through what it offers: with that output, under the label of its choice or of
      all its sources, stored with both. */
  lemma JoinPassesExactly(c: Context, l: Loop, idx: nat)
    requires WellFormed(c.plan.nodes) && idx < |c.plan.nodes| && Shape(c.plan.nodes, l.core, idx) && c.plan.nodes[idx].JoinNode?
    requires l.store.Some? ==> idx !in l.store.value.outputs
    ensures
      Advance(c, l, idx).Continue? <==> exists s, raw :: Offers(c, l.core, idx, s, raw) && c.env.conform(idx, raw).Some?
    ensures
      forall s, raw :: Offers(c, l.core, idx, s, raw) && c.env.conform(idx, raw).Some? ==>
        JoinCommits(c, l, idx, s, c.env.conform(idx, raw).value)
  {
    forall s, raw | Offers(c, l.core, idx, s, raw) && c.env.conform(idx, raw).Some?
      ensures Advance(c, l, idx).Continue? && JoinCommits(c, l, idx, s, c.env.conform(idx, raw).value)
    {
      OfferCommits(c, l, idx, s, raw);
    }
    hide JoinCommits, WellFormed, Shape, Offers;
    if Advance(c, l, idx).Continue? {
      var s, raw := SelectOffers(c, l.core, idx);
    }
  }

  ghost predicate JoinCommits(c: Context, l: Loop, idx: nat, s: Option<string>, v: Value)
    requires idx < |c.plan.nodes| && c.plan.nodes[idx].JoinNode?
  {
    var n, k, next := c.plan.nodes[idx], l.core, Advance(c, l, idx);
    var trust := JoinedLabel(k, n, s);
    && next.Continue?
    && next.l == l.(core := Core(k.outputs[n.name := v], k.trust[n.name := trust], k.skipped, k.stepsRun + 1),
                    store := if l.store.None? then None
                             else Some(l.store.value.(outputs := l.store.value.outputs[idx := v],
                                                      trusts := l.store.value.trusts[idx := trust])))
  }

  // ---- payloads -------------------------------------------------------------

  /** An agent sees exactly the fields that are bound, each the upstream output it names or one field of it; without
      bindings it sees the output of the node before it, and the first node the initial input. */
  lemma PayloadIsBound(c: Context, k: Core, idx: nat)
    requires idx < |c.plan.nodes| && c.plan.nodes[idx].AgentNode? && PayloadOf(c, k, idx, c.plan.nodes[idx]).Some?
    ensures
      var inputs, payload := c.plan.nodes[idx].inputs, PayloadOf(c, k, idx, c.plan.nodes[idx]).value;
      if inputs != map[] then
        && payload.Object? && payload.fields.Keys == inputs.Keys
        && forall f :: f in inputs ==>
             && inputs[f].agent in k.outputs
             && var up := k.outputs[inputs[f].agent];
                match inputs[f].field
                case None => payload.fields[f] == up
                case Some(part) => up.Object? && part in up.fields ==> payload.fields[f] == up.fields[part]
      else if idx == 0 then payload == c.env.initial
      else c.plan.nodes[idx - 1].name in k.outputs && payload == k.outputs[c.plan.nodes[idx - 1].name]
  {
  }
}
