/** Crashed attempts followed by one that runs to its end come to what one uninterrupted attempt comes to. */
module Resume {

  import opened Wrappers
  import opened Taint
  import opened Graph
  import opened Checkpoints
  import opened Scheduler
  import opened SchedulerShape

  // ---- the uninterrupted run, node by node ----------------------------------

  function Reference(plan: Plan, env: Env): Context {
    Context(plan, env, None, "")
  }

  /** The step that an attempt takes at a node when nothing of it is in the store. */
  function IdealStep(plan: Plan, env: Env, k: Core, idx: nat): Next
    requires idx < |plan.nodes|
  {
    Advance(Reference(plan, env), Loop(k, Some(EMPTY), [], None), idx)
  }

  /** What is established before node `idx`, if the run gets there. */
  function Ideal(plan: Plan, env: Env, idx: nat): Option<Core>
    requires idx <= |plan.nodes|
  {
    if idx == 0 then Some(Core(map[], map[], {}, 0)) else Onward(plan, env, Ideal(plan, env, idx - 1), idx - 1)
  }

  function Onward(plan: Plan, env: Env, before: Option<Core>, idx: nat): Option<Core>
    requires idx < |plan.nodes|
  {
    if before.None? then None
    else
      var next := IdealStep(plan, env, before.value, idx);
      if next.Continue? then Some(next.l.core) else None
  }

  /** The outcome of the run and what it has established, from a node on. */
  function IdealEnd(plan: Plan, env: Env, k: Core, idx: nat): (Outcome, Core)
    requires idx <= |plan.nodes|
    decreases |plan.nodes| - idx
  {
    if idx == |plan.nodes| then (Completed(k.outputs, k.stepsRun), k)
    else
      var next := IdealStep(plan, env, k, idx);
      if next.Continue? then IdealEnd(plan, env, next.l.core, idx + 1) else (next.outcome, k)
  }

  lemma {:induction false} IdealShape(plan: Plan, env: Env, idx: nat)
    requires WellFormed(plan.nodes) && idx <= |plan.nodes| && Ideal(plan, env, idx).Some?
    ensures Shape(plan.nodes, Ideal(plan, env, idx).value, idx)
    decreases idx
  {
    if idx > 0 {
      IdealShape(plan, env, idx - 1);
      AdvanceShape(Reference(plan, env), Loop(Ideal(plan, env, idx - 1).value, Some(EMPTY), [], None), idx - 1);
    } else {
      assert plan.nodes[..0] == [];
    }
  }

  lemma {:induction false} IdealReached(plan: Plan, env: Env, i: nat, j: nat)
    requires i <= j <= |plan.nodes| && Ideal(plan, env, j).Some?
    ensures Ideal(plan, env, i).Some?
    decreases j
  {
    hide IdealStep;
    if i < j {
      IdealReached(plan, env, i, j - 1);
    }
  }

  // ---- a store that tells the truth -----------------------------------------

  /** What the store says about node `i` is what the uninterrupted run does there. */
  ghost predicate Kept(plan: Plan, env: Env, r: Record, i: nat)
    requires i < |plan.nodes|
  {
    var n, after := plan.nodes[i], Ideal(plan, env, i + 1);
    && (i in r.outputs ==>
          after.Some? && n.name in after.value.outputs && n.name in after.value.trust
          && r.outputs[i] == after.value.outputs[n.name] && TrustOf(r, i) == after.value.trust[n.name]
          && env.readable(i, r.outputs[i])
          && (n.AgentNode? ==> SealOf(r, i) == Some(n.seal)))
    && (i in r.skipped ==> after.Some? && n.AgentNode? && n.name in after.value.skipped)
  }

  /** The request in the store is the one the uninterrupted run raises at node `j`. */
  ghost predicate Raised(plan: Plan, env: Env, q: Request, j: nat)
    requires j < |plan.nodes|
  {
    && plan.nodes[j].name == q.step && plan.nodes[j].AgentNode?
    && Ideal(plan, env, j).Some?
    && var next := IdealStep(plan, env, Ideal(plan, env, j).value, j);
       && next.Stop? && next.outcome.Halted? && next.outcome.request == Some(q.(id := ""))
       && PollCode(q.reason) == Some(next.outcome.code) && next.outcome.at == Some(q.step)
  }

  ghost predicate Consistent(plan: Plan, env: Env, r: Record) {
    && (forall i :: 0 <= i < |plan.nodes| ==> Kept(plan, env, r, i))
    && Matches(r, plan.topology)
    && (r.request.Some? ==> exists j :: 0 <= j < |plan.nodes| && Raised(plan, env, r.request.value, j))
  }

  // ---- outcomes -------------------------------------------------------------

  /** A request carries the identifier of the attempt that raised it. */
  function Identified(o: Outcome, id: string): Outcome {
    if o.Halted? && o.request.Some? then o.(request := Some(o.request.value.(id := id))) else o
  }

  /** A poll shows the pending request; its step counts as not yet run. */
  function Polled(k: Core, o: Outcome, pending: Request): Outcome {
    if o.Halted? && o.request.Some? then o.(outputs := k.outputs, stepsRun := k.stepsRun, request := Some(pending)) else o
  }

  function Resurfaced(k: Core, o: Outcome, id: string, pending: Option<Request>): Outcome {
    if pending.Some? then Polled(k, o, pending.value) else Identified(o, id)
  }

  /** One attempt does at a node what the uninterrupted run does there. */
  ghost predicate Agrees(c: Context, l: Loop, a: Next, b: Next) {
    && a.Continue? == b.Continue? && a.l.core == b.l.core
    && (b.Stop? ==> l.store.Some? && a.outcome == Resurfaced(l.core, b.outcome, c.freshId, l.store.value.request))
  }

  // ---- one node -------------------------------------------------------------

  ghost predicate Resumes(c: Context, l: Loop, idx: nat)
    requires idx <= |c.plan.nodes|
  {
    && WellFormed(c.plan.nodes) && c.decision.None? && ReadsBack(c.env)
    && l.store.Some? && Consistent(c.plan, c.env, l.store.value)
    && Ideal(c.plan, c.env, idx) == Some(l.core)
  }

  lemma JoinAgrees(c: Context, l: Loop, idx: nat)
    requires idx < |c.plan.nodes| && Resumes(c, l, idx) && c.plan.nodes[idx].JoinNode?
    ensures Agrees(c, l, Advance(c, l, idx), IdealStep(c.plan, c.env, l.core, idx))
  {
    assert Kept(c.plan, c.env, l.store.value, idx);
  }

  /** A request in the store waits at the one node where the uninterrupted run raises it. */
  lemma PendingHere(c: Context, l: Loop, idx: nat)
    requires idx < |c.plan.nodes| && Resumes(c, l, idx) && l.store.value.request.Some?
    ensures
      var q, n, b := l.store.value.request.value, c.plan.nodes[idx], IdealStep(c.plan, c.env, l.core, idx);
      && (PendingAt(l, n) ==> Raised(c.plan, c.env, q, idx))
      && (b.Stop? ==> PendingAt(l, n))
  {
    hide Advance, Kept;
    var q := l.store.value.request.value;
    var j :| 0 <= j < |c.plan.nodes| && Raised(c.plan, c.env, q, j);
    var n := c.plan.nodes[idx];
    if n.name == q.step {
      if idx < j { NamesDistinct(c.plan.nodes, idx, j); }
      if j < idx { NamesDistinct(c.plan.nodes, j, idx); }
    }
    if idx < j {
      IdealReached(c.plan, c.env, idx + 1, j);
    } else if j < idx {
      IdealReached(c.plan, c.env, j + 1, idx);
    }
  }

  lemma ExecuteAgrees(c: Context, l: Loop, idx: nat, n: Node, seed: Trust)
    requires idx < |c.plan.nodes| && n == c.plan.nodes[idx] && n.AgentNode?
    requires l.store.Some? && l.store.value.request.None?
    ensures
      Agrees(c, l, Execute(c, l, idx, n, seed),
             Execute(Reference(c.plan, c.env), Loop(l.core, Some(EMPTY), [], None), idx, n, seed))
  {
  }

  /** At the node that waits, the attempt polls, and the uninterrupted run raises the request. */
  lemma PollAgrees(c: Context, l: Loop, idx: nat, n: Node)
    requires idx < |c.plan.nodes| && n == c.plan.nodes[idx] && n.AgentNode? && c.decision.None?
    requires l.store.Some? && PendingAt(l, n) && Raised(c.plan, c.env, l.store.value.request.value, idx)
    requires Ideal(c.plan, c.env, idx) == Some(l.core)
    ensures
      Agrees(c, l, Decide(c, l, idx, n, l.store.value.request.value, SeedOf(c, l.core, idx)),
             IdealStep(c.plan, c.env, l.core, idx))
  {
    StopShape(Reference(c.plan, c.env), Loop(l.core, Some(EMPTY), [], None), idx);
  }

  lemma BlockedAgrees(c: Context, l: Loop, idx: nat, n: Node)
    requires idx < |c.plan.nodes| && n == c.plan.nodes[idx] && n.AgentNode? && Resumes(c, l, idx)
    requires IdealStep(c.plan, c.env, l.core, idx) == Enter(Reference(c.plan, c.env), Loop(l.core, Some(EMPTY), [], None), idx, n)
    requires c.env.blocked(n.name)
    ensures Agrees(c, l, Enter(c, l, idx, n), IdealStep(c.plan, c.env, l.core, idx))
  {
    if l.store.value.request.Some? {
      PendingHere(c, l, idx);
    }
  }

  lemma EnterAgrees(c: Context, l: Loop, idx: nat, n: Node)
    requires idx < |c.plan.nodes| && n == c.plan.nodes[idx] && n.AgentNode? && Resumes(c, l, idx)
    requires !Done(l, idx)
    requires IdealStep(c.plan, c.env, l.core, idx) == Enter(Reference(c.plan, c.env), Loop(l.core, Some(EMPTY), [], None), idx, n)
    ensures
      Agrees(c, l, Enter(c, l, idx, n), Enter(Reference(c.plan, c.env), Loop(l.core, Some(EMPTY), [], None), idx, n))
  {
    var seed := SeedOf(c, l.core, idx);
    if c.env.blocked(n.name) {
      BlockedAgrees(c, l, idx, n);
    } else if l.store.value.request.None? {
      ExecuteAgrees(c, l, idx, n, seed);
    } else {
      PendingHere(c, l, idx);
      if PendingAt(l, n) {
        PollAgrees(c, l, idx, n);
      } else {
        ExecuteContinues(c, l, idx, n, seed);
      }
    }
  }

  /** While another step waits for a decision, this one goes on as in the uninterrupted run. */
  lemma ExecuteContinues(c: Context, l: Loop, idx: nat, n: Node, seed: Trust)
    requires idx < |c.plan.nodes| && n == c.plan.nodes[idx] && n.AgentNode? && l.store.Some?
    requires Execute(Reference(c.plan, c.env), Loop(l.core, Some(EMPTY), [], None), idx, n, seed).Continue?
    ensures
      Agrees(c, l, Execute(c, l, idx, n, seed),
             Execute(Reference(c.plan, c.env), Loop(l.core, Some(EMPTY), [], None), idx, n, seed))
  {
  }

  /** An agent that got an output was entered. */
  lemma OutputWasEntered(c: Context, l: Loop, idx: nat)
    requires idx < |c.plan.nodes| && c.plan.nodes[idx].AgentNode? && WellFormed(c.plan.nodes)
    requires Shape(c.plan.nodes, l.core, idx) && Advance(c, l, idx).Continue?
    requires c.plan.nodes[idx].name in Advance(c, l, idx).l.core.outputs
    ensures Advance(c, l, idx) == Enter(c, l, idx, c.plan.nodes[idx])
    ensures
      var n, k := c.plan.nodes[idx], Advance(c, l, idx).l.core;
      n.name in k.trust && k == Ran(l.core, n.name, k.outputs[n.name], k.trust[n.name])
  {
    assert Admissible(c.plan.nodes[..idx], c.plan.nodes[idx]);
    AdvanceGrows(c, l, idx);
  }

  /** A step in the store is restored to what the uninterrupted run establishes. */
  lemma DoneAgrees(c: Context, l: Loop, idx: nat)
    requires idx < |c.plan.nodes| && Resumes(c, l, idx) && c.plan.nodes[idx].AgentNode? && Done(l, idx)
    ensures
      var n, b := c.plan.nodes[idx], IdealStep(c.plan, c.env, l.core, idx);
      && b == Enter(Reference(c.plan, c.env), Loop(l.core, Some(EMPTY), [], None), idx, n) && b.Continue?
      && !SkipRecorded(l, idx) && b.l.core == Restored(l, idx, n.name).core
      && c.env.readable(idx, l.store.value.outputs[idx])
  {
    assert Kept(c.plan, c.env, l.store.value, idx);
    IdealShape(c.plan, c.env, idx);
    IdealShape(c.plan, c.env, idx + 1);
    OutputWasEntered(Reference(c.plan, c.env), Loop(l.core, Some(EMPTY), [], None), idx);
  }

  /** A recorded skip is one that the uninterrupted run makes too. */
  lemma SkipAgrees(c: Context, l: Loop, idx: nat)
    requires idx < |c.plan.nodes| && Resumes(c, l, idx) && SkipRecorded(l, idx)
    ensures
      var n, b := c.plan.nodes[idx], IdealStep(c.plan, c.env, l.core, idx);
      n.AgentNode? && b.Continue? && b.l.core == Skipped(l.core, n.name)
  {
    assert Kept(c.plan, c.env, l.store.value, idx);
    IdealShape(c.plan, c.env, idx + 1);
    AdvanceGrows(Reference(c.plan, c.env), Loop(l.core, Some(EMPTY), [], None), idx);
  }

  lemma AgentAgrees(c: Context, l: Loop, idx: nat)
    requires idx < |c.plan.nodes| && Resumes(c, l, idx) && c.plan.nodes[idx].AgentNode?
    ensures Agrees(c, l, Advance(c, l, idx), IdealStep(c.plan, c.env, l.core, idx))
  {
    var n := c.plan.nodes[idx];
    if SkipRecorded(l, idx) {
      SkipAgrees(c, l, idx);
    } else if Done(l, idx) {
      DoneAgrees(c, l, idx);
    } else if !Cascades(c.plan.nodes, l.core, idx) && WhenGate(l.core, n.when).Open? {
      EnterAgrees(c, l, idx, n);
    } else {
      NoStopHere(c, l, idx);
    }
  }

  /** A node that raises no request can only stop where none is pending for it. */
  lemma NoStopHere(c: Context, l: Loop, idx: nat)
    requires idx < |c.plan.nodes| && Resumes(c, l, idx) && c.plan.nodes[idx].AgentNode?
    requires !Done(l, idx) && !SkipRecorded(l, idx)
    requires Cascades(c.plan.nodes, l.core, idx) || !WhenGate(l.core, c.plan.nodes[idx].when).Open?
    ensures Agrees(c, l, Advance(c, l, idx), IdealStep(c.plan, c.env, l.core, idx))
  {
    if l.store.value.request.Some? {
      PendingHere(c, l, idx);
    }
  }

  lemma StepAgrees(c: Context, l: Loop, idx: nat)
    requires idx < |c.plan.nodes| && Resumes(c, l, idx)
    ensures Agrees(c, l, Advance(c, l, idx), IdealStep(c.plan, c.env, l.core, idx))
  {
    if c.plan.nodes[idx].JoinNode? {
      JoinAgrees(c, l, idx);
    } else {
      AgentAgrees(c, l, idx);
    }
  }

  // ---- the store stays truthful ---------------------------------------------

  /** What a node may write: its own output, its own skip, or the request it raises. */
  ghost predicate Wrote(c: Context, l: Loop, next: Next, idx: nat)
    requires idx < |c.plan.nodes| && l.store.Some?
  {
    var n, r := c.plan.nodes[idx], l.store.value;
    && next.l.store.Some?
    && var r' := next.l.store.value;
       || r' == r
       || (next.Continue? && n.AgentNode? && n.name in next.l.core.skipped && r' == r.(skipped := r.skipped + {idx}))
       || (next.Continue? && n.name in next.l.core.outputs && n.name in next.l.core.trust
           && Modelled(c.env, idx, next.l.core.outputs[n.name])
           && r' == Checkpoints.Committed(r, idx, next.l.core.outputs[n.name], next.l.core.trust[n.name],
                                          if n.AgentNode? then Some(n.seal) else None))
       || (next.Stop? && next.outcome.Halted? && next.outcome.request.Some? && r' == r.(request := next.outcome.request))
  }

  lemma EnterWrites(c: Context, l: Loop, idx: nat, n: Node)
    requires idx < |c.plan.nodes| && n == c.plan.nodes[idx] && n.AgentNode? && c.decision.None? && l.store.Some?
    ensures Wrote(c, l, Enter(c, l, idx, n), idx)
  {
  }

  lemma AdvanceWrites(c: Context, l: Loop, idx: nat)
    requires idx < |c.plan.nodes| && c.decision.None? && l.store.Some?
    ensures Wrote(c, l, Advance(c, l, idx), idx)
  {
    var n := c.plan.nodes[idx];
    if n.AgentNode? {
      EnterWrites(c, l, idx, n);
    } else {
      SelectModelled(c.env, l.core, idx, n);
    }
  }

  /** A request raised by a node is for that node, under the fresh identifier, and polls will report its halt code. */
  ghost predicate RaisedBy(c: Context, n: Node, o: Outcome) {
    o.Halted? && o.request.Some? ==>
      n.AgentNode? && o.request.value.id == c.freshId && o.request.value.step == n.name && o.at == Some(n.name)
      && PollCode(o.request.value.reason) == Some(o.code)
  }

  lemma StopRaises(c: Context, l: Loop, idx: nat)
    requires idx < |c.plan.nodes| && l.store.Some? && l.store.value.request.None?
    ensures Advance(c, l, idx).Stop? ==> RaisedBy(c, c.plan.nodes[idx], Advance(c, l, idx).outcome)
  {
  }

  lemma RequestRaised(c: Context, l: Loop, idx: nat)
    requires idx < |c.plan.nodes| && Resumes(c, l, idx)
    requires Advance(c, l, idx).Stop? && Agrees(c, l, Advance(c, l, idx), IdealStep(c.plan, c.env, l.core, idx))
    requires Advance(c, l, idx).outcome.Halted? && Advance(c, l, idx).outcome.request.Some?
    requires l.store.value.request.None?
    ensures Raised(c.plan, c.env, Advance(c, l, idx).outcome.request.value, idx)
  {
    StopRaises(Reference(c.plan, c.env), Loop(l.core, Some(EMPTY), [], None), idx);
  }

  lemma ContinueKeeps(c: Context, l: Loop, next: Next, idx: nat)
    requires idx < |c.plan.nodes| && Resumes(c, l, idx) && next.Continue? && Wrote(c, l, next, idx)
    requires Ideal(c.plan, c.env, idx + 1) == Some(next.l.core)
    ensures Consistent(c.plan, c.env, next.l.store.value)
  {
    IdealShape(c.plan, c.env, idx + 1);
    forall i | 0 <= i < |c.plan.nodes| ensures Kept(c.plan, c.env, next.l.store.value, i) {
      assert Kept(c.plan, c.env, l.store.value, i);
    }
  }

  lemma StopKeeps(c: Context, l: Loop, next: Next, idx: nat)
    requires idx < |c.plan.nodes| && Resumes(c, l, idx) && next.Stop? && Wrote(c, l, next, idx)
    requires Agrees(c, l, next, IdealStep(c.plan, c.env, l.core, idx))
    requires next.outcome.Halted? && next.outcome.request.Some? && l.store.value.request.None? ==>
      Raised(c.plan, c.env, next.outcome.request.value, idx)
    ensures Consistent(c.plan, c.env, next.l.store.value)
  {
    forall i | 0 <= i < |c.plan.nodes| ensures Kept(c.plan, c.env, next.l.store.value, i) {
      assert Kept(c.plan, c.env, l.store.value, i);
    }
  }

  lemma StepKeeps(c: Context, l: Loop, idx: nat)
    requires idx < |c.plan.nodes| && Resumes(c, l, idx)
    ensures
      var next := Advance(c, l, idx);
      && next.l.store.Some? && Consistent(c.plan, c.env, next.l.store.value)
      && (next.Continue? ==> Resumes(c, next.l, idx + 1))
  {
    var next := Advance(c, l, idx);
    AdvanceWrites(c, l, idx);
    StepAgrees(c, l, idx);
    if next.Continue? {
      ContinueKeeps(c, l, next, idx);
    } else {
      if next.outcome.Halted? && next.outcome.request.Some? && l.store.value.request.None? {
        RequestRaised(c, l, idx);
      }
      StopKeeps(c, l, next, idx);
    }
  }

  // ---- a whole attempt ------------------------------------------------------

  lemma {:induction false} RunAgrees(c: Context, l: Loop, idx: nat)
    requires idx <= |c.plan.nodes| && Resumes(c, l, idx)
    ensures
      var (o, l') := RunFrom(c, l, idx);
      var (ideal, k) := IdealEnd(c.plan, c.env, l.core, idx);
      && l'.core == k
      && o == Resurfaced(k, ideal, c.freshId, l.store.value.request)
    decreases |c.plan.nodes| - idx
  {
    hide Advance;
    if idx < |c.plan.nodes| {
      StepAgrees(c, l, idx);
      StepKeeps(c, l, idx);
      var next := Advance(c, l, idx);
      if next.Continue? {
        RunAgrees(c, next.l, idx + 1);
        SameRequest(c, l, idx);
      } else {
        StopShape(c, l, idx);
      }
    }
  }

  /** Going on leaves the pending request alone. */
  lemma SameRequest(c: Context, l: Loop, idx: nat)
    requires idx < |c.plan.nodes| && c.decision.None? && l.store.Some?
    ensures
      var next := Advance(c, l, idx);
      next.Continue? ==> next.l.store.Some? && next.l.store.value.request == l.store.value.request
  {
    AdvanceWrites(c, l, idx);
  }

  lemma {:induction false} CutKeeps(c: Context, l: Loop, idx: nat, k: nat)
    requires idx <= |c.plan.nodes| && Resumes(c, l, idx)
    ensures Cut(c, l, idx, k).store.Some? && Consistent(c.plan, c.env, Cut(c, l, idx, k).store.value)
    decreases k
  {
    hide Advance;
    if k > 0 && idx < |c.plan.nodes| {
      var next := StepOn(c, l, idx, k);
      if next.Continue? {
        CutKeeps(c, next.l, idx + 1, k - 1);
      }
    }
  }

  lemma StepOn(c: Context, l: Loop, idx: nat, k: nat) returns (next: Next)
    requires k > 0 && idx < |c.plan.nodes| && Resumes(c, l, idx)
    ensures next.l.store.Some? && Consistent(c.plan, c.env, next.l.store.value)
    ensures next.Continue? ==> Resumes(c, next.l, idx + 1)
    ensures Cut(c, l, idx, k) == CutAfter(c, next, idx + 1, k - 1)
  {
    next := CutNext(c, l, idx, k);
    StepKeeps(c, l, idx);
  }

  lemma PreflightPasses(c: Context, r: Record)
    requires Consistent(c.plan, c.env, r)
    ensures
      var p := Preflight(c, r);
      p.Ok? && Consistent(c.plan, c.env, p.value) && p.value.request == r.request
  {
    forall i | 0 <= i < |c.plan.nodes| ensures !Drifted(c, r, i) && Kept(c.plan, c.env, r, i) {
      assert Kept(c.plan, c.env, r, i);
    }
    var r' := r.(topology := Some(c.plan.topology));
    forall i | 0 <= i < |c.plan.nodes| ensures Kept(c.plan, c.env, r', i) {
      assert Kept(c.plan, c.env, r, i);
    }
  }

  // ---- crashes --------------------------------------------------------------

  /** An attempt that dies: before it has written anything, or after some number of nodes.
      Every node makes at most one durable write, so these are all the stores a crash can leave. */
  datatype Crash = Crash(after: Option<nat>, freshId: string)

  function Left(plan: Plan, env: Env, r: Record, crash: Crash): Record {
    if crash.after.None? then r else StoreOf(plan, r, Try(env, None, crash.freshId, crash.after.value))
  }

  function LeftAfter(plan: Plan, env: Env, crashes: seq<Crash>): Record {
    if crashes == [] then EMPTY
    else Left(plan, env, LeftAfter(plan, env, crashes[..|crashes| - 1]), crashes[|crashes| - 1])
  }

  lemma LeftKeeps(plan: Plan, env: Env, r: Record, crash: Crash)
    requires WellFormed(plan.nodes) && ReadsBack(env) && Consistent(plan, env, r)
    ensures Consistent(plan, env, Left(plan, env, r, crash))
  {
    var c := Context(plan, env, None, crash.freshId);
    PreflightPasses(c, r);
    if crash.after.Some? {
      CutKeeps(c, Start(Some(Preflight(c, r).value)), 0, crash.after.value);
    }
  }

  lemma {:induction false} LeftAfterKeeps(plan: Plan, env: Env, crashes: seq<Crash>)
    requires WellFormed(plan.nodes) && ReadsBack(env)
    ensures Consistent(plan, env, LeftAfter(plan, env, crashes))
    decreases |crashes|
  {
    if crashes != [] {
      LeftAfterKeeps(plan, env, crashes[..|crashes| - 1]);
      LeftKeeps(plan, env, LeftAfter(plan, env, crashes[..|crashes| - 1]), crashes[|crashes| - 1]);
    }
  }

  lemma AttemptAgrees(c: Context, r: Record)
    requires WellFormed(c.plan.nodes) && ReadsBack(c.env) && c.decision.None? && Consistent(c.plan, c.env, r) && c.env.clean
    ensures
      var (o, l) := Attempt(c, Some(r));
      var (ideal, k) := IdealEnd(c.plan, c.env, Core(map[], map[], {}, 0), 0);
      l.core == k && o == Resurfaced(k, ideal, c.freshId, r.request)
  {
    PreflightPasses(c, r);
    RunAgrees(c, Start(Some(Preflight(c, r).value)), 0);
  }

  /** With a store that hands back what was validated: however many attempts crash, and wherever, the one that runs to its end establishes the same outputs, trust labels,
      skipped steps and count of steps as one uninterrupted attempt, and ends with the same outcome. Only when a crashed
      attempt had already recorded its approval request does the outcome show that request, as a poll does. */
  lemma {:induction false} ResumeRefinesOneRun(plan: Plan, env: Env, crashes: seq<Crash>, freshId: string)
    requires WellFormed(plan.nodes) && ReadsBack(env)
    ensures
      var c := Context(plan, env, None, freshId);
      var r := LeftAfter(plan, env, crashes);
      var (once, l1) := Attempt(c, Some(EMPTY));
      var (resumed, l2) := Attempt(c, Some(r));
      && l2.core == l1.core
      && resumed == if r.request.None? then once else Polled(l1.core, once, r.request.value)
  {
    var c := Context(plan, env, None, freshId);
    LeftAfterKeeps(plan, env, crashes);
    LeftAfterKeeps(plan, env, []);
    var r := LeftAfter(plan, env, crashes);
    if env.clean {
      AttemptAgrees(c, r);
      AttemptAgrees(c, EMPTY);
    } else {
      PreflightPasses(c, r);
      PreflightPasses(c, EMPTY);
    }
  }
}
