/** The approval protocol over any sequence of attempts on one store: a step that waits for a decision
    is not executed again, polls repeat the request, and a request is applied at most once. */
module Approvals {

  import opened Wrappers
  import opened Taint
  import opened Graph
  import opened Checkpoints
  import opened Scheduler
  import opened SchedulerShape

  // ---- what a store alone determines ----------------------------------------

  /** What going through node `i` establishes when the store already says what became of it. */
  function ReplayStep(plan: Plan, r: Record, k: Core, i: nat): Option<Core>
    requires i < |plan.nodes|
  {
    var n := plan.nodes[i];
    var restored := if i in r.outputs then Some(Ran(k, n.name, r.outputs[i], TrustOf(r, i))) else None;
    if n.JoinNode? then restored
    else if i in r.skipped then Some(Skipped(k, n.name))
    else if Cascades(plan.nodes, k, i) then None
    else
      match WhenGate(k, n.when)
      case NotTaken => Some(Skipped(k, n.name))
      case Open => restored
      case _ => None
  }

  function ReplayTo(plan: Plan, r: Record, idx: nat): Option<Core>
    requires idx <= |plan.nodes|
  {
    if idx == 0 then Some(Core(map[], map[], {}, 0))
    else
      var before := ReplayTo(plan, r, idx - 1);
      if before.None? then None else ReplayStep(plan, r, before.value, idx - 1)
  }

  ghost predicate SameBelow(r: Record, r': Record, idx: nat) {
    forall i :: 0 <= i < idx ==>
      (i in r.outputs <==> i in r'.outputs) && (i in r.outputs ==> r.outputs[i] == r'.outputs[i])
      && TrustOf(r, i) == TrustOf(r', i) && (i in r.skipped <==> i in r'.skipped)
  }

  lemma {:induction false} ReplaySame(plan: Plan, r: Record, r': Record, idx: nat)
    requires idx <= |plan.nodes| && SameBelow(r, r', idx)
    ensures ReplayTo(plan, r, idx) == ReplayTo(plan, r', idx)
    decreases idx
  {
    if idx > 0 {
      ReplaySame(plan, r, r', idx - 1);
    }
  }

  lemma {:induction false} ReplayReached(plan: Plan, r: Record, i: nat, j: nat)
    requires i <= j <= |plan.nodes| && ReplayTo(plan, r, j).Some?
    ensures ReplayTo(plan, r, i).Some?
    decreases j
  {
    if i < j {
      ReplayReached(plan, r, i, j - 1);
    }
  }

  /** Node `j` waits for a decision: the store leads up to it, and nothing has become of it yet. */
  ghost predicate WaitsAt(plan: Plan, r: Record, j: nat) {
    && j < |plan.nodes| && plan.nodes[j].AgentNode?
    && r.request.Some? && r.request.value.step == plan.nodes[j].name && PollCode(r.request.value.reason).Some?
    && j !in r.outputs && j !in r.skipped
    && ReplayTo(plan, r, j).Some?
    && var k := ReplayTo(plan, r, j).value;
       !Cascades(plan.nodes, k, j) && WhenGate(k, plan.nodes[j].when).Open?
  }

  ghost predicate Waiting(plan: Plan, r: Record, from: nat) {
    r.request.Some? ==> exists j: nat :: from <= j && WaitsAt(plan, r, j)
  }

  /** The loop stands where its store leads. */
  ghost predicate Backed(c: Context, l: Loop, idx: nat) {
    && idx <= |c.plan.nodes| && WellFormed(c.plan.nodes) && l.store.Some?
    && ReplayTo(c.plan, l.store.value, idx) == Some(l.core)
    && Waiting(c.plan, l.store.value, idx)
  }

  // ---- before the waiting node ----------------------------------------------

  /** Where the store says what became of a node, an attempt repeats it, or halts because the agent is blocked. */
  lemma Replays(c: Context, l: Loop, i: nat)
    requires i < |c.plan.nodes| && l.store.Some? && ReplayStep(c.plan, l.store.value, l.core, i).Some?
    ensures
      var n, k' := c.plan.nodes[i], ReplayStep(c.plan, l.store.value, l.core, i).value;
      || Advance(c, l, i) == Continue(l.(core := k'))
      || (Advance(c, l, i) == Stop(Escaped, l) && Unreadable(c, l, i))
      || (Advance(c, l, i) == Halt(l, Some(n.name), IdentityBlocked) && c.env.blocked(n.name))
  {
  }

  /** At the waiting node: the agent is blocked, or the request is put to the decision. */
  lemma AtWaiting(c: Context, l: Loop, j: nat)
    requires l.store.Some? && WaitsAt(c.plan, l.store.value, j) && ReplayTo(c.plan, l.store.value, j) == Some(l.core)
    ensures
      var n := c.plan.nodes[j];
      Advance(c, l, j) ==
        if c.env.blocked(n.name) then Halt(l, Some(n.name), IdentityBlocked)
        else Decide(c, l, j, n, l.store.value.request.value, SeedOf(c, l.core, j))
  {
  }

  // ---- one node -------------------------------------------------------------

  lemma EnterIsStored(c: Context, l: Loop, idx: nat, n: Node)
    requires idx < |c.plan.nodes| && n == c.plan.nodes[idx] && n.AgentNode?
    requires l.store.Some? && l.store.value.request.None? && Enter(c, l, idx, n).Continue?
    ensures
      var next := Enter(c, l, idx, n);
      && next.l.store.Some? && idx in next.l.store.value.outputs
      && next.l.core == Ran(l.core, n.name, next.l.store.value.outputs[idx], TrustOf(next.l.store.value, idx))
      && next.l.store.value.request.None? && next.l.store.value.skipped == l.store.value.skipped
      && SameBelow(l.store.value, next.l.store.value, idx)
  {
  }

  /** Without a request in the way, what a node comes to is in the store afterwards. */
  lemma PassIsStored(c: Context, l: Loop, idx: nat)
    requires idx < |c.plan.nodes| && l.store.Some? && l.store.value.request.None? && Advance(c, l, idx).Continue?
    ensures
      var next := Advance(c, l, idx);
      && next.l.store.Some? && next.l.store.value.request.None?
      && ReplayStep(c.plan, next.l.store.value, l.core, idx) == Some(next.l.core)
      && SameBelow(l.store.value, next.l.store.value, idx)
  {
    var n := c.plan.nodes[idx];
    if n.AgentNode? && Advance(c, l, idx) == Enter(c, l, idx, n) {
      EnterIsStored(c, l, idx, n);
    }
  }

  /** A request is raised by an agent that was entered, under the fresh identifier. */
  lemma StopWrites(c: Context, l: Loop, idx: nat)
    requires idx < |c.plan.nodes| && l.store.Some? && l.store.value.request.None? && Advance(c, l, idx).Stop?
    ensures
      var r, n, next := l.store.value, c.plan.nodes[idx], Advance(c, l, idx);
      && next.l.store.Some?
      && (next.l.store.value == r
          || (next.l.store.value.request.Some?
              && var q := next.l.store.value.request.value;
                 && next.l.store.value == r.(request := Some(q))
                 && q.id == c.freshId && q.step == n.name && PollCode(q.reason).Some?
                 && n.AgentNode? && !Done(l, idx) && !SkipRecorded(l, idx)
                 && !Cascades(c.plan.nodes, l.core, idx) && WhenGate(l.core, n.when).Open?))
  {
  }

  /** A request is raised at a node that then waits. */
  lemma StopIsStored(c: Context, l: Loop, idx: nat)
    requires idx < |c.plan.nodes| && l.store.Some? && l.store.value.request.None? && Advance(c, l, idx).Stop?
    requires ReplayTo(c.plan, l.store.value, idx) == Some(l.core)
    ensures
      var r, next := l.store.value, Advance(c, l, idx);
      next.l.store.Some? && (next.l.store.value == r || WaitsAt(c.plan, next.l.store.value, idx))
  {
    StopWrites(c, l, idx);
    ReplaySame(c.plan, l.store.value, Advance(c, l, idx).l.store.value, idx);
  }

  /** An applied decision is in the store, and the request is gone. */
  lemma DecideIsStored(c: Context, l: Loop, j: nat)
    requires l.store.Some? && WaitsAt(c.plan, l.store.value, j) && ReplayTo(c.plan, l.store.value, j) == Some(l.core)
    requires Advance(c, l, j).Continue?
    ensures
      var next := Advance(c, l, j);
      && next.l.store.Some? && next.l.store.value.request.None?
      && ReplayTo(c.plan, next.l.store.value, j + 1) == Some(next.l.core)
  {
    AtWaiting(c, l, j);
    ReplaySame(c.plan, l.store.value, Advance(c, l, j).l.store.value, j);
  }

  lemma DecideStops(c: Context, l: Loop, j: nat)
    requires l.store.Some? && WaitsAt(c.plan, l.store.value, j) && ReplayTo(c.plan, l.store.value, j) == Some(l.core)
    requires Advance(c, l, j).Stop?
    ensures
      var next := Advance(c, l, j);
      next.l.store == l.store || next.l.store == Some(l.store.value.(request := None))
  {
    AtWaiting(c, l, j);
  }

  lemma StepWaiting(c: Context, l: Loop, idx: nat)
    requires idx < |c.plan.nodes| && Backed(c, l, idx) && l.store.value.request.Some?
    ensures
      var next := Advance(c, l, idx);
      && (next.Continue? ==> Backed(c, next.l, idx + 1))
      && (next.Stop? ==> next.l.store.Some? && Waiting(c.plan, next.l.store.value, 0))
  {
    var r := l.store.value;
    var j: nat :| idx <= j && WaitsAt(c.plan, r, j);
    if idx < j {
      ReplayReached(c.plan, r, idx + 1, j);
      Replays(c, l, idx);
    } else if Advance(c, l, idx).Continue? {
      DecideIsStored(c, l, idx);
    } else {
      DecideStops(c, l, idx);
    }
  }

  lemma StepFree(c: Context, l: Loop, idx: nat)
    requires idx < |c.plan.nodes| && Backed(c, l, idx) && l.store.value.request.None?
    ensures
      var next := Advance(c, l, idx);
      && (next.Continue? ==> Backed(c, next.l, idx + 1))
      && (next.Stop? ==> next.l.store.Some? && Waiting(c.plan, next.l.store.value, 0))
  {
    if Advance(c, l, idx).Continue? {
      PassIsStored(c, l, idx);
      ReplaySame(c.plan, l.store.value, Advance(c, l, idx).l.store.value, idx);
    } else {
      StopIsStored(c, l, idx);
    }
  }

  lemma StepBacked(c: Context, l: Loop, idx: nat)
    requires idx < |c.plan.nodes| && Backed(c, l, idx)
    ensures
      var next := Advance(c, l, idx);
      && (next.Continue? ==> Backed(c, next.l, idx + 1))
      && (next.Stop? ==> next.l.store.Some? && Waiting(c.plan, next.l.store.value, 0))
  {
    if l.store.value.request.Some? {
      StepWaiting(c, l, idx);
    } else {
      StepFree(c, l, idx);
    }
  }

  // ---- attempts -------------------------------------------------------------

  lemma BackedWaits(c: Context, l: Loop, idx: nat)
    requires Backed(c, l, idx)
    ensures l.store.Some? && Waiting(c.plan, l.store.value, 0)
  {
  }

  lemma {:induction false} CutWaiting(c: Context, l: Loop, idx: nat, k: nat)
    requires idx <= |c.plan.nodes| && Backed(c, l, idx)
    ensures Cut(c, l, idx, k).store.Some? && Waiting(c.plan, Cut(c, l, idx, k).store.value, 0)
    decreases k
  {
    hide Advance;
    if k == 0 || idx == |c.plan.nodes| {
      BackedWaits(c, l, idx);
    } else {
      var next := Advance(c, l, idx);
      StepBacked(c, l, idx);
      if next.Continue? {
        CutWaiting(c, next.l, idx + 1, k - 1);
      }
    }
  }

  lemma PreflightWaiting(c: Context, r: Record)
    requires Waiting(c.plan, r, 0)
    ensures
      var p := Preflight(c, r);
      p.Ok? ==> p.value == r.(topology := p.value.topology) && Waiting(c.plan, p.value, 0)
  {
    var p := Preflight(c, r);
    if p.Ok? && r.request.Some? {
      var j: nat :| WaitsAt(c.plan, r, j);
      ReplaySame(c.plan, r, p.value, j);
      assert WaitsAt(c.plan, p.value, j);
    }
  }

  lemma TryWaiting(plan: Plan, r: Record, t: Try)
    requires WellFormed(plan.nodes) && Waiting(plan, r, 0)
    ensures Waiting(plan, StoreOf(plan, r, t), 0)
  {
    var c := ContextOf(plan, t);
    PreflightWaiting(c, r);
    if Preflight(c, r).Ok? && t.env.clean {
      CutWaiting(c, Start(Some(Preflight(c, r).value)), 0, t.nodes);
    }
  }

  /** In every store that attempts can leave, a request has its node, and everything before that node is settled. */
  lemma {:induction false} AlwaysWaiting(plan: Plan, tries: seq<Try>)
    requires WellFormed(plan.nodes)
    ensures Waiting(plan, StoreAfter(plan, tries), 0)
    decreases |tries|
  {
    if tries != [] {
      AlwaysWaiting(plan, tries[..|tries| - 1]);
      TryWaiting(plan, StoreAfter(plan, tries[..|tries| - 1]), tries[|tries| - 1]);
    }
  }

  // ---- who runs, and what is consumed ---------------------------------------

  lemma AdvanceExecutes(c: Context, l: Loop, idx: nat)
    requires idx < |c.plan.nodes|
    ensures Advance(c, l, idx).l.executed == l.executed || Advance(c, l, idx).l.executed == l.executed + [idx]
  {
  }

  lemma {:induction false} CutExecutes(c: Context, l: Loop, idx: nat, k: nat, low: nat)
    requires low <= idx <= |c.plan.nodes| && forall e :: e in l.executed ==> low <= e
    ensures forall e :: e in Cut(c, l, idx, k).executed ==> low <= e
    decreases k
  {
    hide Advance;
    if k > 0 && idx < |c.plan.nodes| {
      AdvanceExecutes(c, l, idx);
      if Advance(c, l, idx).Continue? {
        CutExecutes(c, Advance(c, l, idx).l, idx + 1, k - 1, low);
      }
    }
  }

  /** The loop that goes on to the end is the one that is not cut short. */
  lemma {:induction false} RunIsCut(c: Context, l: Loop, idx: nat, k: nat)
    requires idx <= |c.plan.nodes| && k >= |c.plan.nodes| - idx
    ensures RunFrom(c, l, idx).1 == Cut(c, l, idx, k)
    decreases |c.plan.nodes| - idx
  {
    hide Advance;
    if idx < |c.plan.nodes| && Advance(c, l, idx).Continue? {
      RunIsCut(c, Advance(c, l, idx).l, idx + 1, k - 1);
    }
  }

  lemma DecideExecutes(c: Context, l: Loop, j: nat)
    requires l.store.Some? && WaitsAt(c.plan, l.store.value, j) && ReplayTo(c.plan, l.store.value, j) == Some(l.core)
    ensures
      var next := Advance(c, l, j);
      && next.l.executed == l.executed
      && (next.l.consumed == l.consumed
          || (next.Continue? && next.l.consumed == Some(l.store.value.request.value.id)))
  {
    AtWaiting(c, l, j);
  }

  /** An attempt on its way to the node that waits: it has run nothing and written nothing. */
  ghost predicate Leads(c: Context, l: Loop, idx: nat, j: nat) {
    && idx <= j && l.store.Some? && WaitsAt(c.plan, l.store.value, j)
    && ReplayTo(c.plan, l.store.value, idx) == Some(l.core)
    && l.executed == [] && l.consumed.None?
  }

  lemma LeadsOn(c: Context, l: Loop, idx: nat, j: nat)
    requires Leads(c, l, idx, j) && idx < j
    ensures
      var next := Advance(c, l, idx);
      || (next.Continue? && next.l.store == l.store && Leads(c, next.l, idx + 1, j))
      || (next == Halt(l, Some(c.plan.nodes[idx].name), IdentityBlocked) && c.env.blocked(c.plan.nodes[idx].name))
      || (next == Stop(Escaped, l) && Unreadable(c, l, idx))
  {
    ReplayReached(c.plan, l.store.value, idx + 1, j);
    Replays(c, l, idx);
  }

  /** While node `j` waits for a decision, no agent up to and including it runs, whatever the attempt is run with. */
  lemma {:induction false} WaitingIsNotExecuted(c: Context, l: Loop, idx: nat, k: nat, j: nat)
    requires Leads(c, l, idx, j)
    ensures forall e :: e in Cut(c, l, idx, k).executed ==> e > j
    decreases k
  {
    hide Advance;
    if k > 0 {
      if idx < j {
        var next := Advance(c, l, idx);
        LeadsOn(c, l, idx, j);
        if next.Continue? {
          WaitingIsNotExecuted(c, next.l, idx + 1, k - 1, j);
        }
      } else {
        NotExecutedHere(c, l, k, j);
      }
    }
  }

  lemma NotExecutedOn(c: Context, next: Next, j: nat, k: nat)
    requires j < |c.plan.nodes| && next.l.executed == []
    ensures
      var l' := CutAfter(c, next, j + 1, k);
      forall e :: e in l'.executed ==> e > j
  {
    if next.Continue? {
      CutExecutes(c, next.l, j + 1, k, j + 1);
    }
  }

  lemma NotExecutedHere(c: Context, l: Loop, k: nat, j: nat)
    requires Leads(c, l, j, j) && k > 0
    ensures forall e :: e in Cut(c, l, j, k).executed ==> e > j
  {
    hide Advance;
    var next := CutNext(c, l, j, k);
    DecideExecutes(c, l, j);
    NotExecutedOn(c, next, j, k - 1);
  }

  /** Over any history: a step with a pending request is not executed by any further attempt, nor is any step before it. */
  lemma {:induction false} PendingStepNotExecuted(plan: Plan, tries: seq<Try>, t: Try, j: nat)
    requires WellFormed(plan.nodes) && j < |plan.nodes|
    requires
      var r := StoreAfter(plan, tries);
      r.request.Some? && r.request.value.step == plan.nodes[j].name
    ensures
      var l := LoopOf(plan, StoreAfter(plan, tries), t);
      l.Some? ==> forall e :: e in l.value.executed ==> e > j
  {
    var r, c := StoreAfter(plan, tries), ContextOf(plan, t);
    AlwaysWaiting(plan, tries);
    PreflightWaiting(c, r);
    if Preflight(c, r).Ok? {
      var p := Preflight(c, r).value;
      var m: nat :| WaitsAt(plan, p, m);
      if m < j { NamesDistinct(plan.nodes, m, j); }
      if j < m { NamesDistinct(plan.nodes, j, m); }
      WaitingIsNotExecuted(c, Start(Some(p)), 0, t.nodes, j);
    }
  }

  // ---- what an attempt comes to while a request is pending -------------------

  lemma {:induction false} RunReaches(c: Context, l: Loop, idx: nat, j: nat)
    requires Leads(c, l, idx, j)
    ensures
      var (o, l') := RunFrom(c, l, idx);
      var at := l.(core := ReplayTo(c.plan, l.store.value, j).value);
      || (((o.Halted? && o.code == IdentityBlocked) || (o.Escaped? && SomeUnreadable(c, l.store.value)))
          && l'.store == l.store && l'.executed == [] && l'.consumed.None?)
      || ((o, l') == RunFrom(c, at, j) && !c.env.blocked(c.plan.nodes[j].name))
    decreases j - idx
  {
    hide Advance;
    if idx < j {
      var next := Advance(c, l, idx);
      LeadsOn(c, l, idx, j);
      if next.Continue? {
        RunReaches(c, next.l, idx + 1, j);
      }
    } else {
      AtWaiting(c, l, j);
    }
  }

  lemma AdvanceFree(c: Context, l: Loop, idx: nat)
    requires idx < |c.plan.nodes| && l.store.Some? && l.store.value.request.None?
    ensures Advance(c, l, idx).l.consumed == l.consumed
  {
  }

  ghost predicate NewOrNone(c: Context, r: Record) {
    r.request.Some? ==> r.request.value.id == c.freshId
  }

  /** With no request pending, later nodes change nothing below them, consume nothing, and raise requests of their own only. */
  lemma {:induction false} CutFree(c: Context, l: Loop, idx: nat, k: nat)
    requires idx <= |c.plan.nodes| && l.store.Some? && l.store.value.request.None?
    ensures
      var l' := Cut(c, l, idx, k);
      && l'.store.Some? && SameBelow(l.store.value, l'.store.value, idx)
      && l'.consumed == l.consumed && NewOrNone(c, l'.store.value)
    decreases k
  {
    hide Advance;
    if k > 0 && idx < |c.plan.nodes| {
      AdvanceFree(c, l, idx);
      if Advance(c, l, idx).Continue? {
        PassIsStored(c, l, idx);
        CutFree(c, Advance(c, l, idx).l, idx + 1, k - 1);
      } else {
        StopWrites(c, l, idx);
      }
    }
  }

  /** The attempt did nothing to the store but note the topology, and ran no agent. */
  ghost predicate Untouched(l: Loop, r: Record) {
    l.store.Some? && l.store.value == r.(topology := l.store.value.topology) && l.executed == [] && l.consumed.None?
  }

  /** The store will not hand back some stored output. */
  ghost predicate SomeUnreadable(c: Context, r: Record) {
    exists i :: i in r.outputs && !c.env.readable(i, r.outputs[i])
  }

  ghost predicate TurnedAway(c: Context, r: Record, o: Outcome) {
    || (o.Halted? && (o.code == ResumeDrift || o.code == SanitizationHalt || o.code == IdentityBlocked))
    || (o.Escaped? && SomeUnreadable(c, r))
  }

  /** What the decision, or its absence, makes of the waiting node. */
  ghost predicate Settles(c: Context, r: Record, j: nat, o: Outcome, l: Loop)
    requires WaitsAt(c.plan, r, j)
  {
    var q, k, name := r.request.value, ReplayTo(c.plan, r, j).value, c.plan.nodes[j].name;
    if c.decision.None? then
      o == Halted(k.outputs, k.stepsRun, Some(name), PollCode(q.reason).value, Some(q)) && Untouched(l, r)
    else if c.decision.value.id != q.id then
      o == Halted(k.outputs, k.stepsRun, Some(name), ApprovalError, None) && Untouched(l, r)
    else
      var verdict := c.decision.value.verdict;
      var chosen := if verdict.Amended? then verdict.output else q.output;
      if verdict.Rejected? then
        o == Halted(k.outputs, k.stepsRun, Some(name), ApprovalRejected, None) && Untouched(l, r.(request := None))
      else if c.env.conform(j, chosen).None? then
        o == Halted(k.outputs, k.stepsRun, Some(name), SchemaViolation, None) && Untouched(l, r.(request := None))
      else
        && l.store.Some? && j in l.store.value.outputs
        && l.store.value.outputs[j] == c.env.conform(j, chosen).value
        && TrustOf(l.store.value, j) == Join(q.trust, SeedOf(c, k, j))
        && (forall e :: e in l.executed ==> e > j)
        && l.consumed == Some(q.id) && NewOrNone(c, l.store.value)
  }

  lemma WaitingSettles(c: Context, l: Loop, j: nat)
    requires Leads(c, l, j, j) && !c.env.blocked(c.plan.nodes[j].name)
    ensures
      var (o, l') := RunFrom(c, l, j);
      Settles(c, l.store.value, j, o, l')
  {
    AtWaiting(c, l, j);
    var next := Advance(c, l, j);
    if next.Continue? {
      Applied(c, l, j);
    }
  }

  /** The decision is for this request, and its output conforms. */
  ghost predicate AppliedAt(c: Context, q: Request, k: Core, j: nat, l: Loop)
    requires j < |c.plan.nodes|
  {
    && c.decision.Some? && c.decision.value.id == q.id && !c.decision.value.verdict.Rejected?
    && var verdict := c.decision.value.verdict;
       var out := c.env.conform(j, if verdict.Amended? then verdict.output else q.output);
       && out.Some? && l.store.Some? && j in l.store.value.outputs && l.store.value.outputs[j] == out.value
       && TrustOf(l.store.value, j) == Join(q.trust, SeedOf(c, k, j)) && l.consumed == Some(q.id)
  }

  lemma DecisionCommits(c: Context, l: Loop, j: nat)
    requires Leads(c, l, j, j) && Advance(c, l, j).Continue?
    ensures
      var l' := Advance(c, l, j).l;
      AppliedAt(c, l.store.value.request.value, l.core, j, l') && l'.executed == [] && l'.store.value.request.None?
  {
    AtWaiting(c, l, j);
  }

  lemma Applied(c: Context, l: Loop, j: nat)
    requires Leads(c, l, j, j) && Advance(c, l, j).Continue?
    ensures
      var (o, l') := RunFrom(c, l, j);
      Settles(c, l.store.value, j, o, l')
  {
    DecisionCommits(c, l, j);
    var l1 := Advance(c, l, j).l;
    var k := |c.plan.nodes| - (j + 1);
    RunIsCut(c, l1, j + 1, k);
    CutFree(c, l1, j + 1, k);
    CutExecutes(c, l1, j + 1, k, j + 1);
    assert AppliedAt(c, l.store.value.request.value, l.core, j, Cut(c, l1, j + 1, k));
  }

  lemma StartSettles(c: Context, p: Record, j: nat)
    requires WaitsAt(c.plan, p, j)
    ensures
      var (o, l) := RunFrom(c, Start(Some(p)), 0);
      (TurnedAway(c, p, o) && Untouched(l, p)) || Settles(c, p, j, o, l)
  {
    RunReaches(c, Start(Some(p)), 0, j);
    var at := Start(Some(p)).(core := ReplayTo(c.plan, p, j).value);
    var (o, l) := RunFrom(c, Start(Some(p)), 0);
    if (o, l) == RunFrom(c, at, j) && !c.env.blocked(c.plan.nodes[j].name) {
      WaitingSettles(c, at, j);
    }
  }

  lemma SettlesSame(c: Context, p: Record, r: Record, j: nat, o: Outcome, l: Loop)
    requires p == r.(topology := p.topology) && WaitsAt(c.plan, p, j)
    ensures WaitsAt(c.plan, r, j)
    ensures Untouched(l, p) ==> Untouched(l, r)
    ensures Settles(c, p, j, o, l) ==> Settles(c, r, j, o, l)
  {
    ReplaySame(c.plan, p, r, j);
  }

  /** Over any history: while a request is pending, an attempt is turned away before it, or ends as the decision says.
      A poll repeats the request and its code; a decision for another request leaves it alone; the right decision
      removes it, and commits an output under a label that is never below the proposed one. */
  lemma {:induction false} DecisionSettles(plan: Plan, tries: seq<Try>, env: Env, decision: Option<Decision>, freshId: string)
    requires WellFormed(plan.nodes) && StoreAfter(plan, tries).request.Some?
    ensures
      var c, r := Context(plan, env, decision, freshId), StoreAfter(plan, tries);
      var (o, l) := Attempt(c, Some(r));
      || (TurnedAway(c, r, o) && Untouched(l, r))
      || exists j: nat :: WaitsAt(plan, r, j) && Settles(c, r, j, o, l)
  {
    var c, r := Context(plan, env, decision, freshId), StoreAfter(plan, tries);
    AlwaysWaiting(plan, tries);
    PreflightWaiting(c, r);
    if Preflight(c, r).Ok? && env.clean {
      var p := Preflight(c, r).value;
      var j: nat :| WaitsAt(plan, p, j);
      var (o, l) := RunFrom(c, Start(Some(p)), 0);
      StartSettles(c, p, j);
      SettlesSame(c, p, r, j, o, l);
    }
  }

  // ---- applied at most once -------------------------------------------------

  /** Only the request that was pending at the start can be consumed; it is gone then, and only a new one can follow. */
  ghost predicate Consumes(freshId: string, before: Option<Request>, consumed: Option<string>, after: Option<Request>) {
    || (consumed.None? && (after == before || after.None? || after.value.id == freshId))
    || (before.Some? && consumed == Some(before.value.id) && (after.None? || after.value.id == freshId))
  }

  lemma {:induction false} CutConsumes(c: Context, l: Loop, idx: nat, k: nat, j: nat)
    requires Leads(c, l, idx, j)
    ensures
      var l' := Cut(c, l, idx, k);
      l'.store.Some? && Consumes(c.freshId, l.store.value.request, l'.consumed, l'.store.value.request)
    decreases k
  {
    hide Advance;
    if k > 0 && idx < j {
      var next := CutNext(c, l, idx, k);
      LeadsOn(c, l, idx, j);
      if next.Continue? {
        CutConsumes(c, next.l, idx + 1, k - 1, j);
      }
    } else if k > 0 {
      CutConsumesHere(c, l, k, j);
    }
  }

  /** What the decision does to the request, right at the node that waits. */
  lemma DecisionConsumes(c: Context, l: Loop, j: nat, next: Next)
    requires Leads(c, l, j, j) && next == Advance(c, l, j)
    ensures next.l.store.Some?
    ensures Consumes(c.freshId, l.store.value.request, next.l.consumed, next.l.store.value.request)
    ensures next.Continue? ==> next.l.store.value.request.None?
  {
    if next.Continue? {
      DecisionCommits(c, l, j);
    } else {
      DecideStops(c, l, j);
      DecideExecutes(c, l, j);
    }
  }

  lemma ConsumesOn(c: Context, before: Option<Request>, next: Next, idx: nat, k: nat)
    requires idx <= |c.plan.nodes| && next.l.store.Some?
    requires Consumes(c.freshId, before, next.l.consumed, next.l.store.value.request)
    requires next.Continue? ==> next.l.store.value.request.None?
    ensures
      var l' := CutAfter(c, next, idx, k);
      l'.store.Some? && Consumes(c.freshId, before, l'.consumed, l'.store.value.request)
  {
    hide Advance;
    if next.Continue? {
      CutFree(c, next.l, idx, k);
    }
  }

  lemma CutConsumesHere(c: Context, l: Loop, k: nat, j: nat)
    requires Leads(c, l, j, j) && k > 0
    ensures
      var l' := Cut(c, l, j, k);
      l'.store.Some? && Consumes(c.freshId, l.store.value.request, l'.consumed, l'.store.value.request)
  {
    hide Advance;
    var next := CutNext(c, l, j, k);
    DecisionConsumes(c, l, j, next);
    ConsumesOn(c, l.store.value.request, next, j + 1, k - 1);
  }

  /** The request that an attempt consumed. */
  function ConsumedBy(plan: Plan, r: Record, t: Try): Option<string> {
    var l := LoopOf(plan, r, t);
    if l.Some? then l.value.consumed else None
  }

  lemma TryConsumes(plan: Plan, r: Record, t: Try)
    requires Waiting(plan, r, 0)
    ensures Consumes(t.freshId, r.request, ConsumedBy(plan, r, t), StoreOf(plan, r, t).request)
  {
    var c := ContextOf(plan, t);
    PreflightWaiting(c, r);
    if Preflight(c, r).Ok? && t.env.clean {
      var p := Preflight(c, r).value;
      if p.request.Some? {
        var j: nat :| WaitsAt(plan, p, j);
        CutConsumes(c, Start(Some(p)), 0, t.nodes, j);
      } else {
        CutFree(c, Start(Some(p)), 0, t.nodes);
      }
    }
  }

  /** The requests consumed by these attempts, in order. */
  function Consumed(plan: Plan, tries: seq<Try>): seq<string> {
    if tries == [] then []
    else
      var n := |tries| - 1;
      var last := ConsumedBy(plan, StoreAfter(plan, tries[..n]), tries[n]);
      Consumed(plan, tries[..n]) + if last.Some? then [last.value] else []
  }

  ghost predicate FreshIds(tries: seq<Try>) {
    forall a, b :: 0 <= a < b < |tries| ==> tries[a].freshId != tries[b].freshId
  }

  ghost predicate Issued(tries: seq<Try>, id: string) {
    exists a :: 0 <= a < |tries| && tries[a].freshId == id
  }

  ghost predicate Distinct(ids: seq<string>) {
    forall a, b :: 0 <= a < b < |ids| ==> ids[a] != ids[b]
  }

  /** Everything consumed was issued, nothing was consumed twice, and what is pending was issued and not consumed. */
  ghost predicate Ledgered(plan: Plan, tries: seq<Try>) {
    var ids, pending := Consumed(plan, tries), StoreAfter(plan, tries).request;
    && Distinct(ids) && (forall id :: id in ids ==> Issued(tries, id))
    && (pending.Some? ==> pending.value.id !in ids && Issued(tries, pending.value.id))
  }

  lemma NextLedgered(ids: seq<string>, before: seq<Try>, t: Try, pending: Option<Request>, consumed: Option<string>,
                     after: Option<Request>)
    requires FreshIds(before + [t]) && Consumes(t.freshId, pending, consumed, after)
    requires Distinct(ids) && forall id :: id in ids ==> Issued(before, id)
    requires pending.Some? ==> pending.value.id !in ids && Issued(before, pending.value.id)
    ensures
      var more := ids + if consumed.Some? then [consumed.value] else [];
      && Distinct(more) && (forall id :: id in more ==> Issued(before + [t], id))
      && (after.Some? ==> after.value.id !in more && Issued(before + [t], after.value.id))
  {
    var tries := before + [t];
    assert tries[|before|].freshId == t.freshId;
    forall id | Issued(before, id) ensures Issued(tries, id) && id != t.freshId {
      var a :| 0 <= a < |before| && before[a].freshId == id;
      assert tries[a].freshId == id;
    }
  }

  lemma {:induction false} AlwaysLedgered(plan: Plan, tries: seq<Try>)
    requires WellFormed(plan.nodes) && FreshIds(tries)
    ensures Ledgered(plan, tries)
    decreases |tries|
  {
    if tries != [] {
      var n := |tries| - 1;
      var before, t := tries[..n], tries[n];
      assert tries == before + [t];
      AlwaysLedgered(plan, before);
      AlwaysWaiting(plan, before);
      var r := StoreAfter(plan, before);
      TryConsumes(plan, r, t);
      NextLedgered(Consumed(plan, before), before, t, r.request, ConsumedBy(plan, r, t), StoreOf(plan, r, t).request);
    }
  }

  /** No request is applied twice, however many attempts are made with however many decisions. */
  lemma AppliedAtMostOnce(plan: Plan, tries: seq<Try>, a: nat, b: nat)
    requires WellFormed(plan.nodes) && FreshIds(tries) && a < b < |Consumed(plan, tries)|
    ensures Consumed(plan, tries)[a] != Consumed(plan, tries)[b]
  {
    AlwaysLedgered(plan, tries);
  }
}
