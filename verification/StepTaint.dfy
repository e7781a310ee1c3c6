/** The label a step commits is the scope that the proxy's ledger holds for it: what the step was seeded with,
    and Untrusted once a tool that reads untrusted sources got past the sink gate. */
module StepTaint {

  import opened Wrappers
  import opened Taint
  import opened EffectLedger
  import opened ToolCalls
  import opened Authority
  import opened Attestation
  import Checkpoints
  import Scheduler
  import SchedulerShape
  import opened Graph
  import Lineage
  import TrustLabels

  /** One run: its settings, its manifest, its identifier and what the effect ledger holds at its start. */
  datatype Session = Session(cfg: Config, p: PipelineConfig, runId: string, effects: Contents)

  function After(x: Session, acts: seq<Act>): State {
    Run(x.cfg, x.p, x.runId, x.effects, acts)
  }

  function ScopeAfter(x: Session, acts: seq<Act>, step: int): Trust {
    ScopeOf(x.cfg.managed, After(x, acts).scopes, (x.runId, Some(step)))
  }

  /** What the run loop seeded the step with. */
  function SeedsOf(acts: seq<Act>, step: int): seq<Trust> {
    if acts == [] then []
    else
      var a, rest := acts[|acts| - 1], SeedsOf(acts[..|acts| - 1], step);
      if a.Seed? && a.step == step then rest + [a.trust] else rest
  }

  /** A declared tool that reads untrusted sources gets past the sink gate, whatever becomes of the call then. */
  predicate Contacts(x: Session, s: State, a: Act, step: int) {
    && a.Ask? && a.step == step && DeclaredAt(x.p, step, a.toolRef) && a.toolRef in x.cfg.registry
    && var tool := x.cfg.registry[a.toolRef];
       && tool.sourceTrust.Untrusted?
       && !(tool.exfilCapable && ScopeOf(x.cfg.managed, s.scopes, (x.runId, Some(step))).Untrusted?)
  }

  /** It happened at the act at position `i`. */
  predicate ContactAt(x: Session, acts: seq<Act>, i: int, step: int) {
    0 <= i < |acts| && Contacts(x, After(x, acts[..i]), acts[i], step)
  }

  ghost predicate Contact(x: Session, acts: seq<Act>, step: int) {
    exists i :: ContactAt(x, acts, i, step)
  }

  ghost function Seen(x: Session, acts: seq<Act>, step: int): Trust {
    if Contact(x, acts, step) then Untrusted else Trusted
  }

  // ---- one act --------------------------------------------------------------

  /** One act changes the scope of its own step alone, and only by a seed or a contact. */
  lemma ActTaints(x: Session, s: State, a: Act, step: int)
    ensures
      var m, m', key := s.scopes, Serve(x.cfg, x.p, x.runId, s, a).scopes, (x.runId, Some(step));
      if a.Seed? && a.step == step then m' == Seeded(m, key, a.trust)
      else if Contacts(x, s, a, step) then key in m' && m'[key].Untrusted?
      else (key in m' <==> key in m) && (key in m ==> m'[key] == m[key])
  {
    if a.Ask? && DeclaredAt(x.p, a.step, a.toolRef) {
      InvokeTaints(x.cfg, WithToken(s, x.runId, a), CallOf(x.runId, a), a.w, (x.runId, Some(step)));
    }
  }

  lemma InvokeTaints(cfg: Config, s: State, c: Call, w: World, key: (string, Step))
    ensures
      var m, m' := s.scopes, Invoke(cfg, s, c, w).0.scopes;
      if key == (c.runId, c.step) && c.toolRef in cfg.registry && cfg.registry[c.toolRef].sourceTrust.Untrusted?
         && !(cfg.registry[c.toolRef].exfilCapable && ScopeIn(cfg, s, c).Untrusted?)
      then key in m' && m'[key].Untrusted?
      else (key in m' <==> key in m) && (key in m ==> m'[key] == m[key])
  {
    if c.toolRef in cfg.registry {
      var tool := cfg.registry[c.toolRef];
      GatesTaint(cfg, tool, s, c, w.now, key);
      ExecuteKeepsScopes(cfg, tool, Gates(cfg, tool, s, c, w.now).0, c, w);
      hide Gates, Execute;
    }
  }

  lemma GatesTaint(cfg: Config, tool: Tool, s: State, c: Call, now: real, key: (string, Step))
    ensures
      var m, m' := s.scopes, Gates(cfg, tool, s, c, now).0.scopes;
      if key == (c.runId, c.step) && tool.sourceTrust.Untrusted? && !(tool.exfilCapable && ScopeIn(cfg, s, c).Untrusted?)
      then key in m' && m'[key].Untrusted?
      else (key in m' <==> key in m) && (key in m ==> m'[key] == m[key])
  {
  }

  lemma ContactNext(x: Session, acts: seq<Act>, step: int)
    requires acts != []
    ensures
      var n := |acts| - 1;
      Contact(x, acts, step) <==>
        Contact(x, acts[..n], step) || Contacts(x, After(x, acts[..n]), acts[n], step)
  {
    hide Contacts;
    var n := |acts| - 1;
    forall i | 0 <= i < n ensures ContactAt(x, acts, i, step) <==> ContactAt(x, acts[..n], i, step) {
      assert acts[..n][..i] == acts[..i];
    }
    assert ContactAt(x, acts, n, step) <==> Contacts(x, After(x, acts[..n]), acts[n], step);
    forall i | ContactAt(x, acts[..n], i, step) ensures ContactAt(x, acts, i, step) {
    }
  }

  // ---- the whole run --------------------------------------------------------

  lemma JoinAllNext(labels: seq<Trust>, t: Trust)
    ensures JoinAll(labels + [t]) == Join(JoinAll(labels), t)
  {
  }

  /** After any acts of a run, a step has a scope exactly when it was seeded or in contact; the scope is the join of its
      seeds, and Untrusted from the first contact on. */
  lemma {:induction false} ScopeExactly(x: Session, acts: seq<Act>, step: int)
    ensures
      var m, key := After(x, acts).scopes, (x.runId, Some(step));
      && (key in m <==> SeedsOf(acts, step) != [] || Contact(x, acts, step))
      && (key in m ==> m[key] == Join(JoinAll(SeedsOf(acts, step)), Seen(x, acts, step)))
    decreases |acts|
  {
    hide Serve, Contacts;
    if acts != [] {
      var n := |acts| - 1;
      ScopeExactly(x, acts[..n], step);
      ActTaints(x, After(x, acts[..n]), acts[n], step);
      ContactNext(x, acts, step);
      if acts[n].Seed? && acts[n].step == step {
        SeedIsNoContact(x, After(x, acts[..n]), acts[n], step);
        JoinAllNext(SeedsOf(acts[..n], step), acts[n].trust);
      }
    }
  }

  lemma SeedIsNoContact(x: Session, s: State, a: Act, step: int)
    requires a.Seed?
    ensures !Contacts(x, s, a, step)
  {
  }

  /** A scope that was set is never lowered. */
  lemma ScopeOnlyRises(x: Session, acts: seq<Act>, n: nat, step: int)
    requires n <= |acts| && (SeedsOf(acts[..n], step) != [] || Contact(x, acts[..n], step))
    requires ScopeAfter(x, acts[..n], step).Untrusted?
    ensures ScopeAfter(x, acts, step).Untrusted?
  {
    hide Run;
    ScopeExactly(x, acts, step);
    ScopeExactly(x, acts[..n], step);
    SeedsGrow(acts, n, step);
    if Contact(x, acts[..n], step) { ContactStays(x, acts, n, step); }
  }

  lemma {:induction false} SeedsGrow(acts: seq<Act>, n: nat, step: int)
    requires n <= |acts|
    ensures SeedsOf(acts[..n], step) <= SeedsOf(acts, step)
    decreases |acts|
  {
    if n < |acts| {
      var before := acts[..|acts| - 1];
      assert before[..n] == acts[..n];
      SeedsGrow(before, n, step);
    } else {
      assert acts[..n] == acts;
    }
  }

  lemma ContactStays(x: Session, acts: seq<Act>, n: nat, step: int)
    requires n <= |acts| && Contact(x, acts[..n], step)
    ensures Contact(x, acts, step)
  {
    var i :| ContactAt(x, acts[..n], i, step);
    assert acts[..n][..i] == acts[..i];
    assert ContactAt(x, acts, i, step);
  }

  // ---- one step of the pipeline ---------------------------------------------

  /** What happens in a run until a step is done: acts of other steps, the seed of this one, and what its agent asks for. */
  predicate StepActs(acts: seq<Act>, n: nat, step: int, seed: Trust) {
    && n < |acts| && acts[n] == Seed(step, seed)
    && (forall i :: 0 <= i < n ==> acts[i].step != step)
    && (forall i :: n < i < |acts| ==> acts[i].Ask? && acts[i].step == step)
  }

  lemma {:induction false} NoSeeds(acts: seq<Act>, step: int)
    requires forall i :: 0 <= i < |acts| ==> acts[i].step != step
    ensures SeedsOf(acts, step) == []
    decreases |acts|
  {
    if acts != [] { NoSeeds(acts[..|acts| - 1], step); }
  }

  lemma {:induction false} OneSeed(acts: seq<Act>, n: nat, step: int, seed: Trust)
    requires StepActs(acts, n, step, seed)
    ensures SeedsOf(acts, step) == [seed]
    decreases |acts|
  {
    if n == |acts| - 1 { NoSeeds(acts[..n], step); } else { OneSeed(acts[..|acts| - 1], n, step, seed); }
  }

  /** The scope at the end of the step: its seed, unless an untrusted source got through. */
  lemma StepScope(x: Session, acts: seq<Act>, n: nat, step: int, seed: Trust)
    requires StepActs(acts, n, step, seed)
    ensures ScopeAfter(x, acts, step) == Join(seed, Seen(x, acts, step))
  {
    ScopeExactly(x, acts, step);
    OneSeed(acts, n, step, seed);
    assert JoinAll([seed]) == seed;
  }

  /** The execution reports what the run's acts amount to. */
  ghost predicate Reports(x: Session, acts: seq<Act>, step: int, e: Scheduler.Execution) {
    e.Produced? ==> e.observed == Seen(x, acts, step)
  }

  /** The label that a step commits, or pins to the request it raises, is the scope the ledger holds for it then. */
  lemma CommitIsScope(x: Session, acts: seq<Act>, n: nat, c: Scheduler.Context, l: Scheduler.Loop, idx: nat)
    requires idx < |c.plan.nodes| && c.plan.nodes[idx].AgentNode?
    requires StepActs(acts, n, idx, Scheduler.SeedOf(c, l.core, idx))
    requires
      var payload := Scheduler.PayloadOf(c, l.core, idx, c.plan.nodes[idx]);
      payload.Some? ==> Reports(x, acts, idx, c.env.agent(idx, payload.value, Scheduler.SeedOf(c, l.core, idx)))
    ensures
      var node := c.plan.nodes[idx];
      var next := Scheduler.Execute(c, l, idx, node, Scheduler.SeedOf(c, l.core, idx));
      && (next.Continue? ==> next.l.core.trust == l.core.trust[node.name := ScopeAfter(x, acts, idx)])
      && (next.Stop? && next.outcome.Halted? && next.outcome.request.Some? ==>
            next.outcome.request.value.trust == ScopeAfter(x, acts, idx))
  {
    hide Run;
    StepScope(x, acts, n, idx, Scheduler.SeedOf(c, l.core, idx));
  }

  /** A step whose approval is decided makes no calls: its scope is its seed, which the committed label covers. */
  lemma DecisionIsScope(x: Session, acts: seq<Act>, c: Scheduler.Context, l: Scheduler.Loop, idx: nat)
    requires idx < |c.plan.nodes| && c.plan.nodes[idx].AgentNode? && Scheduler.PendingAt(l, c.plan.nodes[idx])
    requires acts != [] && StepActs(acts, |acts| - 1, idx, Scheduler.SeedOf(c, l.core, idx))
    ensures
      var node, pending := c.plan.nodes[idx], l.store.value.request.value;
      var next := Scheduler.Decide(c, l, idx, node, pending, Scheduler.SeedOf(c, l.core, idx));
      next.Continue? ==> next.l.core.trust == l.core.trust[node.name := Join(pending.trust, ScopeAfter(x, acts, idx))]
  {
    StepScope(x, acts, |acts| - 1, idx, Scheduler.SeedOf(c, l.core, idx));
    NoContactAlone(x, acts, idx);
  }

  lemma NoContactAlone(x: Session, acts: seq<Act>, step: int)
    requires forall i :: 0 <= i < |acts| ==> acts[i].Seed? || acts[i].step != step
    ensures !Contact(x, acts, step)
  {
  }

  // ---- agents whose calls the proxy serves ----------------------------------

  /** What an agent asks for in a step, given its payload and the seeded scope. */
  type Asks = (nat, Value, Trust) -> seq<Act>

  ghost predicate Proper(asks: Asks) {
    forall i, v, t :: forall a :: a in asks(i, v, t) ==> a.Ask? && a.step == i
  }

  /** The acts of one step alone. */
  function Alone(asks: Asks, step: nat, payload: Value, seed: Trust): seq<Act> {
    [Seed(step, seed)] + asks(step, payload, seed)
  }

  /** Surroundings in which what an execution observed is what the proxy saw its calls do. */
  ghost function Served(x: Session, asks: Asks, env: Scheduler.Env): Scheduler.Env {
    env.(agent := (i: nat, v: Value, t: Trust) => Observing(env.agent(i, v, t), Seen(x, Alone(asks, i, v, t), i)))
  }

  function Observing(e: Scheduler.Execution, seen: Trust): Scheduler.Execution {
    if e.Produced? then e.(observed := seen) else e
  }

  lemma {:induction false} ContactIsLocal(x: Session, acts: seq<Act>, n: nat, step: int, seed: Trust)
    requires StepActs(acts, n, step, seed)
    ensures Contact(x, acts, step) <==> Contact(x, acts[n..], step)
    decreases |acts|
  {
    var m, own := |acts| - 1, acts[n..];
    ContactNext(x, acts, step);
    ContactNext(x, own, step);
    assert own[|own| - 1] == acts[m];
    if m == n {
      NoContactAlone(x, acts, step);
      NoContactAlone(x, own, step);
    } else {
      assert own[..|own| - 1] == acts[..m][n..];
      ContactIsLocal(x, acts[..m], n, step, seed);
      StepScope(x, acts[..m], n, step, seed);
      StepScope(x, own[..|own| - 1], 0, step, seed);
    }
  }

  /** In such surroundings an execution reports its contacts, whatever the steps before it did. */
  lemma ServedReports(x: Session, asks: Asks, env: Scheduler.Env, before: seq<Act>, step: nat, payload: Value, seed: Trust)
    requires Proper(asks) && forall a :: a in before ==> a.step != step
    ensures
      var acts := before + Alone(asks, step, payload, seed);
      StepActs(acts, |before|, step, seed) && Reports(x, acts, step, Served(x, asks, env).agent(step, payload, seed))
  {
    hide Contact, Run;
    var own := Alone(asks, step, payload, seed);
    var acts := before + own;
    assert acts[|before|] == own[0] == Seed(step, seed);
    forall i | |before| < i < |acts| ensures acts[i].Ask? && acts[i].step == step {
      assert acts[i] in asks(step, payload, seed);
    }
    assert acts[|before|..] == own;
    assert StepActs(acts, |before|, step, seed);
    ContactIsLocal(x, acts, |before|, step, seed);
    assert Seen(x, acts, step) == Seen(x, own, step);
    assert Served(x, asks, env).agent(step, payload, seed) == Observing(env.agent(step, payload, seed), Seen(x, own, step));
  }

  /** The label that a step commits is the scope that the ledger holds after its calls. */
  lemma ServedCommits(x: Session, asks: Asks, env: Scheduler.Env, c: Scheduler.Context, l: Scheduler.Loop, idx: nat, before: seq<Act>)
    requires idx < |c.plan.nodes| && c.plan.nodes[idx].AgentNode?
    requires Proper(asks) && c.env == Served(x, asks, env) && forall a :: a in before ==> a.step != idx
    requires Scheduler.PayloadOf(c, l.core, idx, c.plan.nodes[idx]).Some?
    ensures
      var node, seed := c.plan.nodes[idx], Scheduler.SeedOf(c, l.core, idx);
      var acts := before + Alone(asks, idx, Scheduler.PayloadOf(c, l.core, idx, node).value, seed);
      var next := Scheduler.Execute(c, l, idx, node, seed);
      && (next.Continue? ==> next.l.core.trust == l.core.trust[node.name := ScopeAfter(x, acts, idx)])
      && (next.Stop? && next.outcome.Halted? && next.outcome.request.Some? ==>
            next.outcome.request.value.trust == ScopeAfter(x, acts, idx))
  {
    hide Served;
    var seed := Scheduler.SeedOf(c, l.core, idx);
    var payload := Scheduler.PayloadOf(c, l.core, idx, c.plan.nodes[idx]).value;
    ServedReports(x, asks, env, before, idx, payload, seed);
    CommitIsScope(x, before + Alone(asks, idx, payload, seed), |before|, c, l, idx);
  }

  /** Untrusted data enters a step that goes through exactly by a contact of its calls. */
  lemma TouchedByContact(x: Session, asks: Asks, env: Scheduler.Env, c: Scheduler.Context, l: Scheduler.Loop, idx: nat, before: seq<Act>)
    requires idx < |c.plan.nodes| && c.plan.nodes[idx].AgentNode?
    requires Proper(asks) && c.env == Served(x, asks, env) && forall a :: a in before ==> a.step != idx
    ensures
      var payload := Scheduler.PayloadOf(c, l.core, idx, c.plan.nodes[idx]);
      var seed := Scheduler.SeedOf(c, l.core, idx);
      TrustLabels.Touched(c, l, idx) <==>
        payload.Some? && env.agent(idx, payload.value, seed).Produced?
        && Contact(x, before + Alone(asks, idx, payload.value, seed), idx)
  {
    var payload := Scheduler.PayloadOf(c, l.core, idx, c.plan.nodes[idx]);
    if payload.Some? {
      ServedReports(x, asks, env, before, idx, payload.value, Scheduler.SeedOf(c, l.core, idx));
    }
  }

  /** The proxy that serves an attempt, what the agents ask of it, and the rest of the surroundings. */
  datatype Serving = Serving(x: Session, asks: Asks, env: Scheduler.Env)

  ghost predicate Serves(v: Serving, t: SchedulerShape.Try) {
    Proper(v.asks) && t.env == Served(v.x, v.asks, v.env)
  }

  /** In the attempt `t` the step executes, and a tool that reads untrusted sources gets past the sink gate. */
  ghost predicate ExecutesInContact(plan: Scheduler.Plan, v: Serving, t: SchedulerShape.Try, l: Scheduler.Loop, idx: nat)
    requires idx < |plan.nodes| && plan.nodes[idx].AgentNode?
  {
    var c := SchedulerShape.ContextOf(plan, t);
    var payload, seed := Scheduler.PayloadOf(c, l.core, idx, plan.nodes[idx]), Scheduler.SeedOf(c, l.core, idx);
    payload.Some? && v.env.agent(idx, payload.value, seed).Produced?
    && Contact(v.x, Alone(v.asks, idx, payload.value, seed), idx)
  }

  /** Trusted means free of contact: over any attempts whose calls the proxy serves, crashed or not, no label in the
      store or in a pending request is Trusted over data that such a call or the initial input made dirty. */
  lemma ServedIsClean(plan: Scheduler.Plan, tries: seq<SchedulerShape.Try>, serving: seq<Serving>)
    requires WellFormed(plan.nodes) && Lineage.JoinsCover(plan.nodes)
    requires |serving| == |tries| && forall i :: 0 <= i < |tries| ==> Serves(serving[i], tries[i])
    ensures
      forall i, l, idx: nat :: 0 <= i < |tries| && idx < |plan.nodes| && plan.nodes[idx].AgentNode? ==>
        (TrustLabels.Touched(SchedulerShape.ContextOf(plan, tries[i]), l, idx)
         <==> ExecutesInContact(plan, serving[i], tries[i], l, idx))
    ensures
      var r, d := SchedulerShape.StoreAfter(plan, tries), TrustLabels.Story(plan, tries).1;
      && (forall i :: i in r.outputs && Checkpoints.TrustOf(r, i).Trusted? ==> i in d.stored && !d.stored[i])
      && (r.request.Some? && r.request.value.trust.Trusted? ==> !d.proposed)
  {
    if tries != [] {
      TrustLabels.TrustedIsClean(plan, tries, tries[0]);
    }
    forall i, l, idx: nat | 0 <= i < |tries| && idx < |plan.nodes| && plan.nodes[idx].AgentNode?
      ensures TrustLabels.Touched(SchedulerShape.ContextOf(plan, tries[i]), l, idx)
        <==> ExecutesInContact(plan, serving[i], tries[i], l, idx)
    {
      var v := serving[i];
      TouchedByContact(v.x, v.asks, v.env, SchedulerShape.ContextOf(plan, tries[i]), l, idx, []);
    }
  }
}
