/** What the proxy enforced is what the receipt attests: proxy, footprint and receipt together. */
module Attestation {

  import opened Wrappers
  import opened Taint
  import opened Tokens
  import opened EffectLedger
  import opened ToolCalls
  import opened Authority
  import opened Receipt
  import Conservation

  /** What can happen in a run: a step's scope is seeded, or the agent of a step asks for a tool. */
  datatype Act =
    | Seed(step: int, trust: Trust)
    | Ask(step: int, toolRef: string, operation: string, inputHash: string, secret: string, expiresAt: real, w: World)

  function StepAgents(p: PipelineConfig): seq<Option<string>> {
    seq(|p.steps|, i requires 0 <= i < |p.steps| => if p.steps[i].StepConfig? then Some(p.steps[i].agent) else None)
  }

  /** The agent of step n declares the tool. */
  predicate DeclaredAt(p: PipelineConfig, n: int, toolRef: string) {
    && 0 <= n < |p.steps| && p.steps[n].StepConfig? && p.steps[n].agent in Agents(p.agents)
    && toolRef in Agents(p.agents)[p.steps[n].agent].tools
  }

  /** An agent reaches declared tools only, each time with a new token; for any other tool nothing happens. */
  function Serve(cfg: Config, p: PipelineConfig, runId: string, s: State, a: Act): State {
    if a.Seed? then s.(scopes := Seeded(s.scopes, (runId, Some(a.step)), a.trust))
    else if !DeclaredAt(p, a.step, a.toolRef) then s
    else Invoke(cfg, WithToken(s, runId, a), CallOf(runId, a), a.w).0
  }

  function CallOf(runId: string, a: Act): Call
    requires a.Ask?
  {
    Call(a.toolRef, a.inputHash, Token(a.secret, a.toolRef, a.operation, runId), runId, Some(a.step), a.operation)
  }

  function WithToken(s: State, runId: string, a: Act): State
    requires a.Ask?
  {
    s.(records := s.records[a.secret := Record(a.toolRef, a.operation, runId, a.expiresAt, false)])
  }

  /** One run: a new proxy over whatever the effect ledger holds. */
  function Run(cfg: Config, p: PipelineConfig, runId: string, effects: Contents, acts: seq<Act>): State {
    if acts == [] then State(map[], map[], effects, [], map[], map[], 0, {}, [])
    else Serve(cfg, p, runId, Run(cfg, p, runId, effects, acts[..|acts| - 1]), acts[|acts| - 1])
  }

  // ---- the log --------------------------------------------------------------

  /** The entry of a call that was executed: the sink gate saw the scope before the tool's own taint, the log after it. */
  ghost predicate Entered(cfg: Config, s: State, c: Call, e: LogEntry) {
    && e.toolRef == c.toolRef && e.runId == c.runId && e.step == c.step
    && (Executed(e.result) ==>
          c.toolRef in cfg.registry
          && var tool := cfg.registry[c.toolRef];
          && e.exfilCapable == tool.exfilCapable
          && !(tool.exfilCapable && ScopeIn(cfg, s, c).Untrusted?)
          && e.scope == Join(ScopeIn(cfg, s, c), tool.sourceTrust)
          && c.operation in tool.allowedOperations)
  }

  lemma ExecuteKeepsScopes(cfg: Config, tool: Tool, s: State, c: Call, w: World)
    ensures Execute(cfg, tool, s, c, w).0.scopes == s.scopes
    ensures Execute(cfg, tool, s, c, w).0.log == s.log
  {
  }

  lemma GatesScope(cfg: Config, tool: Tool, s: State, c: Call, now: real)
    ensures
      var (s', denial) := Gates(cfg, tool, s, c, now);
      && s'.log == s.log
      && (denial.None? ==>
            c.operation in tool.allowedOperations
            && !(tool.exfilCapable && ScopeIn(cfg, s, c).Untrusted?)
            && ScopeIn(cfg, s', c) == Join(ScopeIn(cfg, s, c), tool.sourceTrust))
  {
  }

  /** Every call leaves exactly one entry. */
  lemma InvokeEnters(cfg: Config, s: State, c: Call, w: World) returns (e: LogEntry)
    ensures Invoke(cfg, s, c, w).0.log == s.log + [e] && Entered(cfg, s, c, e)
  {
    if c.toolRef !in cfg.registry {
      e := Invoke(cfg, s, c, w).0.log[|s.log|];
    } else {
      var tool := cfg.registry[c.toolRef];
      var (s1, denial) := Gates(cfg, tool, s, c, w.now);
      GatesScope(cfg, tool, s, c, w.now);
      if denial.Some? {
        e := EntryOf(cfg, s1, c, Some(tool), None, DenialLabel(denial.value));
      } else {
        var (s2, outcome) := Execute(cfg, tool, s1, c, w);
        ExecuteKeepsScopes(cfg, tool, s1, c, w);
        e := EntryOf(cfg, s2, c, Some(tool), OutputOf(outcome), ResultOf(outcome));
      }
    }
  }

  /** A declared, registered tool that both brings in untrusted data and carries data out. */
  predicate TwoFaced(cfg: Config, toolRef: string) {
    && toolRef in cfg.registry
    && cfg.registry[toolRef].exfilCapable && cfg.registry[toolRef].sourceTrust.Untrusted?
    && cfg.registry[toolRef].allowedOperations != {}
  }

  /** Such a tool is declared somewhere, and the caps let at least one call through. */
  ghost predicate Exposed(cfg: Config, p: PipelineConfig) {
    && cfg.limits.perTool >= 1 && cfg.limits.perRun >= 1 && cfg.limits.distinct >= 1
    && exists n, toolRef :: DeclaredAt(p, n, toolRef) && TwoFaced(cfg, toolRef)
  }

  lemma DeclaredIsGranted(p: PipelineConfig, n: int, toolRef: string)
    requires DeclaredAt(p, n, toolRef)
    ensures ToolFact(p.steps[n].agent, toolRef) in Footprint(p)
  {
    assert Grants(Agents(p.agents), p.steps[n], ToolFact(p.steps[n].agent, toolRef));
  }

  /** An entry of this run that the receipt will find nothing against. */
  ghost predicate Attested(p: PipelineConfig, runId: string, e: LogEntry) {
    && e.runId == runId && e.step.Some? && DeclaredAt(p, e.step.value, e.toolRef)
    && (Executed(e.result) ==> !(e.exfilCapable && e.scope.Untrusted?))
  }

  /** The call does not reach a two-faced tool. */
  ghost predicate Harmless(cfg: Config, s: State, c: Call, w: World) {
    !TwoFaced(cfg, c.toolRef) || !Admitted(cfg, s, c, w)
  }

  /** Only an admitted call is executed. */
  lemma ExecutedIsAdmitted(cfg: Config, s: State, c: Call, w: World, e: LogEntry)
    requires Invoke(cfg, s, c, w).0.log == s.log + [e] && Executed(e.result)
    ensures Admitted(cfg, s, c, w)
  {
    assert e == Invoke(cfg, s, c, w).0.log[|s.log|];
    if c.toolRef in cfg.registry {
      GatesScope(cfg, cfg.registry[c.toolRef], s, c, w.now);
    }
  }

  lemma CallAttested(cfg: Config, p: PipelineConfig, runId: string, s: State, c: Call, w: World) returns (e: LogEntry)
    requires c.runId == runId && c.step.Some? && DeclaredAt(p, c.step.value, c.toolRef)
    requires Harmless(cfg, s, c, w)
    ensures Invoke(cfg, s, c, w).0.log == s.log + [e] && Attested(p, runId, e)
  {
    e := InvokeEnters(cfg, s, c, w);
    if Executed(e.result) {
      ExecutedIsAdmitted(cfg, s, c, w, e);
    }
  }

  /** With a cap below one nothing is ever admitted. */
  ghost predicate Closed(cfg: Config, s: State) {
    (cfg.limits.perTool < 1 || cfg.limits.perRun < 1 || cfg.limits.distinct < 1) ==> s.runTools == {}
  }

  lemma ClosedAdmitsNothing(cfg: Config, s: State, c: Call, w: World)
    requires Closed(cfg, s)
    requires cfg.limits.perTool < 1 || cfg.limits.perRun < 1 || cfg.limits.distinct < 1
    ensures !Admitted(cfg, s, c, w)
  {
    if c.toolRef in cfg.registry {
      var s1 := Bumped(cfg, cfg.registry[c.toolRef], s, c);
      assert s1.runTools == {};
    }
  }

  lemma CallStaysClosed(cfg: Config, s: State, c: Call, w: World)
    requires Closed(cfg, s)
    ensures Closed(cfg, Invoke(cfg, s, c, w).0)
  {
    Conservation.InvokeCharges(cfg, s, c, w);
    if cfg.limits.perTool < 1 || cfg.limits.perRun < 1 || cfg.limits.distinct < 1 {
      ClosedAdmitsNothing(cfg, s, c, w);
    }
  }

  ghost predicate AllAttested(p: PipelineConfig, runId: string, log: seq<LogEntry>) {
    forall i :: 0 <= i < |log| ==> Attested(p, runId, log[i])
  }

  lemma {:induction false} RunAttested(cfg: Config, p: PipelineConfig, runId: string, effects: Contents, acts: seq<Act>)
    requires !Exposed(cfg, p)
    ensures AllAttested(p, runId, Run(cfg, p, runId, effects, acts).log)
    ensures Closed(cfg, Run(cfg, p, runId, effects, acts))
    decreases |acts|
  {
    if acts != [] {
      var a := acts[|acts| - 1];
      RunAttested(cfg, p, runId, effects, acts[..|acts| - 1]);
      var s := Run(cfg, p, runId, effects, acts[..|acts| - 1]);
      if a.Ask? && DeclaredAt(p, a.step, a.toolRef) {
        var t, c := WithToken(s, runId, a), CallOf(runId, a);
        if cfg.limits.perTool < 1 || cfg.limits.perRun < 1 || cfg.limits.distinct < 1 {
          ClosedAdmitsNothing(cfg, t, c, a.w);
        }
        var e := CallAttested(cfg, p, runId, t, c, a.w);
        CallStaysClosed(cfg, t, c, a.w);
      }
    }
  }

  // ---- the composition ------------------------------------------------------

  ghost predicate AlwaysConfined(cfg: Config, p: PipelineConfig, runId: string, facts: seq<Fact>) {
    forall effects, acts ::
      Judge(ObserveAll(Run(cfg, p, runId, effects, acts).log, StepAgents(p)), facts).status.Confined?
  }

  ghost predicate Lists(facts: seq<Fact>, footprint: set<Fact>) {
    forall f :: f in facts <==> f in footprint
  }

  lemma AttestedIsConfined(p: PipelineConfig, runId: string, log: seq<LogEntry>, facts: seq<Fact>)
    requires AllAttested(p, runId, log) && Lists(facts, Footprint(p))
    ensures OfRun(log, runId) && Judge(ObserveAll(log, StepAgents(p)), facts).status.Confined?
  {
    forall i | 0 <= i < |log| && Executed(log[i].result) ensures EntryConfined(log[i], StepAgents(p), facts) {
      assert Attested(p, runId, log[i]);
      var n := log[i].step.value;
      DeclaredIsGranted(p, n, log[i].toolRef);
      assert ToolFact(p.steps[n].agent, log[i].toolRef) in facts;
    }
    LogConfinedIsJudged(log, StepAgents(p), facts);
    forall e | e in log ensures e.runId == runId {
      var i :| 0 <= i < |log| && log[i] == e;
      assert Attested(p, runId, log[i]);
    }
  }

  /** A two-faced tool passes the sink gate in a trusted scope and is then logged in the scope it has just tainted. */
  lemma OneCallBreaches(cfg: Config, p: PipelineConfig, runId: string, facts: seq<Fact>, n: int, toolRef: string)
    requires cfg.limits.perTool >= 1 && cfg.limits.perRun >= 1 && cfg.limits.distinct >= 1
    requires DeclaredAt(p, n, toolRef) && TwoFaced(cfg, toolRef)
    ensures !AlwaysConfined(cfg, p, runId, facts)
  {
    var operation :| operation in cfg.registry[toolRef].allowedOperations;
    var seed := Seed(n, Trusted);
    var ask := Ask(n, toolRef, operation, "", "", 0.0, World(0.0, Lands, Returns(""), Lands));
    var effects := Contents(map[], map[]);
    assert [seed, ask][..1] == [seed] && [seed][..0] == [];
    var s := Serve(cfg, p, runId, Run(cfg, p, runId, effects, []), seed);
    assert Run(cfg, p, runId, effects, [seed]) == s;
    AskBreaches(cfg, p, runId, s, ask, facts);
    assert Run(cfg, p, runId, effects, [seed, ask]) == Serve(cfg, p, runId, s, ask);
  }

  ghost predicate AtStart(s: State) {
    s.counts == map[] && s.runTotal == 0 && s.runTools == {} && s.effects.entries == map[] && s.log == []
  }

  lemma AskBreaches(cfg: Config, p: PipelineConfig, runId: string, s: State, ask: Act, facts: seq<Fact>)
    requires cfg.limits.perTool >= 1 && cfg.limits.perRun >= 1 && cfg.limits.distinct >= 1
    requires ask.Ask? && DeclaredAt(p, ask.step, ask.toolRef) && TwoFaced(cfg, ask.toolRef)
    requires ask.operation in cfg.registry[ask.toolRef].allowedOperations
    requires AtStart(s) && ScopeIn(cfg, s, CallOf(runId, ask)).Trusted?
    requires ask.w.pending.Lands? && ask.w.success.Lands? && ask.w.handler.Returns? && ask.w.now <= ask.expiresAt
    ensures !Judge(ObserveAll(Serve(cfg, p, runId, s, ask).log, StepAgents(p)), facts).status.Confined?
  {
    var t, c := WithToken(s, runId, ask), CallOf(runId, ask);
    TwoFacedIsAdmitted(cfg, t, c, ask.w);
    var e := InvokeEnters(cfg, t, c, ask.w);
    var log := Serve(cfg, p, runId, s, ask).log;
    assert log == [e];
    LogConfinedIsJudged(log, StepAgents(p), facts);
    assert !EntryConfined(log[0], StepAgents(p), facts);
  }

  lemma TwoFacedIsAdmitted(cfg: Config, s: State, c: Call, w: World)
    requires cfg.limits.perTool >= 1 && cfg.limits.perRun >= 1 && cfg.limits.distinct >= 1
    requires TwoFaced(cfg, c.toolRef) && c.operation in cfg.registry[c.toolRef].allowedOperations
    requires ScopeIn(cfg, s, c).Trusted?
    requires AtStart(s) && c.step.Some?
    requires Refusal(s.records, c.token, c.toolRef, c.runId, c.operation, w.now).None?
    requires w.pending.Lands? && w.success.Lands? && w.handler.Returns?
    ensures |Invoke(cfg, s, c, w).0.log| == |s.log| + 1
    ensures Executed(Invoke(cfg, s, c, w).0.log[|s.log|].result)
  {
  }

  /** Every run of every agent is attested as confined, except exactly when some declared tool is two-faced. */
  lemma EnforcementIsAttested(cfg: Config, p: PipelineConfig, runId: string, facts: seq<Fact>)
    requires Lists(facts, Footprint(p))
    ensures AlwaysConfined(cfg, p, runId, facts) <==> !Exposed(cfg, p)
  {
    if Exposed(cfg, p) {
      var n, toolRef :| DeclaredAt(p, n, toolRef) && TwoFaced(cfg, toolRef);
      OneCallBreaches(cfg, p, runId, facts, n, toolRef);
    } else {
      forall effects, acts
        ensures Judge(ObserveAll(Run(cfg, p, runId, effects, acts).log, StepAgents(p)), facts).status.Confined?
      {
        RunAttested(cfg, p, runId, effects, acts);
        AttestedIsConfined(p, runId, Run(cfg, p, runId, effects, acts).log, facts);
      }
    }
  }

  /** End to end: the receipt minted for a run verifies as confined, against its log and the manifest's footprint. */
  method MintAndVerify(h: Hashes, cfg: Config, p: PipelineConfig, runId: string, status: RunStatus,
                       ghost effects: Contents, ghost acts: seq<Act>, log: seq<LogEntry>, facts: seq<Fact>)
    returns (v: Verdict)
    requires log == Run(cfg, p, runId, effects, acts).log
    requires Lists(facts, Footprint(p)) && !Exposed(cfg, p)
    ensures v == Verdict(Confined, [], [])
  {
    RunAttested(cfg, p, runId, effects, acts);
    AttestedIsConfined(p, runId, log, facts);
    MintedVerifies(h, runId, status, log, StepAgents(p), Some(facts));
    var r := Mint(h, runId, status, log, StepAgents(p), Some(facts));
    v := Verify(h, r, Some(log), Some(h.footprint(multiset(facts))));
  }
}
