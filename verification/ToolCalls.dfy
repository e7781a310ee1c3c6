/** One tool call, on values: the gates it passes, the handler behind them, and the log entry it leaves. */
module ToolCalls {

  import opened Wrappers
  import opened Taint
  import opened Tokens
  import opened EffectLedger

  // ---- data -----------------------------------------------------------------

  datatype Tool = Tool(
    allowedOperations: set<string>, kind: string, sourceTrust: Trust, exfilCapable: bool, effectful: bool)

  datatype Limits = Limits(perTool: int, perRun: int, distinct: int)

  datatype Config = Config(registry: map<string, Tool>, limits: Limits, managed: bool, ledgered: bool)

  datatype Call = Call(toolRef: string, inputHash: string, token: Token, runId: string, step: Step, operation: string)

  /** What the surroundings do during one call: the clock, the two ledger writes, and the handler. */
  datatype World = World(now: real, pending: Write, handler: HandlerResult, success: Write)

  /** A durable write takes effect, or raises, or does both. */
  datatype Write = Lands | LandsThenRaises | Fails

  datatype Disposition =
    | Done | Replayed | Errored
    | DeniedToken | DeniedBreaker | DeniedScope | DeniedTaint | Denied

  datatype LogEntry = LogEntry(
    toolRef: string, runId: string, operation: string, inputHash: string, output: Option<string>,
    result: Disposition, step: Step, scope: Trust, kind: Option<string>, exfilCapable: bool)

  datatype Outcome = Returned(output: string, replayed: bool) | Raised(failure: Failure)

  type CountKey = (string, Step, string)

  datatype State = State(
    scopes: Scopes,
    records: Records,
    effects: Contents,
    events: seq<Event>,
    cursor: map<(string, Step), nat>,
    counts: map<CountKey, nat>,
    runTotal: nat,
    runTools: set<string>,
    log: seq<LogEntry>)

  function DenialLabel(f: Failure): Disposition {
    match f
    case TokenFailure => DeniedToken
    case BreakerFailure => DeniedBreaker
    case AccessFailure => DeniedScope
    case TaintFailure => DeniedTaint
    case OtherToolFailure => Denied
    case _ => Errored
  }

  function CountOf(counts: map<CountKey, nat>, key: CountKey): nat {
    if key in counts then counts[key] else 0
  }

  function CursorAt(cursor: map<(string, Step), nat>, key: (string, Step)): nat {
    if key in cursor then cursor[key] else 0
  }

  function ScopeIn(cfg: Config, s: State, c: Call): Trust {
    ScopeOf(cfg.managed, s.scopes, (c.runId, c.step))
  }

  // ---- the gates, on values -------------------------------------------------

  /** Gates 1 to 5b, in order; the state is what they left behind when one of them denies. */
  function Gates(cfg: Config, tool: Tool, s: State, c: Call, now: real): (State, Option<Failure>) {
    if tool.exfilCapable && ScopeIn(cfg, s, c).Untrusted? then (s, Some(TaintFailure))
    else
      var s1 := Bumped(cfg, tool, s, c);
      if Refusal(s1.records, c.token, c.toolRef, c.runId, c.operation, now).Some? then (s1, Some(TokenFailure))
      else
        var s2 := s1.(records := Spent(s1.records, c.token.secret));
        if c.operation !in tool.allowedOperations then (s2, Some(AccessFailure))
        else Breakers(cfg, s2, c)
  }

  /** Gate 2: a tool that reads untrusted sources taints the step, whether or not the call is then denied. */
  function Bumped(cfg: Config, tool: Tool, s: State, c: Call): State {
    if tool.sourceTrust.Untrusted?
    then s.(scopes := Observed(cfg.managed, s.scopes, (c.runId, c.step), Untrusted))
    else s
  }

  /** Gates 5 and 5b. The per-step count includes the call that breaches it, the run counters do not. */
  function Breakers(cfg: Config, s: State, c: Call): (State, Option<Failure>) {
    var key := (c.runId, c.step, c.toolRef);
    var s' := s.(counts := s.counts[key := CountOf(s.counts, key) + 1]);
    if s'.counts[key] > cfg.limits.perTool then (s', Some(BreakerFailure))
    else if s.runTotal + 1 > cfg.limits.perRun then (s', Some(BreakerFailure))
    else if c.toolRef !in s.runTools && |s.runTools| + 1 > cfg.limits.distinct then (s', Some(BreakerFailure))
    else (s'.(runTotal := s.runTotal + 1, runTools := s.runTools + {c.toolRef}), None)
  }

  // ---- the handler behind the ledger, on values -----------------------------

  function Handled(r: HandlerResult): Outcome {
    match r
    case Returns(output) => Returned(output, false)
    case Raises(f) => Raised(f)
  }

  function Execute(cfg: Config, tool: Tool, s: State, c: Call, w: World): (State, Outcome) {
    if !cfg.ledgered || !tool.effectful then (s, Handled(w.handler))
    else
      var at := (c.runId, c.step);
      var key := EffectKey(c.runId, c.step, CursorAt(s.cursor, at));
      var s1 := s.(cursor := s.cursor[at := key.position + 1]);
      if key !in s.effects.entries then FreshEffect(s1, key, c, w)
      else (s1, Replay(s.effects.entries[key], c))
  }

  /** A recorded effect is returned again only to the same call; anything else halts. */
  function Replay(e: Entry, c: Call): Outcome {
    if e.status.Pending? then Raised(Unresolved)
    else if e.toolRef == c.toolRef && e.inputHash == c.inputHash then
      Returned(if e.output.Some? then e.output.value else "", true)
    else Raised(Divergence)
  }

  /** Pending entry, handler, success entry: each only after the one before. */
  function FreshEffect(s: State, key: EffectKey, c: Call, w: World): (State, Outcome) {
    if w.pending.Fails? || c.step.None? then (s, Raised(LedgerWrite))
    else
      var s1 := s.(effects := AfterPending(s.effects, key, c.toolRef, c.inputHash),
                   events := s.events + [Pended(key, c.toolRef, c.inputHash)]);
      if w.pending.LandsThenRaises? then (s1, Raised(LedgerWrite))
      else
        var s2 := s1.(events := s1.events + [Fired(key, c.toolRef, c.inputHash, w.handler)]);
        if w.handler.Raises? then (s2, Raised(w.handler.failure))
        else if w.success.Fails? then (s2, Raised(LedgerWrite))
        else
          (s2.(effects := AfterSucceeded(s2.effects, key, w.handler.output),
               events := s2.events + [Recorded(key, w.handler.output)]),
           if w.success.LandsThenRaises? then Raised(LedgerWrite) else Returned(w.handler.output, false))
  }

  // ---- one call, on values --------------------------------------------------

  function EntryOf(cfg: Config, s: State, c: Call, tool: Option<Tool>, output: Option<string>, result: Disposition): LogEntry {
    LogEntry(
      c.toolRef, c.runId, c.operation, c.inputHash, output, result, c.step, ScopeIn(cfg, s, c),
      if tool.Some? then Some(tool.value.kind) else None, tool.Some? && tool.value.exfilCapable)
  }

  function Logged(cfg: Config, s: State, c: Call, tool: Option<Tool>, output: Option<string>, result: Disposition): State {
    s.(log := s.log + [EntryOf(cfg, s, c, tool, output, result)])
  }

  function OutputOf(o: Outcome): Option<string> {
    if o.Returned? then Some(o.output) else None
  }

  function ResultOf(o: Outcome): Disposition {
    if o.Raised? then DenialLabel(o.failure) else if o.replayed then Replayed else Done
  }

  function Invoke(cfg: Config, s: State, c: Call, w: World): (State, Outcome) {
    if c.toolRef !in cfg.registry then
      (Logged(cfg, s, c, None, None, DeniedScope), Raised(AccessFailure))
    else
      var tool := cfg.registry[c.toolRef];
      var (s1, denial) := Gates(cfg, tool, s, c, w.now);
      if denial.Some? then
        (Logged(cfg, s1, c, Some(tool), None, DenialLabel(denial.value)), Raised(denial.value))
      else
        var (s2, outcome) := Execute(cfg, tool, s1, c, w);
        (Logged(cfg, s2, c, Some(tool), OutputOf(outcome), ResultOf(outcome)), outcome)
  }

  /** The call got past every gate, so that its handler or its recorded effect was reached. */
  predicate Admitted(cfg: Config, s: State, c: Call, w: World) {
    c.toolRef in cfg.registry && Gates(cfg, cfg.registry[c.toolRef], s, c, w.now).1.None?
  }
}
