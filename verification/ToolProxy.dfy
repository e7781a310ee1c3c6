/** The tool proxy: the one object every tool call of a run goes through. */
module ToolProxy {

  import opened Wrappers
  import opened Taint
  import opened Tokens
  import opened EffectLedger
  import opened ToolCalls

  class ToolProxy {
    const registry: map<string, Tool>
    const limits: Limits
    const issuer: TokenIssuer
    const taint: TaintLedger
    const effects: InMemoryEffectLedger
    const ledgered: bool
    var effectCursor: map<(string, Step), nat>
    var counts: map<CountKey, nat>
    var runTotal: nat
    var runTools: set<string>
    var log: seq<LogEntry>

    ghost function View(): State
      reads this, issuer, taint, effects, effects.outside
    {
      State(taint.scopes, issuer.records, effects.View(), effects.outside.events,
            effectCursor, counts, runTotal, runTools, log)
    }

    function Settings(): Config {
      Config(registry, limits, taint.managed, ledgered)
    }

    /** With `ledgered` off the proxy keeps no effect ledger, and `effects` is never touched. */
    constructor (registry: map<string, Tool>, limits: Limits, issuer: TokenIssuer, taint: TaintLedger,
                 effects: InMemoryEffectLedger, ledgered: bool)
      requires limits.perRun >= 1 && limits.distinct >= 1
      ensures this.registry == registry && this.limits == limits && this.issuer == issuer && this.taint == taint
      ensures this.effects == effects && this.ledgered == ledgered
      ensures effectCursor == map[] && counts == map[] && runTotal == 0 && runTools == {} && log == []
    {
      this.registry, this.limits, this.issuer, this.taint := registry, limits, issuer, taint;
      this.effects, this.ledgered := effects, ledgered;
      effectCursor, counts, runTotal, runTools, log := map[], map[], 0, {}, [];
    }

    function EffectsConsumed(runId: string, step: Step): (n: nat)
      reads this
      ensures n == CursorAt(effectCursor, (runId, step))
    {
      if (runId, step) in effectCursor then effectCursor[(runId, step)] else 0
    }

    method RunGates(tool: Tool, c: Call, now: real) returns (denial: Option<Failure>)
      modifies this, issuer, taint
      ensures (View(), denial) == Gates(Settings(), tool, old(View()), c, now)
    {
      if tool.exfilCapable && taint.Scope(c.runId, c.step).Untrusted? {
        return Some(TaintFailure);
      }
      if tool.sourceTrust.Untrusted? {
        taint.Observe(c.runId, c.step, Untrusted);
      }
      var refusal := issuer.Consume(c.token, c.toolRef, c.runId, c.operation, now);
      if refusal.Some? {
        return Some(TokenFailure);
      }
      if c.operation !in tool.allowedOperations {
        return Some(AccessFailure);
      }
      denial := CountCall(c);
    }

    /** The per-step breaker counts the call that breaches it; the run-level caps are checked before they count. */
    method CountCall(c: Call) returns (denial: Option<Failure>)
      modifies this
      ensures (View(), denial) == Breakers(Settings(), old(View()), c)
    {
      var key := (c.runId, c.step, c.toolRef);
      counts := counts[key := CountOf(counts, key) + 1];
      if counts[key] > limits.perTool {
        return Some(BreakerFailure);
      }
      if runTotal + 1 > limits.perRun {
        return Some(BreakerFailure);
      }
      if c.toolRef !in runTools && |runTools| + 1 > limits.distinct {
        return Some(BreakerFailure);
      }
      runTotal := runTotal + 1;
      runTools := runTools + {c.toolRef};
      denial := None;
    }

    method ExecuteWithLedger(tool: Tool, c: Call, w: World) returns (outcome: Outcome)
      modifies this, effects, effects.outside
      ensures (View(), outcome) == Execute(Settings(), tool, old(View()), c, w)
    {
      if !ledgered || !tool.effectful {
        return Handled(w.handler);
      }
      var position := EffectsConsumed(c.runId, c.step);
      effectCursor := effectCursor[(c.runId, c.step) := position + 1];
      var key := EffectKey(c.runId, c.step, position);
      var entry := effects.EntryAt(key);
      if entry.Some? {
        return Replay(entry.value, c);
      }
      if w.pending.Fails? || c.step.None? {
        return Raised(LedgerWrite);
      }
      effects.RecordPending(key, c.toolRef, c.inputHash);
      if w.pending.LandsThenRaises? {
        return Raised(LedgerWrite);
      }
      effects.outside.Happens(Fired(key, c.toolRef, c.inputHash, w.handler));
      if w.handler.Raises? {
        return Raised(w.handler.failure);
      }
      if w.success.Fails? {
        return Raised(LedgerWrite);
      }
      var ok := effects.RecordSucceeded(key, w.handler.output);
      if w.success.LandsThenRaises? {
        return Raised(LedgerWrite);
      }
      outcome := Returned(w.handler.output, false);
    }

    method Invoke(c: Call, w: World) returns (outcome: Outcome)
      modifies this, issuer, taint, effects, effects.outside
      ensures (View(), outcome) == ToolCalls.Invoke(Settings(), old(View()), c, w)
    {
      if c.toolRef !in registry {
        Log(c, None, None, DeniedScope);
        return Raised(AccessFailure);
      }
      var tool := registry[c.toolRef];
      var denial := RunGates(tool, c, w.now);
      if denial.Some? {
        Log(c, Some(tool), None, DenialLabel(denial.value));
        return Raised(denial.value);
      }
      outcome := ExecuteWithLedger(tool, c, w);
      match outcome
      case Raised(f) => Log(c, Some(tool), None, DenialLabel(f));
      case Returned(output, replayed) => Log(c, Some(tool), Some(output), if replayed then Replayed else Done);
    }

    method Log(c: Call, tool: Option<Tool>, output: Option<string>, result: Disposition)
      modifies this
      ensures View() == Logged(Settings(), old(View()), c, tool, output, result)
    {
      log := log + [LogEntry(
        c.toolRef, c.runId, c.operation, c.inputHash, output, result, c.step, taint.Scope(c.runId, c.step),
        if tool.Some? then Some(tool.value.kind) else None, tool.Some? && tool.value.exfilCapable)];
    }
  }
}
