/** What one tool call comes to, case by case: which gate denies it, what that leaves behind, and what the log says. */
module CallOutcomes {

  import opened Wrappers
  import opened Taint
  import opened Tokens
  import opened EffectLedger
  import opened ToolCalls

  /** The scope of the step is Untrusted, or unknown where scopes are managed. */
  predicate InUntrustedScope(cfg: Config, s: State, c: Call) {
    var key := (c.runId, c.step);
    if key in s.scopes then s.scopes[key].Untrusted? else cfg.managed
  }

  /** The sink gate bars the call. */
  predicate Barred(cfg: Config, s: State, c: Call)
    requires c.toolRef in cfg.registry
  {
    cfg.registry[c.toolRef].exfilCapable && InUntrustedScope(cfg, s, c)
  }

  predicate HasToken(s: State, c: Call, now: real) {
    c.token.secret in s.records && Usable(s.records[c.token.secret], c.toolRef, c.runId, c.operation, now)
  }

  function Counted(s: State, c: Call): nat {
    var key := (c.runId, c.step, c.toolRef);
    if key in s.counts then s.counts[key] else 0
  }

  /** One more call would be one too many, for the step, for the run, or for the number of tools. */
  predicate Full(cfg: Config, s: State, c: Call) {
    || Counted(s, c) >= cfg.limits.perTool
    || s.runTotal >= cfg.limits.perRun
    || (c.toolRef !in s.runTools && |s.runTools| >= cfg.limits.distinct)
  }

  /** Which gate denies a call: the first that has a reason to. */
  lemma DenialExactly(cfg: Config, s: State, c: Call, now: real)
    requires c.toolRef in cfg.registry
    ensures
      var denial := Gates(cfg, cfg.registry[c.toolRef], s, c, now).1;
      var barred, paid, allowed := Barred(cfg, s, c), HasToken(s, c, now), c.operation in cfg.registry[c.toolRef].allowedOperations;
      && (denial == Some(TaintFailure) <==> barred)
      && (denial == Some(TokenFailure) <==> !barred && !paid)
      && (denial == Some(AccessFailure) <==> !barred && paid && !allowed)
      && (denial == Some(BreakerFailure) <==> !barred && paid && allowed && Full(cfg, s, c))
      && (denial.None? <==> !barred && paid && allowed && !Full(cfg, s, c))
  {
  }

  /** What the gates leave behind: taint of an untrusted source once the sink gate is passed, a spent token once the token
      is accepted, a count once the operation is, and the totals of the run only when nothing denies. */
  lemma GatesLeave(cfg: Config, s: State, c: Call, now: real)
    requires c.toolRef in cfg.registry
    ensures
      var (s', denial) := Gates(cfg, cfg.registry[c.toolRef], s, c, now);
      var barred, paid, allowed := Barred(cfg, s, c), HasToken(s, c, now), c.operation in cfg.registry[c.toolRef].allowedOperations;
      && s'.scopes == (if !barred && cfg.registry[c.toolRef].sourceTrust.Untrusted?
                       then s.scopes[(c.runId, c.step) := Untrusted] else s.scopes)
      && (if barred || !paid then s'.records == s.records
          else s'.records == s.records[c.token.secret := s.records[c.token.secret].(used := true)])
      && s'.counts == (if barred || !paid || !allowed then s.counts
                       else s.counts[(c.runId, c.step, c.toolRef) := Counted(s, c) + 1])
      && s'.runTotal == (if denial.None? then s.runTotal + 1 else s.runTotal)
      && s'.runTools == (if denial.None? then s.runTools + {c.toolRef} else s.runTools)
      && s'.effects == s.effects && s'.events == s.events && s'.cursor == s.cursor && s'.log == s.log
  {
    var tool := cfg.registry[c.toolRef];
    RefusalExactly(s.records, c.token, c.toolRef, c.runId, c.operation, now);
    BumpLeaves(cfg, tool, s, c);
    hide Refusal, Usable, Bumped;
    if !Barred(cfg, s, c) && HasToken(s, c, now) {
      var s2 := Bumped(cfg, tool, s, c).(records := Spent(s.records, c.token.secret));
      BreakersLeave(cfg, s2, c);
      hide Breakers;
    }
  }

  lemma BumpLeaves(cfg: Config, tool: Tool, s: State, c: Call)
    ensures
      Bumped(cfg, tool, s, c) ==
        s.(scopes := if tool.sourceTrust.Untrusted? then s.scopes[(c.runId, c.step) := Untrusted] else s.scopes)
  {
  }

  lemma BreakersLeave(cfg: Config, s: State, c: Call)
    ensures
      var (s', denial) := Breakers(cfg, s, c);
      && s' == s.(counts := s.counts[(c.runId, c.step, c.toolRef) := Counted(s, c) + 1],
                  runTotal := if denial.None? then s.runTotal + 1 else s.runTotal,
                  runTools := if denial.None? then s.runTools + {c.toolRef} else s.runTools)
  {
  }

  /** The name under which a failure is logged. */
  predicate LoggedAs(f: Failure, result: Disposition) {
    && (result.DeniedToken? <==> f.TokenFailure?)
    && (result.DeniedBreaker? <==> f.BreakerFailure?)
    && (result.DeniedScope? <==> f.AccessFailure?)
    && (result.DeniedTaint? <==> f.TaintFailure?)
    && (result.Denied? <==> f.OtherToolFailure?)
    && (result.Errored? <==> f.Divergence? || f.Unresolved? || f.LedgerWrite? || f.OtherFailure?)
  }

  /** The entry says what the call was, under which scope, and what became of it: `Done` with the output of the handler,
      `Replayed` with a recorded one, or the name of the failure. */
  predicate Tells(cfg: Config, s: State, c: Call, outcome: Outcome, e: LogEntry) {
    && e.toolRef == c.toolRef && e.runId == c.runId && e.step == c.step
    && e.operation == c.operation && e.inputHash == c.inputHash
    && (e.scope.Untrusted? <==> InUntrustedScope(cfg, s, c))
    && (if c.toolRef in cfg.registry
        then e.kind == Some(cfg.registry[c.toolRef].kind) && e.exfilCapable == cfg.registry[c.toolRef].exfilCapable
        else e.kind == None && !e.exfilCapable && outcome == Raised(AccessFailure))
    && (e.result.Done? <==> outcome.Returned? && !outcome.replayed)
    && (e.result.Replayed? <==> outcome.Returned? && outcome.replayed)
    && (outcome.Returned? ==> e.output == Some(outcome.output))
    && (outcome.Raised? ==> e.output == None && LoggedAs(outcome.failure, e.result))
  }

  lemma EntryTells(cfg: Config, s: State, c: Call, outcome: Outcome)
    requires c.toolRef in cfg.registry
    ensures Tells(cfg, s, c, outcome, EntryOf(cfg, s, c, Some(cfg.registry[c.toolRef]), OutputOf(outcome), ResultOf(outcome)))
  {
  }

  /** Every call leaves one entry, and it tells of the call. */
  lemma InvokeLogs(cfg: Config, s: State, c: Call, w: World)
    ensures
      var (s', outcome) := Invoke(cfg, s, c, w);
      && |s'.log| == |s.log| + 1 && s'.log[..|s.log|] == s.log
      && Tells(cfg, s', c, outcome, s'.log[|s.log|])
  {
    if c.toolRef in cfg.registry {
      var tool := cfg.registry[c.toolRef];
      var (s1, denial) := Gates(cfg, tool, s, c, w.now);
      var (s2, outcome) := Execute(cfg, tool, s1, c, w);
      GatesLeave(cfg, s, c, w.now);
      ExecuteSpares(cfg, tool, s1, c, w);
      hide Gates, Execute, Barred, HasToken;
      if denial.Some? {
        EntryTells(cfg, s1, c, Raised(denial.value));
        ScopeKept(cfg, s1, Invoke(cfg, s, c, w).0, c, Raised(denial.value));
      } else {
        EntryTells(cfg, s2, c, outcome);
        ScopeKept(cfg, s2, Invoke(cfg, s, c, w).0, c, outcome);
      }
      hide Tells, EntryOf, ResultOf;
    }
  }

  lemma ScopeKept(cfg: Config, s: State, s': State, c: Call, outcome: Outcome)
    requires s'.scopes == s.scopes
    ensures forall e :: Tells(cfg, s, c, outcome, e) ==> Tells(cfg, s', c, outcome, e)
  {
    hide LoggedAs;
  }

  lemma ExecuteSpares(cfg: Config, tool: Tool, s: State, c: Call, w: World)
    ensures Execute(cfg, tool, s, c, w).0.log == s.log && Execute(cfg, tool, s, c, w).0.scopes == s.scopes
  {
  }

  // ---- behind the gates -----------------------------------------------------

  /** Run, step and place of the call among the effectful calls of its step in this attempt. */
  function PlaceOf(s: State, c: Call): EffectKey {
    EffectKey(c.runId, c.step, if (c.runId, c.step) in s.cursor then s.cursor[(c.runId, c.step)] else 0)
  }

  /** Without a ledger, or for a tool without effects, the handler decides, and nothing is recorded. */
  lemma PlainCallExactly(cfg: Config, tool: Tool, s: State, c: Call, w: World)
    requires !cfg.ledgered || !tool.effectful
    ensures
      Execute(cfg, tool, s, c, w) ==
        (s, match w.handler case Returns(output) => Returned(output, false) case Raises(failure) => Raised(failure))
  {
  }

  /** A call whose place is taken runs no handler and records nothing: it is unresolved if its effect is pending, gets the
      recorded output if it is the call that was recorded, and diverges if it is another. */
  lemma RecordedCallExactly(cfg: Config, tool: Tool, s: State, c: Call, w: World)
    requires cfg.ledgered && tool.effectful && PlaceOf(s, c) in s.effects.entries
    ensures
      var key, e := PlaceOf(s, c), s.effects.entries[PlaceOf(s, c)];
      var (s', outcome) := Execute(cfg, tool, s, c, w);
      var same := e.toolRef == c.toolRef && e.inputHash == c.inputHash;
      && s' == s.(cursor := s.cursor[(c.runId, c.step) := key.position + 1])
      && (outcome == Raised(Unresolved) <==> e.status.Pending?)
      && (outcome == Raised(Divergence) <==> e.status.Succeeded? && !same)
      && (outcome.Returned? <==> e.status.Succeeded? && same)
      && (outcome.Returned? ==> outcome.replayed && (e.output.Some? ==> outcome.output == e.output.value))
  {
  }

  /** How far a new effectful call gets: the pending entry is written, the handler is run, the success is written. */
  predicate Begins(c: Call, w: World) {
    c.step.Some? && !w.pending.Fails?
  }

  predicate Fires(c: Call, w: World) {
    c.step.Some? && w.pending.Lands?
  }

  predicate Finishes(c: Call, w: World) {
    Fires(c, w) && w.handler.Returns? && !w.success.Fails?
  }

  /** A call whose place is free: the handler runs exactly if the pending entry was written without an error, and any failed
      write fails the call. */
  lemma NewCallExactly(cfg: Config, tool: Tool, s: State, c: Call, w: World)
    requires cfg.ledgered && tool.effectful && PlaceOf(s, c) !in s.effects.entries
    ensures
      var key := PlaceOf(s, c);
      var (s', outcome) := Execute(cfg, tool, s, c, w);
      && s'.cursor == s.cursor[(c.runId, c.step) := key.position + 1]
      && s'.events == s.events
           + (if Begins(c, w) then [Pended(key, c.toolRef, c.inputHash)] else [])
           + (if Fires(c, w) then [Fired(key, c.toolRef, c.inputHash, w.handler)] else [])
           + (if Finishes(c, w) then [Recorded(key, w.handler.output)] else [])
      && outcome == (if Fires(c, w) && w.handler.Raises? then Raised(w.handler.failure)
                     else if Finishes(c, w) && w.success.Lands? then Returned(w.handler.output, false)
                     else Raised(LedgerWrite))
  {
    hide AfterPending, AfterSucceeded;
  }

  /** Its entry is pending from then on, until the success is recorded with the output, exactly if the handler returned and
      that write took effect; and it is one more recorded effect of its step. */
  lemma NewCallRecords(cfg: Config, tool: Tool, s: State, c: Call, w: World)
    requires cfg.ledgered && tool.effectful && PlaceOf(s, c) !in s.effects.entries
    ensures
      var key, at := PlaceOf(s, c), (c.runId, c.step);
      var effects := Execute(cfg, tool, s, c, w).0.effects;
      && (!Begins(c, w) ==> effects == s.effects)
      && (Begins(c, w) ==>
            && effects.entries ==
                 s.effects.entries[key := Entry(c.toolRef, c.inputHash, if Finishes(c, w) then Succeeded else Pending,
                                               if Finishes(c, w) then Some(w.handler.output) else None)]
            && effects.counts == s.effects.counts[at := (if at in s.effects.counts then s.effects.counts[at] else 0) + 1])
  {
    NewCallEffects(cfg, tool, s, c, w);
    hide Execute;
  }

  lemma NewCallEffects(cfg: Config, tool: Tool, s: State, c: Call, w: World)
    requires cfg.ledgered && tool.effectful && PlaceOf(s, c) !in s.effects.entries
    ensures
      var key := PlaceOf(s, c);
      var pended := AfterPending(s.effects, key, c.toolRef, c.inputHash);
      Execute(cfg, tool, s, c, w).0.effects ==
        if !Begins(c, w) then s.effects else if Finishes(c, w) then AfterSucceeded(pended, key, w.handler.output) else pended
  {
    hide AfterPending, AfterSucceeded;
  }
}
