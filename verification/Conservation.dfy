/** Tokens and circuit breakers over a whole run: what one proxy admits, and what each admission costs. */
module Conservation {

  import opened Wrappers
  import opened Taint
  import opened Tokens
  import opened EffectLedger
  import opened ToolCalls

  datatype Act =
    | Issue(secret: string, rec: Record)
    | Seed(runId: string, step: Step, trust: Trust)
    | Make(c: Call, w: World)

  /** A proxy as it is built for one run, over whatever the effect ledger holds already. */
  function NewProxy(effects: Contents): State {
    State(map[], map[], effects, [], map[], map[], 0, {}, [])
  }

  function Apply(cfg: Config, s: State, a: Act): State {
    match a
    case Issue(secret, rec) => s.(records := s.records[secret := rec.(used := false)])
    case Seed(runId, step, trust) => s.(scopes := Seeded(s.scopes, (runId, step), trust))
    case Make(c, w) => Invoke(cfg, s, c, w).0
  }

  function After(cfg: Config, effects: Contents, acts: seq<Act>): State {
    if acts == [] then NewProxy(effects)
    else Apply(cfg, After(cfg, effects, acts[..|acts| - 1]), acts[|acts| - 1])
  }

  /** The admitted calls among these acts, in order. */
  function AdmittedCalls(cfg: Config, effects: Contents, acts: seq<Act>): seq<Call> {
    if acts == [] then []
    else
      var before, a := acts[..|acts| - 1], acts[|acts| - 1];
      AdmittedCalls(cfg, effects, before)
      + if a.Make? && Admitted(cfg, After(cfg, effects, before), a.c, a.w) then [a.c] else []
  }

  /** No two tokens are issued with the same secret. */
  ghost predicate FreshSecrets(cfg: Config, effects: Contents, acts: seq<Act>) {
    forall n :: 0 <= n < |acts| && acts[n].Issue? ==> acts[n].secret !in After(cfg, effects, acts[..n]).records
  }

  // ---- one call -------------------------------------------------------------

  /** What an admission costs. */
  ghost predicate Charged(cfg: Config, s: State, c: Call, s': State) {
    var key := (c.runId, c.step, c.toolRef);
    && c.token.secret in s.records && !s.records[c.token.secret].used
    && s'.records == Spent(s.records, c.token.secret)
    && s'.runTotal == s.runTotal + 1 <= cfg.limits.perRun
    && s'.runTools == s.runTools + {c.toolRef}
    && (c.toolRef !in s.runTools ==> |s'.runTools| <= cfg.limits.distinct)
    && s'.counts == s.counts[key := CountOf(s.counts, key) + 1]
    && CountOf(s'.counts, key) <= cfg.limits.perTool
  }

  /** What a refusal may cost: the token, and a place in the per-step count. */
  ghost predicate Refused(s: State, c: Call, s': State) {
    var key := (c.runId, c.step, c.toolRef);
    && s'.runTotal == s.runTotal && s'.runTools == s.runTools
    && (s'.records == s.records || (c.token.secret in s.records && s'.records == Spent(s.records, c.token.secret)))
    && (s'.counts == s.counts || s'.counts == s.counts[key := CountOf(s.counts, key) + 1])
  }

  lemma GatesCharge(cfg: Config, tool: Tool, s: State, c: Call, now: real)
    ensures
      var (s', denial) := Gates(cfg, tool, s, c, now);
      if denial.None? then Charged(cfg, s, c, s') else Refused(s, c, s')
  {
  }

  lemma ExecuteCostsNothing(cfg: Config, tool: Tool, s: State, c: Call, w: World)
    ensures
      var s' := Execute(cfg, tool, s, c, w).0;
      s'.records == s.records && s'.counts == s.counts && s'.runTotal == s.runTotal && s'.runTools == s.runTools
  {
  }

  lemma InvokeCharges(cfg: Config, s: State, c: Call, w: World)
    ensures
      var s' := Invoke(cfg, s, c, w).0;
      if Admitted(cfg, s, c, w) then Charged(cfg, s, c, s') else Refused(s, c, s')
  {
    if c.toolRef in cfg.registry {
      var tool := cfg.registry[c.toolRef];
      var (s1, denial) := Gates(cfg, tool, s, c, w.now);
      GatesCharge(cfg, tool, s, c, w.now);
      ExecuteCostsNothing(cfg, tool, s1, c, w);
    }
  }

  /** The sink gate comes first: refusing for taint leaves only a log entry, and it does so exactly when
      an exfil-capable tool is called in untrusted scope. */
  lemma TaintDenialIsFree(cfg: Config, s: State, c: Call, w: World)
    requires c.toolRef in cfg.registry
    ensures
      var tool := cfg.registry[c.toolRef];
      var (s', outcome) := Invoke(cfg, s, c, w);
      && ((tool.exfilCapable && ScopeIn(cfg, s, c).Untrusted?)
          <==> Gates(cfg, tool, s, c, w.now).1 == Some(TaintFailure))
      && (Gates(cfg, tool, s, c, w.now).1 == Some(TaintFailure) ==>
            outcome == Raised(TaintFailure) && s' == s.(log := s'.log) && |s'.log| == |s.log| + 1)
  {
  }

  // ---- a whole run ----------------------------------------------------------

  function ToolsOf(calls: seq<Call>): set<string> {
    set c | c in calls :: c.toolRef
  }

  /** How often one tool was admitted in one step of one run. */
  function Times(calls: seq<Call>, key: CountKey): nat {
    if calls == [] then 0
    else
      var c := calls[|calls| - 1];
      Times(calls[..|calls| - 1], key) + if (c.runId, c.step, c.toolRef) == key then 1 else 0
  }

  ghost predicate Totals(cfg: Config, s: State, calls: seq<Call>) {
    && s.runTotal == |calls| && (calls != [] ==> |calls| <= cfg.limits.perRun)
    && s.runTools == ToolsOf(calls) && (calls != [] ==> |ToolsOf(calls)| <= cfg.limits.distinct)
  }

  ghost predicate Counted(cfg: Config, s: State, calls: seq<Call>) {
    forall key :: Times(calls, key) <= CountOf(s.counts, key) && (Times(calls, key) > 0 ==> Times(calls, key) <= cfg.limits.perTool)
  }

  /** Every call spent a token that no other call of the sequence spent. */
  ghost predicate Paid(s: State, calls: seq<Call>) {
    && (forall i :: 0 <= i < |calls| ==> calls[i].token.secret in s.records && s.records[calls[i].token.secret].used)
    && (forall i, j :: 0 <= i < j < |calls| ==> calls[i].token.secret != calls[j].token.secret)
  }

  ghost predicate Conserved(cfg: Config, s: State, calls: seq<Call>) {
    Totals(cfg, s, calls) && Counted(cfg, s, calls) && Paid(s, calls)
  }

  lemma ChargedConserves(cfg: Config, s: State, calls: seq<Call>, c: Call, s': State)
    requires Conserved(cfg, s, calls) && Charged(cfg, s, c, s')
    ensures Conserved(cfg, s', calls + [c])
  {
    assert (calls + [c])[..|calls|] == calls;
    ChargedTotals(cfg, s, calls, c, s');
    ChargedPaid(cfg, s, calls, c, s');
  }

  lemma ChargedTotals(cfg: Config, s: State, calls: seq<Call>, c: Call, s': State)
    requires Totals(cfg, s, calls) && Charged(cfg, s, c, s')
    ensures Totals(cfg, s', calls + [c])
  {
    assert ToolsOf(calls + [c]) == ToolsOf(calls) + {c.toolRef};
    if c.toolRef in s.runTools {
      assert s.runTools + {c.toolRef} == s.runTools;
    }
  }

  lemma ChargedPaid(cfg: Config, s: State, calls: seq<Call>, c: Call, s': State)
    requires Paid(s, calls) && Charged(cfg, s, c, s')
    ensures Paid(s', calls + [c])
  {
  }

  lemma RefusedConserves(cfg: Config, s: State, calls: seq<Call>, c: Call, s': State)
    requires Conserved(cfg, s, calls) && Refused(s, c, s')
    ensures Conserved(cfg, s', calls)
  {
  }

  lemma {:induction false} RunConserves(cfg: Config, effects: Contents, acts: seq<Act>)
    requires FreshSecrets(cfg, effects, acts)
    ensures Conserved(cfg, After(cfg, effects, acts), AdmittedCalls(cfg, effects, acts))
    decreases |acts|
  {
    if acts != [] {
      var n := |acts| - 1;
      var before, a := acts[..n], acts[n];
      assert FreshSecrets(cfg, effects, before) by {
        forall m | 0 <= m < n && before[m].Issue? ensures before[m].secret !in After(cfg, effects, before[..m]).records {
          assert before[..m] == acts[..m];
        }
      }
      RunConserves(cfg, effects, before);
      ApplyConserves(cfg, After(cfg, effects, before), AdmittedCalls(cfg, effects, before), a);
    }
  }

  lemma ApplyConserves(cfg: Config, s: State, calls: seq<Call>, a: Act)
    requires Conserved(cfg, s, calls) && (a.Issue? ==> a.secret !in s.records)
    ensures Conserved(cfg, Apply(cfg, s, a), calls + if a.Make? && Admitted(cfg, s, a.c, a.w) then [a.c] else [])
  {
    assert calls + [] == calls;
    if a.Make? {
      InvokeCharges(cfg, s, a.c, a.w);
      if Admitted(cfg, s, a.c, a.w) {
        ChargedConserves(cfg, s, calls, a.c, Apply(cfg, s, a));
      } else {
        RefusedConserves(cfg, s, calls, a.c, Apply(cfg, s, a));
      }
    }
  }

  /** The run counters are the admitted calls, within every cap; each admission used up a token of its own. */
  lemma RunWithinCaps(cfg: Config, effects: Contents, acts: seq<Act>)
    requires FreshSecrets(cfg, effects, acts)
    ensures
      var s, calls := After(cfg, effects, acts), AdmittedCalls(cfg, effects, acts);
      && s.runTotal == |calls| && s.runTools == ToolsOf(calls)
      && (calls != [] ==> |calls| <= cfg.limits.perRun && |ToolsOf(calls)| <= cfg.limits.distinct)
      && (forall key :: Times(calls, key) > 0 ==> Times(calls, key) <= cfg.limits.perTool)
      && (forall i, j :: 0 <= i < j < |calls| ==> calls[i].token.secret != calls[j].token.secret)
      && (forall i :: 0 <= i < |calls| ==> calls[i].token.secret in s.records && s.records[calls[i].token.secret].used)
  {
    RunConserves(cfg, effects, acts);
  }

  // ---- what an admission rests on -------------------------------------------

  /** The newest token that these acts issued under this secret is the one issued at `m`. */
  ghost predicate IssuedAt(acts: seq<Act>, m: int, secret: string) {
    && 0 <= m < |acts| && acts[m].Issue? && acts[m].secret == secret
    && forall k :: m < k < |acts| ==> !(acts[k].Issue? && acts[k].secret == secret)
  }

  /** It was issued for this tool, run and operation, and is still in time. */
  predicate Covers(rec: Record, c: Call, now: real) {
    rec.toolRef == c.toolRef && rec.runId == c.runId && rec.operation == c.operation && now <= rec.expiresAt
  }

  lemma TokenGate(cfg: Config, s: State, c: Call, now: real)
    requires c.toolRef in cfg.registry
    ensures
      var usable := c.token.secret in s.records && Usable(s.records[c.token.secret], c.toolRef, c.runId, c.operation, now);
      var denial := Gates(cfg, cfg.registry[c.toolRef], s, c, now).1;
      && (denial.None? ==> usable)
      && (denial == Some(TokenFailure) ==> !usable)
      && (!usable ==> denial == Some(TokenFailure) || denial == Some(TaintFailure))
  {
  }

  /** What an act does to the record of a secret. */
  lemma ActOnRecord(cfg: Config, s: State, a: Act, secret: string)
    ensures
      var s' := Apply(cfg, s, a);
      if a.Issue? && a.secret == secret then secret in s'.records && s'.records[secret] == a.rec.(used := false)
      else
        && (secret in s'.records <==> secret in s.records)
        && (secret in s.records ==>
              s'.records[secret].(used := false) == s.records[secret].(used := false)
              && (!(a.Make? && a.c.token.secret == secret) ==> s'.records[secret] == s.records[secret]))
  {
    if a.Make? { InvokeCharges(cfg, s, a.c, a.w); }
    hide Invoke, Admitted;
  }

  /** Every record comes from the newest issue of its secret. */
  lemma {:induction false} RecordsAreIssued(cfg: Config, effects: Contents, acts: seq<Act>, secret: string) returns (m: int)
    requires secret in After(cfg, effects, acts).records
    ensures IssuedAt(acts, m, secret)
    ensures After(cfg, effects, acts).records[secret].(used := false) == acts[m].rec.(used := false)
    decreases |acts|
  {
    hide Apply;
    var n := |acts| - 1;
    ActOnRecord(cfg, After(cfg, effects, acts[..n]), acts[n], secret);
    if acts[n].Issue? && acts[n].secret == secret {
      m := n;
    } else {
      m := RecordsAreIssued(cfg, effects, acts[..n], secret);
    }
  }

  /** Over any run: an admitted call presents a token that was issued before, for its tool, its run and its operation, and
      whose time has not passed. */
  lemma AdmittedWasIssued(cfg: Config, effects: Contents, acts: seq<Act>, c: Call, w: World)
    requires Admitted(cfg, After(cfg, effects, acts), c, w)
    ensures exists m :: IssuedAt(acts, m, c.token.secret) && Covers(acts[m].rec, c, w.now)
  {
    hide Gates, After;
    TokenGate(cfg, After(cfg, effects, acts), c, w.now);
    var m := RecordsAreIssued(cfg, effects, acts, c.token.secret);
  }

  lemma {:induction false} RecordKept(cfg: Config, effects: Contents, acts: seq<Act>, m: int, secret: string)
    requires IssuedAt(acts, m, secret)
    requires forall k :: m < k < |acts| && acts[k].Make? ==> acts[k].c.token.secret != secret
    ensures
      var records := After(cfg, effects, acts).records;
      secret in records && records[secret] == acts[m].rec.(used := false)
    decreases |acts|
  {
    hide Apply;
    var n := |acts| - 1;
    ActOnRecord(cfg, After(cfg, effects, acts[..n]), acts[n], secret);
    if m < n { RecordKept(cfg, effects, acts[..n], m, secret); }
  }

  /** And the other way round: a token that covers the call and was not presented since it was issued is never what
      the call is refused for. */
  lemma IssuedIsHonoured(cfg: Config, effects: Contents, acts: seq<Act>, m: int, c: Call, w: World)
    requires c.toolRef in cfg.registry && IssuedAt(acts, m, c.token.secret) && Covers(acts[m].rec, c, w.now)
    requires forall k :: m < k < |acts| && acts[k].Make? ==> acts[k].c.token.secret != c.token.secret
    ensures Gates(cfg, cfg.registry[c.toolRef], After(cfg, effects, acts), c, w.now).1 != Some(TokenFailure)
  {
    hide Gates, After;
    RecordKept(cfg, effects, acts, m, c.token.secret);
    TokenGate(cfg, After(cfg, effects, acts), c, w.now);
  }
}
