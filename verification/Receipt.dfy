/** The confinement receipt: what a run was allowed, what its log shows, and an offline check of both. */
module Receipt {

  import opened Wrappers
  import opened Taint
  import opened ToolCalls
  import opened Authority

  // ---- data -----------------------------------------------------------------

  datatype ObservedCall = ObservedCall(
    step: Step, agent: Option<string>, toolRef: string, operation: string, matchKind: Option<string>,
    result: Disposition, scope: Trust, exfilCapable: bool, inputHash: string, outputHash: Option<string>)

  datatype Status = Confined | Breached | Unverifiable

  datatype Finding =
    | UndeclaredTool(step: Step, agent: string, toolRef: string)
    | ExfilUnderUntrusted(step: Step, toolRef: string)
    | Unattributed(step: Step, toolRef: string)
    | ReceiptTampered | FootprintInconsistent | FootprintUnexpected | VerdictNotRederived
    | OtherRunsLog | OtherLog | FootprintUnavailable

  datatype Verdict = Verdict(status: Status, breaches: seq<Finding>, unverifiable: seq<Finding>)

  datatype RunStatus = Completed | Halted | Escalated

  datatype Payload = Payload(
    runId: string, status: RunStatus, footprintFingerprint: string, declared: multiset<Fact>,
    stepAgents: seq<Option<string>>, observed: seq<ObservedCall>, verdict: Verdict)

  datatype ConfinementReceipt = ConfinementReceipt(
    runId: string, status: RunStatus, footprintFingerprint: string, declared: seq<Fact>,
    stepAgents: seq<Option<string>>, observed: seq<ObservedCall>, verdict: Verdict, fingerprint: string)

  /** The canonical fingerprints. Both sort the facts first, so that only their multiplicities matter. */
  datatype Hashes = Hashes(receipt: Payload -> string, footprint: multiset<Fact> -> string)

  // ---- the verdict over observed calls ---------------------------------------

  predicate Executed(r: Disposition) {
    r.Done? || r.Replayed?
  }

  function Observe(e: LogEntry, stepAgents: seq<Option<string>>): ObservedCall {
    ObservedCall(
      e.step,
      if e.step.Some? && 0 <= e.step.value < |stepAgents| then stepAgents[e.step.value] else None,
      e.toolRef, e.operation,
      if e.toolRef == EVIDENCE_REF then Some("evidence") else if e.kind.Some? then Some("tool") else None,
      e.result, e.scope, e.exfilCapable, e.inputHash, e.output)
  }

  function ObserveAll(log: seq<LogEntry>, stepAgents: seq<Option<string>>): seq<ObservedCall> {
    seq(|log|, i requires 0 <= i < |log| => Observe(log[i], stepAgents))
  }

  /** An observed call is a log entry, with the agent of its step, if the step is one of the manifest's. */
  lemma ObservedIsLogged(log: seq<LogEntry>, stepAgents: seq<Option<string>>)
    ensures |ObserveAll(log, stepAgents)| == |log|
    ensures forall i :: 0 <= i < |log| ==>
      var e, c := log[i], ObserveAll(log, stepAgents)[i];
      && c.step == e.step && c.toolRef == e.toolRef && c.operation == e.operation
      && c.result == e.result && c.scope == e.scope && c.exfilCapable == e.exfilCapable
      && c.inputHash == e.inputHash && c.outputHash == e.output
      && (c.matchKind == Some("evidence") <==> e.toolRef == EVIDENCE_REF)
      && (c.matchKind == Some("tool") <==> e.toolRef != EVIDENCE_REF && e.kind.Some?)
      && (c.matchKind == None <==> e.toolRef != EVIDENCE_REF && e.kind.None?)
      && (c.agent.Some? ==>
            e.step.Some? && 0 <= e.step.value < |stepAgents| && stepAgents[e.step.value] == c.agent)
      && (e.step.Some? && 0 <= e.step.value < |stepAgents| && stepAgents[e.step.value].Some? ==> c.agent.Some?)
  {
  }

  function Declared(facts: seq<Fact>): set<(string, string)> {
    set f | f in facts :: (f.subject, f.ref)
  }

  function Breaches(c: ObservedCall, declared: set<(string, string)>): seq<Finding> {
    if !Executed(c.result) || c.agent.None? then []
    else
      (if (c.agent.value, c.toolRef) !in declared then [UndeclaredTool(c.step, c.agent.value, c.toolRef)] else [])
      + (if c.exfilCapable && c.scope.Untrusted? then [ExfilUnderUntrusted(c.step, c.toolRef)] else [])
  }

  function AllBreaches(calls: seq<ObservedCall>, declared: set<(string, string)>): seq<Finding> {
    if calls == [] then []
    else AllBreaches(calls[..|calls| - 1], declared) + Breaches(calls[|calls| - 1], declared)
  }

  function Unattributable(calls: seq<ObservedCall>): seq<Finding> {
    if calls == [] then []
    else
      var c := calls[|calls| - 1];
      Unattributable(calls[..|calls| - 1])
      + if Executed(c.result) && c.agent.None? then [Unattributed(c.step, c.toolRef)] else []
  }

  /** Evidence that is missing weighs more than a breach, and a breach more than nothing found. */
  function Judge(calls: seq<ObservedCall>, facts: seq<Fact>): Verdict {
    var breaches, unverifiable := AllBreaches(calls, Declared(facts)), Unattributable(calls);
    if unverifiable != [] then Verdict(Unverifiable, breaches, unverifiable)
    else if breaches != [] then Verdict(Breached, breaches, [])
    else Verdict(Confined, [], [])
  }

  method Evaluate(calls: seq<ObservedCall>, facts: seq<Fact>) returns (v: Verdict)
    ensures v == Judge(calls, facts)
  {
    var declared := Declared(facts);
    var breaches, unverifiable := [], [];
    for i := 0 to |calls|
      invariant breaches == AllBreaches(calls[..i], declared)
      invariant unverifiable == Unattributable(calls[..i])
    {
      assert calls[..i + 1][..i] == calls[..i];
      var c := calls[i];
      if !Executed(c.result) {
        continue;
      }
      if c.agent.None? {
        unverifiable := unverifiable + [Unattributed(c.step, c.toolRef)];
        continue;
      }
      var before := breaches;
      if (c.agent.value, c.toolRef) !in declared {
        breaches := breaches + [UndeclaredTool(c.step, c.agent.value, c.toolRef)];
      }
      if c.exfilCapable && c.scope.Untrusted? {
        breaches := breaches + [ExfilUnderUntrusted(c.step, c.toolRef)];
      }
      assert breaches == before + Breaches(c, declared);
    }
    assert calls[..|calls|] == calls;
    if unverifiable != [] {
      return Verdict(Unverifiable, breaches, unverifiable);
    }
    if breaches != [] {
      return Verdict(Breached, breaches, []);
    }
    return Verdict(Confined, [], []);
  }

  // ---- minting and verifying -------------------------------------------------

  function Doubt(f: Finding): Verdict {
    Verdict(Unverifiable, [], [f])
  }

  function PayloadOf(r: ConfinementReceipt): Payload {
    Payload(r.runId, r.status, r.footprintFingerprint, multiset(r.declared), r.stepAgents, r.observed, r.verdict)
  }

  /** `facts` are the facts of the footprint in sorted order, or nothing when no footprint could be derived. */
  method Mint(h: Hashes, runId: string, status: RunStatus, log: seq<LogEntry>, stepAgents: seq<Option<string>>,
              facts: Option<seq<Fact>>)
    returns (r: ConfinementReceipt)
    ensures r == Minted(h, runId, status, log, stepAgents, facts)
  {
    var observed := ObserveAll(log, stepAgents);
    var declared, verdict := [], Doubt(FootprintUnavailable);
    if facts.Some? {
      declared := facts.value;
      verdict := Evaluate(observed, declared);
    }
    var footprint := h.footprint(multiset(declared));
    var fingerprint := h.receipt(Payload(runId, status, footprint, multiset(declared), stepAgents, observed, verdict));
    r := ConfinementReceipt(runId, status, footprint, declared, stepAgents, observed, verdict, fingerprint);
  }

  function Minted(
    h: Hashes, runId: string, status: RunStatus, log: seq<LogEntry>, stepAgents: seq<Option<string>>, facts: Option<seq<Fact>>
  ): ConfinementReceipt {
    var declared := if facts.Some? then facts.value else [];
    var observed := ObserveAll(log, stepAgents);
    var r := ConfinementReceipt(
      runId, status, h.footprint(multiset(declared)), declared, stepAgents, observed,
      if facts.Some? then Judge(observed, declared) else Doubt(FootprintUnavailable), "");
    r.(fingerprint := h.receipt(PayloadOf(r)))
  }

  predicate OfRun(log: seq<LogEntry>, runId: string) {
    forall e :: e in log ==> e.runId == runId
  }

  /** The receipt as such is intact: its two fingerprints and its verdict can be derived again. */
  predicate Intact(h: Hashes, r: ConfinementReceipt) {
    && r.fingerprint == h.receipt(PayloadOf(r))
    && r.footprintFingerprint == h.footprint(multiset(r.declared))
    && r.verdict == Judge(r.observed, r.declared)
  }

  predicate Bound(r: ConfinementReceipt, log: Option<seq<LogEntry>>, expected: Option<string>) {
    && (expected.Some? ==> r.footprintFingerprint == expected.value)
    && (log.Some? ==> OfRun(log.value, r.runId) && r.observed == ObserveAll(log.value, r.stepAgents))
  }

  /** What can be wrong with a receipt, the gravest first. */
  const DOUBTS: seq<Finding> :=
    [ReceiptTampered, FootprintInconsistent, FootprintUnexpected, VerdictNotRederived, OtherRunsLog, OtherLog]

  /** What each of them means. */
  predicate Wrong(h: Hashes, r: ConfinementReceipt, log: Option<seq<LogEntry>>, expected: Option<string>, f: Finding) {
    match f
    case ReceiptTampered => r.fingerprint != h.receipt(PayloadOf(r))
    case FootprintInconsistent => r.footprintFingerprint != h.footprint(multiset(r.declared))
    case FootprintUnexpected => expected.Some? && expected.value != r.footprintFingerprint
    case VerdictNotRederived => r.verdict != Judge(r.observed, r.declared)
    case OtherRunsLog => log.Some? && exists e :: e in log.value && e.runId != r.runId
    case OtherLog => log.Some? && ObserveAll(log.value, r.stepAgents) != r.observed
    case _ => false
  }

  /** The gravest of what is wrong, by its place in the list. */
  predicate Gravest(h: Hashes, r: ConfinementReceipt, log: Option<seq<LogEntry>>, expected: Option<string>, i: int) {
    0 <= i < |DOUBTS| && Wrong(h, r, log, expected, DOUBTS[i])
    && forall j :: 0 <= j < i ==> !Wrong(h, r, log, expected, DOUBTS[j])
  }

  /** The verdict of the receipt if nothing is wrong with it, and else the gravest doubt. */
  method Verify(h: Hashes, r: ConfinementReceipt, log: Option<seq<LogEntry>>, expected: Option<string>) returns (v: Verdict)
    ensures Intact(h, r) && Bound(r, log, expected) ==> v == r.verdict
    ensures !(Intact(h, r) && Bound(r, log, expected)) ==>
      exists i :: Gravest(h, r, log, expected, i) && v == Doubt(DOUBTS[i])
    ensures Wrong(h, r, log, expected, ReceiptTampered) ==> v == Doubt(ReceiptTampered)
    ensures
      var sound := !Wrong(h, r, log, expected, ReceiptTampered) && !Wrong(h, r, log, expected, FootprintInconsistent);
      && (!Wrong(h, r, log, expected, ReceiptTampered) && !sound ==> v == Doubt(FootprintInconsistent))
      && (sound && Wrong(h, r, log, expected, FootprintUnexpected) ==> v == Doubt(FootprintUnexpected))
      && (sound && !Wrong(h, r, log, expected, FootprintUnexpected) && Wrong(h, r, log, expected, VerdictNotRederived) ==>
            v == Doubt(VerdictNotRederived))
    ensures Intact(h, r) && !Wrong(h, r, log, expected, FootprintUnexpected) && Wrong(h, r, log, expected, OtherRunsLog) ==>
      v == Doubt(OtherRunsLog)
  {
    if h.receipt(PayloadOf(r)) != r.fingerprint {
      assert Gravest(h, r, log, expected, 0);
      return Doubt(ReceiptTampered);
    }
    if h.footprint(multiset(r.declared)) != r.footprintFingerprint {
      assert Gravest(h, r, log, expected, 1);
      return Doubt(FootprintInconsistent);
    }
    if expected.Some? && expected.value != r.footprintFingerprint {
      assert Gravest(h, r, log, expected, 2);
      return Doubt(FootprintUnexpected);
    }
    var rederived := Evaluate(r.observed, r.declared);
    if rederived != r.verdict {
      assert Gravest(h, r, log, expected, 3);
      return Doubt(VerdictNotRederived);
    }
    if log.Some? {
      for i := 0 to |log.value|
        invariant OfRun(log.value[..i], r.runId)
      {
        if log.value[i].runId != r.runId {
          assert log.value[i] in log.value;
          assert Gravest(h, r, log, expected, 4);
          return Doubt(OtherRunsLog);
        }
      }
      assert log.value[..|log.value|] == log.value;
      if ObserveAll(log.value, r.stepAgents) != r.observed {
        assert Gravest(h, r, log, expected, 5);
        return Doubt(OtherLog);
      }
    }
    return r.verdict;
  }

  // ---- what a verdict says ---------------------------------------------------

  /** One call broke no rule: it is attributed, it was declared, and it did not carry tainted data out. */
  predicate Clean(c: ObservedCall, declared: set<(string, string)>) {
    Executed(c.result) ==>
      c.agent.Some? && (c.agent.value, c.toolRef) in declared && !(c.exfilCapable && c.scope.Untrusted?)
  }

  lemma {:induction false} JudgeCases(calls: seq<ObservedCall>, facts: seq<Fact>)
    ensures Judge(calls, facts).status.Confined? <==> forall i :: 0 <= i < |calls| ==> Clean(calls[i], Declared(facts))
    ensures Judge(calls, facts).status.Unverifiable? <==>
            exists i :: 0 <= i < |calls| && Executed(calls[i].result) && calls[i].agent.None?
    decreases |calls|
  {
    if calls != [] {
      var n := |calls| - 1;
      JudgeCases(calls[..n], facts);
      assert calls == calls[..n] + [calls[n]];
    }
  }

  /** Some fact lets the agent use the tool. */
  ghost predicate Granted(facts: seq<Fact>, agent: string, toolRef: string) {
    exists f :: f in facts && f.subject == agent && f.ref == toolRef
  }

  /** What is held against one call, in which step, of which agent and about which tool. */
  ghost predicate Offends(c: ObservedCall, facts: seq<Fact>, f: Finding) {
    && (c.result.Done? || c.result.Replayed?) && c.agent.Some?
    && match f
       case UndeclaredTool(step, agent, toolRef) =>
         step == c.step && agent == c.agent.value && toolRef == c.toolRef && !Granted(facts, c.agent.value, c.toolRef)
       case ExfilUnderUntrusted(step, toolRef) =>
         step == c.step && toolRef == c.toolRef && c.exfilCapable && c.scope.Untrusted?
       case _ => false
  }

  /** The finding that nobody can be named for one call. */
  ghost predicate Orphans(c: ObservedCall, f: Finding) {
    (c.result.Done? || c.result.Replayed?) && c.agent.None? && f == Unattributed(c.step, c.toolRef)
  }

  type Held = (ObservedCall, Finding) -> bool

  /** The findings are, call by call in the order of the log, all that is held against each call, and none of it twice:
      `at` says which call each finding is about, and of two about one call the one on the declaration comes first. */
  ghost predicate Accounts(findings: seq<Finding>, at: seq<nat>, calls: seq<ObservedCall>, held: Held) {
    && |at| == |findings|
    && (forall k :: 0 <= k < |at| ==> at[k] < |calls| && held(calls[at[k]], findings[k]))
    && (forall j, k :: 0 <= j < k < |at| ==> Precedes(findings, at, j, k))
    && (forall i: nat, f :: i < |calls| && held(calls[i], f) ==> Listed(findings, at, i, f))
  }

  predicate Precedes(findings: seq<Finding>, at: seq<nat>, j: int, k: int)
    requires 0 <= j < k < |at| == |findings|
  {
    at[j] < at[k] || (at[j] == at[k] && findings[j].UndeclaredTool? && findings[k].ExfilUnderUntrusted?)
  }

  ghost predicate Listed(findings: seq<Finding>, at: seq<nat>, i: nat, f: Finding)
    requires |at| == |findings|
  {
    exists k :: 0 <= k < |findings| && at[k] == i && findings[k] == f
  }

  function Copies(n: nat, k: nat): seq<nat> {
    seq(k, i requires 0 <= i < k => n)
  }

  lemma AccountsMore(before: seq<Finding>, at: seq<nat>, calls: seq<ObservedCall>, here: seq<Finding>, held: Held)
    requires calls != [] && Accounts(before, at, calls[..|calls| - 1], held)
    requires forall f :: f in here <==> held(calls[|calls| - 1], f)
    requires |here| <= 2 && (|here| == 2 ==> here[0].UndeclaredTool? && here[1].ExfilUnderUntrusted?)
    ensures Accounts(before + here, at + Copies(|calls| - 1, |here|), calls, held)
  {
    var n := |calls| - 1;
    var all, at' := before + here, at + Copies(n, |here|);
    forall k | 0 <= k < |at'| ensures at'[k] < |calls| && held(calls[at'[k]], all[k]) {
      if k < |at| {
        assert calls[..n][at[k]] == calls[at[k]];
      } else {
        assert all[k] == here[k - |at|] && here[k - |at|] in here;
      }
    }
    forall j, k | 0 <= j < k < |at'| ensures Precedes(all, at', j, k) {
      if k < |at| { assert Precedes(before, at, j, k); }
    }
    forall i: nat, f | i < |calls| && held(calls[i], f) ensures Listed(all, at', i, f) {
      if i < n {
        assert held(calls[..n][i], f);
        var k :| 0 <= k < |before| && at[k] == i && before[k] == f;
        assert at'[k] == i && all[k] == f;
      } else {
        assert f in here;
        var k :| 0 <= k < |here| && here[k] == f;
        assert at'[|before| + k] == n && all[|before| + k] == f;
      }
    }
  }

  function OffencesOf(c: ObservedCall, declared: set<(string, string)>): nat {
    if !(c.result.Done? || c.result.Replayed?) || c.agent.None? then 0
    else (if (c.agent.value, c.toolRef) in declared then 0 else 1) + if c.exfilCapable && c.scope.Untrusted? then 1 else 0
  }

  function OffencesIn(calls: seq<ObservedCall>, declared: set<(string, string)>): nat {
    if calls == [] then 0 else OffencesIn(calls[..|calls| - 1], declared) + OffencesOf(calls[|calls| - 1], declared)
  }

  lemma BreachesOfOne(c: ObservedCall, facts: seq<Fact>)
    ensures forall f :: f in Breaches(c, Declared(facts)) <==> Offends(c, facts, f)
    ensures |Breaches(c, Declared(facts))| == OffencesOf(c, Declared(facts)) <= 2
    ensures |Breaches(c, Declared(facts))| == 2 ==>
      Breaches(c, Declared(facts))[0].UndeclaredTool? && Breaches(c, Declared(facts))[1].ExfilUnderUntrusted?
  {
    if c.agent.Some? {
      assert (c.agent.value, c.toolRef) in Declared(facts) <==> Granted(facts, c.agent.value, c.toolRef);
    }
  }

  /** The breaches of a verdict account for all that is held against the calls. */
  lemma {:induction false} BreachesListed(calls: seq<ObservedCall>, facts: seq<Fact>) returns (at: seq<nat>)
    ensures Accounts(Judge(calls, facts).breaches, at, calls, (c, f) => Offends(c, facts, f))
    ensures |Judge(calls, facts).breaches| == OffencesIn(calls, Declared(facts))
    decreases |calls|
  {
    hide Offends, Breaches, Declared, Accounts;
    var held: Held := (c, f) => Offends(c, facts, f);
    if calls == [] {
      at := [];
      NothingHeld([], held);
    } else {
      var n := |calls| - 1;
      var here := Breaches(calls[n], Declared(facts));
      at := BreachesListed(calls[..n], facts);
      BreachesOfOne(calls[n], facts);
      AccountsMore(Judge(calls[..n], facts).breaches, at, calls, here, held);
      at := at + Copies(n, |here|);
    }
  }

  lemma NothingHeld(calls: seq<ObservedCall>, held: Held)
    requires calls == []
    ensures Accounts([], [], calls, held)
  {
  }

  /** And what it could not verify accounts for the calls that nobody can be named for. */
  lemma {:induction false} UnverifiableListed(calls: seq<ObservedCall>, facts: seq<Fact>) returns (at: seq<nat>)
    ensures Accounts(Judge(calls, facts).unverifiable, at, calls, (c, f) => Orphans(c, f))
    decreases |calls|
  {
    hide Accounts;
    var held: Held := (c, f) => Orphans(c, f);
    if calls == [] {
      at := [];
      NothingHeld([], held);
    } else {
      var n := |calls| - 1;
      var c := calls[n];
      var here := if Executed(c.result) && c.agent.None? then [Unattributed(c.step, c.toolRef)] else [];
      at := UnverifiableListed(calls[..n], facts);
      AccountsMore(Judge(calls[..n], facts).unverifiable, at, calls, here, held);
      at := at + Copies(n, |here|);
    }
  }

  /** Fingerprints of different footprints differ. */
  ghost predicate FootprintInjective(h: Hashes) {
    forall a, b :: h.footprint(a) == h.footprint(b) ==> a == b
  }

  /** The log keeps to a footprint: whatever ran was attributed, declared, and carried nothing tainted out. */
  ghost predicate LogConfined(log: seq<LogEntry>, stepAgents: seq<Option<string>>, facts: seq<Fact>) {
    forall i :: 0 <= i < |log| && Executed(log[i].result) ==> EntryConfined(log[i], stepAgents, facts)
  }

  ghost predicate EntryConfined(e: LogEntry, stepAgents: seq<Option<string>>, facts: seq<Fact>) {
    && e.step.Some? && 0 <= e.step.value < |stepAgents| && stepAgents[e.step.value].Some?
    && (exists f :: f in facts && f.subject == stepAgents[e.step.value].value && f.ref == e.toolRef)
    && !(e.exfilCapable && e.scope.Untrusted?)
  }

  lemma LogConfinedIsJudged(log: seq<LogEntry>, stepAgents: seq<Option<string>>, facts: seq<Fact>)
    ensures LogConfined(log, stepAgents, facts) <==> Judge(ObserveAll(log, stepAgents), facts).status.Confined?
  {
    var calls := ObserveAll(log, stepAgents);
    JudgeCases(calls, facts);
    forall i | 0 <= i < |log|
      ensures Clean(calls[i], Declared(facts)) <==> (Executed(log[i].result) ==> EntryConfined(log[i], stepAgents, facts))
    {
      assert calls[i] == Observe(log[i], stepAgents);
    }
  }

  /** Only the facts a receipt declares matter to its verdict, not their order. */
  lemma SameFactsSameVerdict(calls: seq<ObservedCall>, a: seq<Fact>, b: seq<Fact>)
    requires multiset(a) == multiset(b)
    ensures Judge(calls, a) == Judge(calls, b)
  {
    assert Declared(a) == Declared(b) by {
      forall f: Fact ensures f in a <==> f in b {
        assert f in a <==> f in multiset(a);
        assert f in b <==> f in multiset(b);
      }
    }
  }

  /** An auditor who holds the log and the manifest's own fingerprint learns `confined` exactly when the receipt is
      intact, speaks of this run, log and manifest, and the log itself keeps to the manifest's footprint. */
  lemma VerifierSound(h: Hashes, r: ConfinementReceipt, log: seq<LogEntry>, facts: seq<Fact>)
    requires FootprintInjective(h)
    ensures
      Intact(h, r) && Bound(r, Some(log), Some(h.footprint(multiset(facts)))) && r.verdict.status.Confined?
      <==>
      && Intact(h, r) && OfRun(log, r.runId) && r.observed == ObserveAll(log, r.stepAgents)
      && multiset(r.declared) == multiset(facts)
      && LogConfined(log, r.stepAgents, facts)
  {
    LogConfinedIsJudged(log, r.stepAgents, facts);
    if multiset(r.declared) == multiset(facts) {
      SameFactsSameVerdict(ObserveAll(log, r.stepAgents), r.declared, facts);
    }
  }

  method VerifyAgainstManifest(h: Hashes, r: ConfinementReceipt, log: seq<LogEntry>, facts: seq<Fact>) returns (v: Verdict)
    requires FootprintInjective(h)
    ensures v.status.Confined? ==> OfRun(log, r.runId) && LogConfined(log, r.stepAgents, facts)
  {
    VerifierSound(h, r, log, facts);
    v := Verify(h, r, Some(log), Some(h.footprint(multiset(facts))));
  }

  /** A minted receipt verifies with the status it was minted with; the log it came from binds exactly when
      every entry is of the run it names. */
  lemma MintedVerifies(
    h: Hashes, runId: string, status: RunStatus, log: seq<LogEntry>, stepAgents: seq<Option<string>>, facts: Option<seq<Fact>>)
    ensures
      var r := Minted(h, runId, status, log, stepAgents, facts);
      && (facts.Some? ==> Intact(h, r) && Bound(r, None, Some(h.footprint(multiset(facts.value)))))
      && (Bound(r, Some(log), None) <==> OfRun(log, runId))
      && (facts.None? ==> r.verdict.status.Unverifiable?)
      && (facts.Some? ==> r.verdict == Judge(ObserveAll(log, stepAgents), facts.value))
      && (facts.None? ==> r.verdict == Verdict(Unverifiable, [], [FootprintUnavailable]))
      && r.runId == runId && r.status == status && r.stepAgents == stepAgents
      && r.declared == (if facts.Some? then facts.value else [])
  {
  }

  /** Narrowing the manifest keeps what it means to be confined: a log confined under the narrower footprint
      is confined under the wider. */
  lemma NarrowingKeepsConfinement(log: seq<LogEntry>, stepAgents: seq<Option<string>>, narrow: seq<Fact>, wide: seq<Fact>)
    requires forall f :: f in narrow ==> f in wide
    requires LogConfined(log, stepAgents, narrow)
    ensures LogConfined(log, stepAgents, wide)
  {
  }
}
