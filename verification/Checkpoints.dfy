/** What survives of a run: completed steps, skipped steps, the topology, and a pending approval request. */
module Checkpoints {

  import opened Wrappers
  import opened Taint
  import opened Graph

  /** Why a request was raised. A store may hold a reason that this version does not know. */
  datatype Reason = HumanApproval | LowConfidence | OtherReason(text: string)

  datatype Request = Request(id: string, step: string, reason: Reason, output: Value, trust: Trust)

  /** The part of a store that belongs to one run. */
  datatype Record = Record(
    outputs: map<nat, Value>, trusts: map<nat, Trust>, seals: map<nat, string>, skipped: set<nat>,
    topology: Option<string>, request: Option<Request>)

  const EMPTY := Record(map[], map[], map[], {}, None, None)

  function TrustOf(r: Record, step: nat): Trust {
    if step in r.trusts then r.trusts[step] else Untrusted
  }

  function SealOf(r: Record, step: nat): Option<string> {
    if step in r.seals then Some(r.seals[step]) else None
  }

  /** Output, trust and seal of a step, written together. */
  function Committed(r: Record, step: nat, output: Value, trust: Trust, seal: Option<string>): Record {
    r.(outputs := r.outputs[step := output],
       trusts := r.trusts[step := trust],
       seals := if seal.Some? then r.seals[step := seal.value] else r.seals)
  }

  predicate Matches(r: Record, topology: string) {
    r.topology.None? || r.topology.value == topology
  }

  // ---- the in-memory store --------------------------------------------------

  function Of<T>(m: map<(string, nat), T>, runId: string): map<nat, T> {
    map key | key in m && key.0 == runId :: key.1 := m[key]
  }

  lemma OfUpdate<T>(m: map<(string, nat), T>, key: (string, nat), v: T)
    ensures Of(m[key := v], key.0) == Of(m, key.0)[key.1 := v]
    ensures forall other :: other != key.0 ==> Of(m[key := v], other) == Of(m, other)
  {
    var m' := m[key := v];
    forall step | step in Of(m', key.0) ensures step in Of(m, key.0)[key.1 := v] {
      assert (key.0, step) in m';
    }
    forall other | other != key.0 ensures Of(m', other) == Of(m, other) {
      forall step ensures step in Of(m', other) <==> step in Of(m, other) {
        assert (other, step) in m' <==> (other, step) in m;
      }
    }
  }

  function StepsOf(s: set<(string, nat)>, runId: string): set<nat> {
    set key | key in s && key.0 == runId :: key.1
  }

  lemma StepsOfAdd(s: set<(string, nat)>, key: (string, nat))
    ensures StepsOf(s + {key}, key.0) == StepsOf(s, key.0) + {key.1}
    ensures forall other :: other != key.0 ==> StepsOf(s + {key}, other) == StepsOf(s, other)
  {
    assert key in s + {key};
    forall step | step in StepsOf(s, key.0) ensures step in StepsOf(s + {key}, key.0) {
      assert (key.0, step) in s + {key};
    }
    forall other, step | other != key.0 ensures step in StepsOf(s + {key}, other) <==> step in StepsOf(s, other) {
      assert (other, step) in s + {key} <==> (other, step) in s;
    }
  }

  class InMemoryCheckpointStore {
    var outputs: map<(string, nat), Value>
    var skipped: set<(string, nat)>
    var topologies: map<string, string>
    var trusts: map<(string, nat), Trust>
    var seals: map<(string, nat), string>
    var approvals: map<string, Request>

    ghost function RecordOf(runId: string): Record
      reads this
    {
      Record(
        Of(outputs, runId), Of(trusts, runId), Of(seals, runId), StepsOf(skipped, runId),
        if runId in topologies then Some(topologies[runId]) else None,
        if runId in approvals then Some(approvals[runId]) else None)
    }

    /** Runs other than this one are as they were. */
    twostate predicate OthersKept(runId: string)
      reads this
    {
      forall other :: other != runId ==> RecordOf(other) == old(RecordOf(other))
    }

    constructor ()
      ensures forall runId :: RecordOf(runId) == EMPTY
    {
      outputs, skipped, topologies, trusts, seals, approvals := map[], {}, map[], map[], map[], map[];
    }

    function IsCompleted(runId: string, step: nat): (b: bool)
      reads this
      ensures b <==> step in RecordOf(runId).outputs
    {
      assert (runId, step) in outputs <==> step in Of(outputs, runId);
      (runId, step) in outputs
    }

    function OutputOf(runId: string, step: nat): (v: Value)
      requires IsCompleted(runId, step)
      reads this
      ensures v == RecordOf(runId).outputs[step]
    {
      outputs[(runId, step)]
    }

    function IsSkipped(runId: string, step: nat): (b: bool)
      reads this
      ensures b <==> step in RecordOf(runId).skipped
    {
      assert (runId, step) in skipped <==> step in StepsOf(skipped, runId);
      (runId, step) in skipped
    }

    function TrustAt(runId: string, step: nat): (t: Trust)
      reads this
      ensures t == TrustOf(RecordOf(runId), step)
    {
      assert (runId, step) in trusts <==> step in Of(trusts, runId);
      if (runId, step) in trusts then trusts[(runId, step)] else Untrusted
    }

    function SealAt(runId: string, step: nat): (s: Option<string>)
      reads this
      ensures s == SealOf(RecordOf(runId), step)
    {
      assert (runId, step) in seals <==> step in Of(seals, runId);
      if (runId, step) in seals then Some(seals[(runId, step)]) else None
    }

    function FingerprintMatches(runId: string, topology: string): (b: bool)
      reads this
      ensures b <==> Matches(RecordOf(runId), topology)
    {
      runId !in topologies || topologies[runId] == topology
    }

    function ApprovalRequestOf(runId: string): (r: Option<Request>)
      reads this
      ensures r == RecordOf(runId).request
    {
      if runId in approvals then Some(approvals[runId]) else None
    }

    method StepSkipped(runId: string, step: nat)
      modifies this
      ensures RecordOf(runId) == old(RecordOf(runId)).(skipped := old(RecordOf(runId)).skipped + {step})
      ensures OthersKept(runId)
    {
      StepsOfAdd(skipped, (runId, step));
      skipped := skipped + {(runId, step)};
    }

    method RecordFingerprint(runId: string, topology: string)
      modifies this
      ensures RecordOf(runId) == old(RecordOf(runId)).(topology := Some(topology))
      ensures OthersKept(runId)
    {
      topologies := topologies[runId := topology];
    }

    method StepSucceeded(runId: string, step: nat, output: Value)
      modifies this`outputs
      ensures RecordOf(runId) == old(RecordOf(runId)).(outputs := old(RecordOf(runId)).outputs[step := output])
      ensures OthersKept(runId)
    {
      OfUpdate(outputs, (runId, step), output);
      outputs := outputs[(runId, step) := output];
    }

    method RecordTrust(runId: string, step: nat, trust: Trust)
      modifies this`trusts
      ensures RecordOf(runId) == old(RecordOf(runId)).(trusts := old(RecordOf(runId)).trusts[step := trust])
      ensures OthersKept(runId)
    {
      OfUpdate(trusts, (runId, step), trust);
      trusts := trusts[(runId, step) := trust];
    }

    method RecordSeal(runId: string, step: nat, seal: string)
      modifies this`seals
      ensures RecordOf(runId) == old(RecordOf(runId)).(seals := old(RecordOf(runId)).seals[step := seal])
      ensures OthersKept(runId)
    {
      OfUpdate(seals, (runId, step), seal);
      seals := seals[(runId, step) := seal];
    }

    method CommitStep(runId: string, step: nat, output: Value, trust: Trust, seal: Option<string>)
      modifies this
      ensures RecordOf(runId) == Committed(old(RecordOf(runId)), step, output, trust, seal)
      ensures OthersKept(runId)
    {
      StepSucceeded(runId, step, output);
      RecordTrust(runId, step, trust);
      if seal.Some? {
        RecordSeal(runId, step, seal.value);
      }
    }

    method RecordApprovalRequest(runId: string, request: Request)
      modifies this
      ensures RecordOf(runId) == old(RecordOf(runId)).(request := Some(request))
      ensures OthersKept(runId)
    {
      approvals := approvals[runId := request];
    }

    method ClearApprovalRequest(runId: string)
      modifies this
      ensures RecordOf(runId) == old(RecordOf(runId)).(request := None)
      ensures OthersKept(runId)
    {
      approvals := approvals - {runId};
    }
  }
}
