/** One attempt at a run, on values: preflight, then node after node until the end or a halt. */
module Scheduler {

  import opened Wrappers
  import opened Taint
  import opened Graph
  import opened Checkpoints

  // ---- data -----------------------------------------------------------------

  datatype Confidence = Unmarked | Unusable | Level(value: real)

  /** What executing an agent comes to. `observed` is Untrusted when it called a tool that reads untrusted sources;
      `orphaned` when the effect ledger holds effects of the step that it did not consume. */
  datatype Execution =
    | Failed(code: string)
    | Produced(output: Value, observed: Trust, orphaned: bool, confidence: Confidence)

  datatype Mode = Sync | Async

  /** What an attempt is run with. Agents are functions of their position, their payload and their seeded scope;
      `conform` is validation against the output model of a node, and `readable` says whether the store hands a
      stored output back: a file store validates it again, against the model of the node as it is now. */
  datatype Env = Env(
    initial: Value, initialTrust: Trust, clean: bool,
    agent: (nat, Value, Trust) -> Execution,
    blocked: string -> bool,
    conform: (nat, Value) -> Option<Value>,
    threshold: Option<real>, onFailure: Option<Mode>,
    readable: (nat, Value) -> bool)

  datatype Verdict = Approved | Rejected | Amended(output: Value)

  datatype Decision = Decision(id: string, verdict: Verdict)

  datatype Plan = Plan(name: string, nodes: seq<Node>, topology: string)

  /** `freshId` is the identifier that a request raised in this attempt would get. */
  datatype Context = Context(plan: Plan, env: Env, decision: Option<Decision>, freshId: string)

  datatype Code =
    | ResumeDrift | SanitizationHalt | JoinPolicyViolation | ConditionUnevaluable | ConditionTainted | IdentityBlocked
    | StepFailed(code: string) | EffectDivergence | ConfidenceMarkerWithoutValue | ConfidenceApprovalPending
    | ConfidenceBelowThreshold | RequiresHumanApproval | ApprovalError | ApprovalRejected | SchemaViolation

  /** The result of a run. `Escaped` is an exception that no halt stands for. */
  datatype Outcome =
    | Completed(outputs: Outputs, stepsRun: nat)
    | Halted(outputs: Outputs, stepsRun: nat, at: Option<string>, code: Code, request: Option<Request>)
    | Escaped

  /** What the loop has established so far. */
  datatype Core = Core(outputs: Outputs, trust: map<string, Trust>, skipped: set<string>, stepsRun: nat)

  /** What the loop carries along; `store` is absent for a run without checkpoints. `executed` and `consumed`
      say whose agent ran and which request was applied in this attempt. */
  datatype Loop = Loop(core: Core, store: Option<Record>, executed: seq<nat>, consumed: Option<string>)

  datatype Next = Continue(l: Loop) | Stop(outcome: Outcome, l: Loop)

  // ---- small steps ----------------------------------------------------------

  function LabelOf(trust: map<string, Trust>, name: string): Trust {
    if name in trust then trust[name] else Untrusted
  }

  /** The join of the labels of these nodes. */
  function Labels(trust: map<string, Trust>, names: set<string>): Trust {
    if exists n :: n in names && LabelOf(trust, n).Untrusted? then Untrusted else Trusted
  }

  function SeedOf(c: Context, k: Core, idx: nat): Trust
    requires idx < |c.plan.nodes|
  {
    var sources := ReachSources(c.plan.nodes, idx);
    if sources != {} then Labels(k.trust, sources) else c.env.initialTrust
  }

  function Halt(l: Loop, at: Option<string>, code: Code): Next {
    Stop(Halted(l.core.outputs, l.core.stepsRun, at, code, None), l)
  }

  function Skipped(k: Core, name: string): Core {
    k.(skipped := k.skipped + {name})
  }

  function Ran(k: Core, name: string, output: Value, trust: Trust): Core {
    k.(outputs := k.outputs[name := output], trust := k.trust[name := trust], stepsRun := k.stepsRun + 1)
  }

  function Commit(l: Loop, idx: nat, name: string, output: Value, trust: Trust, seal: Option<string>): Loop {
    l.(core := Ran(l.core, name, output, trust),
       store := if l.store.None? then None else Some(Checkpoints.Committed(l.store.value, idx, output, trust, seal)))
  }

  predicate Done(l: Loop, idx: nat) {
    l.store.Some? && idx in l.store.value.outputs
  }

  function Restored(l: Loop, idx: nat, name: string): Loop
    requires Done(l, idx)
  {
    l.(core := Ran(l.core, name, l.store.value.outputs[idx], TrustOf(l.store.value, idx)))
  }

  /** A step that the store has, or the exception that reading it raises. */
  function Restore(env: Env, l: Loop, idx: nat, name: string): Next
    requires Done(l, idx)
  {
    if env.readable(idx, l.store.value.outputs[idx]) then Continue(Restored(l, idx, name)) else Stop(Escaped, l)
  }

  // ---- joins ----------------------------------------------------------------

  datatype Selection = Chosen(source: string, value: Value) | All(value: Value) | Violated | Broken

  predicate Present(k: Core, source: string) {
    source !in k.skipped && source in k.outputs
  }

  function PresentOf(k: Core, sources: seq<string>): (present: seq<string>)
    ensures forall s :: s in present <==> s in sources && Present(k, s)
  {
    if sources == [] then []
    else
      var rest := PresentOf(k, sources[..|sources| - 1]);
      if Present(k, sources[|sources| - 1]) then rest + [sources[|sources| - 1]] else rest
  }

  function Forward(env: Env, k: Core, idx: nat, source: string): Selection
    requires Present(k, source)
  {
    var out := env.conform(idx, k.outputs[source]);
    if out.Some? then Chosen(source, out.value) else Broken
  }

  function Select(env: Env, k: Core, idx: nat, n: Node): Selection
    requires n.JoinNode?
  {
    var present := PresentOf(k, n.sources);
    assert present != [] ==> present[0] in present;
    match n.policy
    case ExactlyOne =>
      if |present| != 1 then Violated else Forward(env, k, idx, present[0])
    case FirstByPriority =>
      if present == [] then Violated else Forward(env, k, idx, present[0])
    case AllPresent =>
      if exists s :: s in n.sources && !Present(k, s) then Violated
      else
        var payload := BuildInput(n.inputs, k.outputs, None, None);
        if payload.None? then Broken
        else
          var out := env.conform(idx, payload.value);
          if out.Some? then All(out.value) else Broken
  }

  function AdvanceJoin(c: Context, l: Loop, idx: nat, n: Node): Next
    requires n.JoinNode?
  {
    if Done(l, idx) then Restore(c.env, l, idx, n.name)
    else
      match Select(c.env, l.core, idx, n)
      case Violated => Halt(l, Some(n.name), JoinPolicyViolation)
      case Broken => Stop(Escaped, l)
      case Chosen(s, v) => Continue(Commit(l, idx, n.name, v, LabelOf(l.core.trust, s), None))
      case All(v) => Continue(Commit(l, idx, n.name, v, Labels(l.core.trust, set s | s in n.sources), None))
  }

  // ---- agents ---------------------------------------------------------------

  datatype Gate = Open | Shut(code: Code) | NotTaken | Missing | Raising

  function WhenGate(k: Core, when: Option<When>): Gate {
    if when.None? then Open
    else
      var w := when.value;
      if w.agent in k.skipped then Shut(ConditionUnevaluable)
      else if LabelOf(k.trust, w.agent).Untrusted? then Shut(ConditionTainted)
      else if w.agent !in k.outputs then Missing
      else
        match w.holds(FieldOf(k.outputs[w.agent], w.field))
        case None => Raising
        case Some(taken) => if taken then Open else NotTaken
  }

  predicate Cascades(nodes: seq<Node>, k: Core, idx: nat)
    requires idx < |nodes|
  {
    ReachSources(nodes, idx) * k.skipped != {}
  }

  predicate SkipRecorded(l: Loop, idx: nat) {
    l.store.Some? && idx in l.store.value.skipped
  }

  function RecordSkip(l: Loop, idx: nat): Loop {
    if l.store.None? then l else l.(store := Some(l.store.value.(skipped := l.store.value.skipped + {idx})))
  }

  /** A skip on record is repeated, a cascade is recorded, a condition that comes out false is not. */
  function AdvanceAgent(c: Context, l: Loop, idx: nat, n: Node): Next
    requires idx < |c.plan.nodes| && n == c.plan.nodes[idx] && n.AgentNode?
  {
    var skipping := l.(core := Skipped(l.core, n.name));
    if SkipRecorded(l, idx) then Continue(skipping)
    else if Cascades(c.plan.nodes, l.core, idx) then Continue(RecordSkip(skipping, idx))
    else
      match WhenGate(l.core, n.when)
      case Shut(code) => Halt(l, Some(n.name), code)
      case Missing => Stop(Escaped, l)
      case Raising => Stop(Escaped, l)
      case NotTaken => Continue(skipping)
      case Open => Enter(c, l, idx, n)
  }

  /** An agent that is reached: its identity, its checkpoint, a request that waits for it, and else its execution. */
  function Enter(c: Context, l: Loop, idx: nat, n: Node): Next
    requires idx < |c.plan.nodes| && n == c.plan.nodes[idx] && n.AgentNode?
  {
    if c.env.blocked(n.name) then Halt(l, Some(n.name), IdentityBlocked)
    else if Done(l, idx) then Restore(c.env, l, idx, n.name)
    else if PendingAt(l, n) then Decide(c, l, idx, n, l.store.value.request.value, SeedOf(c, l.core, idx))
    else Execute(c, l, idx, n, SeedOf(c, l.core, idx))
  }

  predicate PendingAt(l: Loop, n: Node) {
    l.store.Some? && l.store.value.request.Some? && l.store.value.request.value.step == n.name
  }

  // ---- a pending request ----------------------------------------------------

  /** The code a poll reports; nothing for a reason this version does not know. */
  function PollCode(r: Reason): Option<Code> {
    match r
    case HumanApproval => Some(RequiresHumanApproval)
    case LowConfidence => Some(ConfidenceApprovalPending)
    case OtherReason(_) => None
  }

  function Cleared(l: Loop): Loop {
    if l.store.None? then l else l.(store := Some(l.store.value.(request := None)))
  }

  /** A step whose proposed output waits for a decision: the agent does not run. */
  function Decide(c: Context, l: Loop, idx: nat, n: Node, pending: Request, seed: Trust): Next
    requires n.AgentNode?
  {
    if c.decision.None? then
      var code := PollCode(pending.reason);
      if code.None? then Halt(l, Some(n.name), ApprovalError)
      else Stop(Halted(l.core.outputs, l.core.stepsRun, Some(n.name), code.value, Some(pending)), l)
    else
      var d := c.decision.value;
      if d.id != pending.id then Halt(l, Some(n.name), ApprovalError)
      else if d.verdict.Rejected? then Halt(Cleared(l), Some(n.name), ApprovalRejected)
      else
        var out := c.env.conform(idx, if d.verdict.Amended? then d.verdict.output else pending.output);
        if out.None? then Halt(Cleared(l), Some(n.name), SchemaViolation)
        else
          Continue(Commit(Cleared(l), idx, n.name, out.value, Join(pending.trust, seed), Some(n.seal)).(consumed := Some(d.id)))
  }

  // ---- executing an agent ---------------------------------------------------

  function PayloadOf(c: Context, k: Core, idx: nat, n: Node): Option<Value>
    requires idx < |c.plan.nodes| && n.AgentNode?
  {
    BuildInput(n.inputs, k.outputs, Some(c.env.initial), Predecessor(c.plan.nodes, idx))
  }

  function Execute(c: Context, l: Loop, idx: nat, n: Node, seed: Trust): Next
    requires idx < |c.plan.nodes| && n.AgentNode?
  {
    var payload := PayloadOf(c, l.core, idx, n);
    if payload.None? then Stop(Escaped, l)
    else
      var l1 := l.(executed := l.executed + [idx]);
      match c.env.agent(idx, payload.value, seed)
      case Failed(code) => Halt(l1, Some(n.name), StepFailed(code))
      case Produced(output, observed, orphaned, confidence) =>
        var validated := c.env.conform(idx, output);
        if validated.None? then Halt(l1, Some(n.name), SchemaViolation)
        else if orphaned then Halt(l1, Some(n.name), EffectDivergence)
        else Review(c, l1, idx, n, validated.value, Join(seed, observed), confidence)
  }

  /** Halts with the proposed output shown among the outputs. */
  function HaltProposing(l: Loop, n: Node, output: Value, code: Code, request: Option<Request>): Next {
    Stop(Halted(l.core.outputs[n.name := output], l.core.stepsRun + 1, Some(n.name), code, request), l)
  }

  function Raise(l: Loop, request: Request): Loop {
    if l.store.None? then l else l.(store := Some(l.store.value.(request := Some(request))))
  }

  /** What a good execution still has to pass: the confidence threshold and the approval gate. */
  function Review(c: Context, l: Loop, idx: nat, n: Node, output: Value, scope: Trust, confidence: Confidence): Next
    requires n.AgentNode?
  {
    if c.env.threshold.Some? && confidence.Unusable? then
      HaltProposing(l, n, output, ConfidenceMarkerWithoutValue, None)
    else if LowConfident(c, n, confidence) && c.env.onFailure != Some(Async) then
      if l.store.Some? then
        var request := Request(c.freshId, n.name, LowConfidence, output, scope);
        HaltProposing(Raise(l, request), n, output, ConfidenceApprovalPending, Some(request))
      else HaltProposing(l, n, output, ConfidenceBelowThreshold, None)
    else if n.needsApproval then
      var request := Request(c.freshId, n.name, HumanApproval, output, scope);
      HaltProposing(Raise(l, request), n, output, RequiresHumanApproval, Some(request))
    else Continue(Commit(l, idx, n.name, output, scope, Some(n.seal)))
  }

  /** An approval gate takes the place of the confidence threshold. */
  predicate LowConfident(c: Context, n: Node, confidence: Confidence)
    requires n.AgentNode?
  {
    c.env.threshold.Some? && confidence.Level? && confidence.value < c.env.threshold.value && !n.needsApproval
  }

  // ---- the whole attempt ----------------------------------------------------

  function Advance(c: Context, l: Loop, idx: nat): Next
    requires idx < |c.plan.nodes|
  {
    var n := c.plan.nodes[idx];
    if n.JoinNode? then AdvanceJoin(c, l, idx, n) else AdvanceAgent(c, l, idx, n)
  }

  /** The loop from node `idx` to the end. */
  function RunFrom(c: Context, l: Loop, idx: nat): (Outcome, Loop)
    requires idx <= |c.plan.nodes|
    decreases |c.plan.nodes| - idx
  {
    if idx == |c.plan.nodes| then (Finish(c, l), l)
    else
      match Advance(c, l, idx)
      case Continue(l') => RunFrom(c, l', idx + 1)
      case Stop(o, l') => (o, l')
  }

  /** A decision that found no request is an error. */
  function Finish(c: Context, l: Loop): Outcome {
    if c.decision.Some? && l.consumed.None? then Halted(l.core.outputs, l.core.stepsRun, Some(""), ApprovalError, None)
    else Completed(l.core.outputs, l.core.stepsRun)
  }

  predicate HasProgress(r: Record, n: nat) {
    exists i :: 0 <= i < n && (i in r.outputs || i in r.skipped)
  }

  predicate Drifted(c: Context, r: Record, i: nat)
    requires i < |c.plan.nodes|
  {
    var n := c.plan.nodes[i];
    n.AgentNode? && i in r.outputs && SealOf(r, i) != Some(n.seal)
  }

  /** The first completed agent step whose seal does not match, if there is one. */
  function FirstDrift(c: Context, r: Record, i: nat): (d: Option<nat>)
    requires i <= |c.plan.nodes|
    decreases |c.plan.nodes| - i
    ensures d.Some? ==> i <= d.value < |c.plan.nodes| && Drifted(c, r, d.value)
    ensures d.None? <==> forall j :: i <= j < |c.plan.nodes| ==> !Drifted(c, r, j)
  {
    if i == |c.plan.nodes| then None
    else if Drifted(c, r, i) then Some(i)
    else FirstDrift(c, r, i + 1)
  }

  /** Refuses a store that another pipeline wrote; otherwise the store the attempt starts on. */
  function Preflight(c: Context, r: Record): Result<Record, string> {
    var progress := HasProgress(r, |c.plan.nodes|);
    if !Matches(r, c.plan.topology) && progress then Err(c.plan.name)
    else if !progress then Ok(r.(topology := Some(c.plan.topology)))
    else
      var d := FirstDrift(c, r, 0);
      if d.Some? then Err(c.plan.nodes[d.value].name) else Ok(r)
  }

  function Start(store: Option<Record>): Loop {
    Loop(Core(map[], map[], {}, 0), store, [], None)
  }

  /** After preflight: sanitize the initial input, then the loop. */
  function Begin(c: Context, store: Option<Record>): (Outcome, Loop) {
    if !c.env.clean then (Halted(map[], 0, None, SanitizationHalt, None), Start(store))
    else RunFrom(c, Start(store), 0)
  }

  function Attempt(c: Context, store: Option<Record>): (Outcome, Loop) {
    if store.None? then Begin(c, None)
    else
      match Preflight(c, store.value)
      case Err(at) => (Halted(map[], 0, Some(at), ResumeDrift, None), Start(store))
      case Ok(r) => Begin(c, Some(r))
  }
}
