/** A Trusted label is never wrong: nothing the labelled output was made from came from an untrusted source,
    over any number of attempts, restored steps and approvals. */
module TrustLabels {

  import opened Wrappers
  import opened Taint
  import opened Graph
  import opened Checkpoints
  import opened Scheduler
  import opened SchedulerShape
  import opened Lineage

  /** Which data is dirty: the outputs of this attempt, the stored outputs, and the output that waits for approval.
      `soiled` has the agents that made their output dirty themselves, and `waiting` says so of the one that waits.
      It follows the data alone and looks at no label. */
  datatype Dirt = Dirt(nodes: map<string, bool>, stored: map<nat, bool>, proposed: bool, soiled: set<string>, waiting: bool)

  const CLEAN := Dirt(map[], map[], false, {}, false)

  function DirtyNode(d: Dirt, name: string): bool {
    name in d.nodes ==> d.nodes[name]
  }

  function DirtyStored(d: Dirt, idx: nat): bool {
    idx in d.stored ==> d.stored[idx]
  }

  /** The execution called a tool with an untrusted source. */
  predicate Touched(c: Context, l: Loop, idx: nat)
    requires idx < |c.plan.nodes| && c.plan.nodes[idx].AgentNode?
  {
    var payload := PayloadOf(c, l.core, idx, c.plan.nodes[idx]);
    payload.Some?
    && var e := c.env.agent(idx, payload.value, SeedOf(c, l.core, idx));
       e.Produced? && e.observed.Untrusted?
  }

  /** An agent soils its output by its own calls, or by an initial input that is untrusted. */
  predicate Soils(c: Context, l: Loop, idx: nat)
    requires idx < |c.plan.nodes| && c.plan.nodes[idx].AgentNode?
  {
    Touched(c, l, idx) || (ReachSources(c.plan.nodes, idx) == {} && c.env.initialTrust.Untrusted?)
  }

  /** An agent's output is dirty if the agent soils it or anything in its payload is. */
  predicate DirtyAgent(c: Context, l: Loop, d: Dirt, idx: nat)
    requires idx < |c.plan.nodes| && c.plan.nodes[idx].AgentNode?
  {
    Soils(c, l, idx) || exists s :: s in ReachSources(c.plan.nodes, idx) && DirtyNode(d, s)
  }

  /** A join's output is dirty if the forwarded output is, or anything it is built from. */
  predicate DirtyJoin(c: Context, l: Loop, d: Dirt, idx: nat)
    requires idx < |c.plan.nodes| && c.plan.nodes[idx].JoinNode?
  {
    var n := c.plan.nodes[idx];
    match Select(c.env, l.core, idx, n)
    case Chosen(s, _) => DirtyNode(d, s)
    case All(_) => exists s :: s in Bound(n.inputs) && DirtyNode(d, s)
    case _ => true
  }

  /** Where the data of node `idx` comes from when the loop goes through it. */
  function DirtOf(c: Context, l: Loop, d: Dirt, idx: nat): bool
    requires idx < |c.plan.nodes|
  {
    var n := c.plan.nodes[idx];
    if Done(l, idx) then DirtyStored(d, idx)
    else if n.JoinNode? then DirtyJoin(c, l, d, idx)
    else if PendingAt(l, n) then d.proposed
    else DirtyAgent(c, l, d, idx)
  }

  predicate SoiledAt(c: Context, l: Loop, d: Dirt, idx: nat)
    requires idx < |c.plan.nodes|
  {
    var n := c.plan.nodes[idx];
    if Done(l, idx) then n.name in d.soiled
    else if n.JoinNode? then false
    else if PendingAt(l, n) then d.waiting
    else Soils(c, l, idx)
  }

  function Spread(c: Context, l: Loop, d: Dirt, idx: nat): Dirt
    requires idx < |c.plan.nodes|
  {
    var n, next := c.plan.nodes[idx], Advance(c, l, idx);
    var dirty, soiled := DirtOf(c, l, d, idx), SoiledAt(c, l, d, idx);
    if next.Stop? then
      if next.l.store == l.store then d else d.(proposed := dirty, waiting := soiled)
    else if n.name in next.l.core.outputs then
      d.(nodes := d.nodes[n.name := dirty], stored := d.stored[idx := dirty],
         soiled := if soiled then d.soiled + {n.name} else d.soiled)
    else d
  }

  ghost predicate Right(t: Trust, dirty: bool) {
    t.Trusted? ==> !dirty
  }

  ghost predicate LabelsRight(k: Core, d: Dirt) {
    forall name :: name in k.trust ==> Right(k.trust[name], DirtyNode(d, name))
  }

  ghost predicate StoreRight(r: Record, d: Dirt) {
    && (forall i :: i in r.outputs ==> Right(TrustOf(r, i), DirtyStored(d, i)))
    && (r.request.Some? ==> Right(r.request.value.trust, d.proposed))
  }

  /** A label that is Trusted counts in no soiled agent. */
  predicate Counted(nodes: seq<Node>, soiled: set<string>, t: Trust, name: string) {
    t.Trusted? ==> Row(Certain(nodes), name) !! soiled
  }

  /** Behind dirty data is a soiled agent. */
  predicate Behind(nodes: seq<Node>, soiled: set<string>, dirty: bool, name: string) {
    dirty ==> Row(Possible(nodes), name) * soiled != {}
  }

  function Saved(nodes: seq<Node>, r: Record): set<string> {
    set i | 0 <= i < |nodes| && i in r.outputs :: nodes[i].name
  }

  ghost predicate CoreTraced(nodes: seq<Node>, k: Core, d: Dirt) {
    forall s :: s in k.outputs ==>
      Counted(nodes, d.soiled, LabelOf(k.trust, s), s) && Behind(nodes, d.soiled, DirtyNode(d, s), s)
  }

  /** What is stored has in store the agents that its label is sure to count in. */
  ghost predicate StoreTraced(nodes: seq<Node>, r: Record, d: Dirt) {
    && d.soiled <= Saved(nodes, r)
    && forall i: nat :: i < |nodes| && i in r.outputs ==>
         && Counted(nodes, d.soiled, TrustOf(r, i), nodes[i].name)
         && Behind(nodes, d.soiled, DirtyStored(d, i), nodes[i].name)
         && Row(Certain(nodes), nodes[i].name) <= Saved(nodes, r)
  }

  ghost predicate RequestTraced(nodes: seq<Node>, r: Record, d: Dirt) {
    r.request.Some? ==>
      && (d.waiting ==> r.request.value.trust.Untrusted?)
      && forall i: nat :: i < |nodes| && nodes[i].name == r.request.value.step && d.proposed && !d.waiting ==>
           Union(Possible(nodes), ReachSources(nodes, i)) * d.soiled != {}
  }

  ghost predicate RecordTraced(nodes: seq<Node>, r: Record, d: Dirt) {
    StoreTraced(nodes, r, d) && RequestTraced(nodes, r, d)
  }

  ghost predicate AllTraced(nodes: seq<Node>, l: Loop, d: Dirt) {
    && l.store.Some? && RecordTraced(nodes, l.store.value, d) && CoreTraced(nodes, l.core, d)
    && forall s :: s in l.core.outputs ==> Row(Certain(nodes), s) <= Saved(nodes, l.store.value)
  }

  ghost predicate AllRight(l: Loop, d: Dirt) {
    LabelsRight(l.core, d) && (l.store.Some? ==> StoreRight(l.store.value, d))
  }

  // ---- one node -------------------------------------------------------------

  lemma LabelsCover(k: Core, d: Dirt, names: set<string>)
    requires LabelsRight(k, d)
    ensures Right(Labels(k.trust, names), exists s :: s in names && DirtyNode(d, s))
  {
    if Labels(k.trust, names).Trusted? {
      forall s | s in names ensures !DirtyNode(d, s) {
        assert LabelOf(k.trust, s).Trusted?;
      }
    }
  }

  /** The seed of an agent covers everything its payload is made from. */
  lemma SeedCovers(c: Context, l: Loop, d: Dirt, idx: nat)
    requires idx < |c.plan.nodes| && c.plan.nodes[idx].AgentNode? && LabelsRight(l.core, d)
    ensures SeedOf(c, l.core, idx).Trusted? && !Touched(c, l, idx) ==> !DirtyAgent(c, l, d, idx) && !Soils(c, l, idx)
  {
    LabelsCover(l.core, d, ReachSources(c.plan.nodes, idx));
  }

  /** The label a node gets, if it gets one, and the label of the output it proposes, if it stops for approval. */
  ghost predicate Labelled(c: Context, l: Loop, next: Next, idx: nat, dirty: bool)
    requires idx < |c.plan.nodes|
  {
    var n := c.plan.nodes[idx];
    && (next.Continue? && n.name !in next.l.core.skipped ==>
          n.name in next.l.core.trust && Right(next.l.core.trust[n.name], dirty))
    && (next.Stop? && l.store.Some? && next.l.store != l.store ==>
          next.l.store.Some?
          && (next.l.store.value == l.store.value.(request := None)
              || (next.l.store.value.request.Some? && Right(next.l.store.value.request.value.trust, dirty)
                  && next.l.store.value == l.store.value.(request := next.l.store.value.request))))
  }

  lemma ExecuteLabels(c: Context, l: Loop, d: Dirt, idx: nat)
    requires idx < |c.plan.nodes| && c.plan.nodes[idx].AgentNode? && LabelsRight(l.core, d)
    ensures
      Labelled(c, l, Execute(c, l, idx, c.plan.nodes[idx], SeedOf(c, l.core, idx)), idx, DirtyAgent(c, l, d, idx))
  {
    SeedCovers(c, l, d, idx);
  }

  /** What a join binds is dirty only if one of its sources is labelled so. */
  lemma BoundCovered(nodes: seq<Node>, k: Core, d: Dirt, n: Node, s: string)
    requires n.JoinNode? && Covers(nodes, n, s) && LabelsRight(k, d) && CoreTraced(nodes, k, d)
    requires s in k.outputs && (forall x :: x in n.sources ==> x in k.outputs) && k.trust.Keys == k.outputs.Keys
    ensures DirtyNode(d, s) ==> Labels(k.trust, Sources(n)).Untrusted?
  {
    if DirtyNode(d, s) {
      if s in n.sources {
        assert LabelOf(k.trust, s).Untrusted?;
      } else {
        var o :| o in Row(Possible(nodes), s) && o in d.soiled;
        assert o in Union(Certain(nodes), Sources(n));
        var x :| x in n.sources && o in Row(Certain(nodes), x);
        assert Counted(nodes, d.soiled, LabelOf(k.trust, x), x);
        assert x in Sources(n) && LabelOf(k.trust, x).Untrusted?;
      }
    }
  }

  lemma JoinLabels(c: Context, l: Loop, d: Dirt, idx: nat)
    requires idx < |c.plan.nodes| && c.plan.nodes[idx].JoinNode? && LabelsRight(l.core, d) && !Done(l, idx)
    requires JoinsCover(c.plan.nodes) && CoreTraced(c.plan.nodes, l.core, d) && l.core.trust.Keys == l.core.outputs.Keys
    ensures Labelled(c, l, Advance(c, l, idx), idx, DirtyJoin(c, l, d, idx))
  {
    var n := c.plan.nodes[idx];
    if Select(c.env, l.core, idx, n).All? {
      forall s | s in Bound(n.inputs) && DirtyNode(d, s) ensures Labels(l.core.trust, Sources(n)).Untrusted? {
        BoundCovered(c.plan.nodes, l.core, d, n, s);
      }
      assert (set s | s in n.sources) == Sources(n);
    }
  }

  lemma EnterLabels(c: Context, l: Loop, d: Dirt, idx: nat)
    requires idx < |c.plan.nodes| && c.plan.nodes[idx].AgentNode? && AllRight(l, d)
    ensures Labelled(c, l, Enter(c, l, idx, c.plan.nodes[idx]), idx, DirtOf(c, l, d, idx))
  {
    var n := c.plan.nodes[idx];
    if !Done(l, idx) && !PendingAt(l, n) {
      ExecuteLabels(c, l, d, idx);
    }
  }

  lemma AdvanceLabels(c: Context, l: Loop, d: Dirt, idx: nat)
    requires idx < |c.plan.nodes| && JoinsCover(c.plan.nodes) && AllRight(l, d)
    requires CoreTraced(c.plan.nodes, l.core, d) && l.core.trust.Keys == l.core.outputs.Keys
    ensures Labelled(c, l, Advance(c, l, idx), idx, DirtOf(c, l, d, idx))
  {
    if c.plan.nodes[idx].AgentNode? {
      EnterLabels(c, l, d, idx);
    } else if !Done(l, idx) {
      JoinLabels(c, l, d, idx);
    }
  }

  // ---- the whole loop -------------------------------------------------------

  /** What a node that is passed may write: nothing that has a label, or its own output under its own label. */
  ghost predicate Wrote(l: Loop, l': Loop, idx: nat, name: string) {
    && l.store.Some? == l'.store.Some?
    && (l.store.Some? ==>
         var r, r' := l.store.value, l'.store.value;
         && (r'.request == r.request || r'.request == None)
         && ((r'.outputs == r.outputs && r'.trusts == r.trusts)
             || (name in l'.core.outputs && name in l'.core.trust && name !in l'.core.skipped
                 && r'.outputs.Keys == r.outputs.Keys + {idx} && r'.trusts == r.trusts[idx := l'.core.trust[name]])))
  }

  lemma EnterWrites(c: Context, l: Loop, idx: nat)
    requires idx < |c.plan.nodes| && c.plan.nodes[idx].AgentNode? && c.plan.nodes[idx].name !in l.core.skipped
    ensures
      var next := Enter(c, l, idx, c.plan.nodes[idx]);
      next.Continue? ==> Wrote(l, next.l, idx, c.plan.nodes[idx].name)
  {
  }

  lemma AdvanceWrites(c: Context, l: Loop, idx: nat)
    requires idx < |c.plan.nodes| && c.plan.nodes[idx].name !in l.core.skipped
    ensures
      var next := Advance(c, l, idx);
      next.Continue? ==> Wrote(l, next.l, idx, c.plan.nodes[idx].name)
  {
    if c.plan.nodes[idx].AgentNode? {
      EnterWrites(c, l, idx);
    }
  }

  ghost predicate Tracks(c: Context, l: Loop, d: Dirt, idx: nat) {
    && WellFormed(c.plan.nodes) && JoinsCover(c.plan.nodes)
    && idx <= |c.plan.nodes| && Shape(c.plan.nodes, l.core, idx) && AllRight(l, d) && AllTraced(c.plan.nodes, l, d)
  }

  lemma PassRight(c: Context, l: Loop, d: Dirt, idx: nat)
    requires idx < |c.plan.nodes| && Tracks(c, l, d, idx) && Advance(c, l, idx).Continue?
    ensures
      var next := Advance(c, l, idx);
      Shape(c.plan.nodes, next.l.core, idx + 1) && AllRight(next.l, Spread(c, l, d, idx))
  {
    var next := Passes(c, l, d, idx);
    ContinueRight(l, next.l, d, idx, c.plan.nodes[idx].name, DirtOf(c, l, d, idx), Spread(c, l, d, idx).soiled);
  }

  lemma Passes(c: Context, l: Loop, d: Dirt, idx: nat) returns (next: Next)
    requires idx < |c.plan.nodes| && Tracks(c, l, d, idx) && Advance(c, l, idx).Continue?
    ensures next == Advance(c, l, idx) && Labelled(c, l, next, idx, DirtOf(c, l, d, idx))
    ensures Shape(c.plan.nodes, next.l.core, idx + 1)
    ensures
      var name := c.plan.nodes[idx].name;
      && Grew(l.core, next.l.core, name) && Wrote(l, next.l, idx, name)
      && name !in l.core.trust && name !in l.core.outputs && name !in l.core.skipped
  {
    hide Counted, Behind, StoreTraced, RequestTraced;
    next := Advance(c, l, idx);
    assert Admissible(c.plan.nodes[..idx], c.plan.nodes[idx]);
    AdvanceLabels(c, l, d, idx);
    AdvanceShape(c, l, idx);
    AdvanceGrows(c, l, idx);
    AdvanceWrites(c, l, idx);
  }

  lemma HaltRight(c: Context, l: Loop, d: Dirt, idx: nat)
    requires idx < |c.plan.nodes| && Tracks(c, l, d, idx) && Advance(c, l, idx).Stop?
    ensures AllRight(Advance(c, l, idx).l, Spread(c, l, d, idx))
  {
    AdvanceLabels(c, l, d, idx);
    StopShape(c, l, idx);
    AdvanceStore(c, l, idx);
  }

  lemma ContinueRight(l: Loop, l': Loop, d: Dirt, idx: nat, name: string, dirty: bool, soiled: set<string>)
    requires AllRight(l, d) && name !in l.core.trust && name !in l.core.outputs && name !in l.core.skipped
    requires Grew(l.core, l'.core, name) && Wrote(l, l', idx, name)
    requires name !in l'.core.skipped ==> Right(l'.core.trust[name], dirty)
    requires Done(l, idx) ==> dirty == DirtyStored(d, idx)
    ensures
      AllRight(l', if name in l'.core.outputs
                   then d.(nodes := d.nodes[name := dirty], stored := d.stored[idx := dirty], soiled := soiled)
                   else d)
  {
  }

  // ---- who is behind what ---------------------------------------------------

  lemma ReachThere(nodes: seq<Node>, k: Core, idx: nat)
    requires WellFormed(nodes) && idx < |nodes| && Shape(nodes, k, idx) && nodes[idx].AgentNode? && !Cascades(nodes, k, idx)
    ensures ReachSources(nodes, idx) <= k.outputs.Keys
  {
    ReachSourcesEarlier(nodes, idx);
    forall s | s in ReachSources(nodes, idx) ensures s in k.outputs {
      assert s in Names(nodes[..idx]) && s !in ReachSources(nodes, idx) * k.skipped;
    }
  }

  /** A node that is not stored under its position is not stored under its name. */
  lemma NotSaved(nodes: seq<Node>, r: Record, idx: nat)
    requires WellFormed(nodes) && idx < |nodes| && idx !in r.outputs
    ensures nodes[idx].name !in Saved(nodes, r)
  {
    if nodes[idx].name in Saved(nodes, r) {
      var i :| 0 <= i < |nodes| && i in r.outputs && nodes[i].name == nodes[idx].name;
      if i < idx { NamesDistinct(nodes, i, idx); } else { NamesDistinct(nodes, idx, i); }
    }
  }

  lemma SavedNext(nodes: seq<Node>, r: Record, r': Record, idx: nat)
    requires idx < |nodes| && r'.outputs.Keys == r.outputs.Keys + {idx}
    ensures Saved(nodes, r') == Saved(nodes, r) + {nodes[idx].name}
  {
    forall s ensures s in Saved(nodes, r') <==> s in Saved(nodes, r) + {nodes[idx].name} {
    }
  }

  /** What the seed of an agent counts in, and what is behind its payload. */
  lemma SeedTraced(c: Context, l: Loop, d: Dirt, idx: nat)
    requires idx < |c.plan.nodes| && Tracks(c, l, d, idx)
    requires c.plan.nodes[idx].AgentNode? && !Cascades(c.plan.nodes, l.core, idx)
    ensures
      var nodes, reach, name := c.plan.nodes, ReachSources(c.plan.nodes, idx), c.plan.nodes[idx].name;
      && Row(Certain(nodes), name) == {name} + Union(Certain(nodes), reach)
      && Row(Possible(nodes), name) == {name} + Union(Possible(nodes), reach)
      && Union(Certain(nodes), reach) <= Saved(nodes, l.store.value)
      && (SeedOf(c, l.core, idx).Trusted? ==> Union(Certain(nodes), reach) !! d.soiled)
      && ((exists s :: s in reach && DirtyNode(d, s)) ==> Union(Possible(nodes), reach) * d.soiled != {})
  {
    hide Certain, Possible, StoreTraced, RequestTraced, JoinsCover;
    var nodes, reach := c.plan.nodes, ReachSources(c.plan.nodes, idx);
    RowsOf(nodes, idx);
    ReachThere(nodes, l.core, idx);
    if SeedOf(c, l.core, idx).Trusted? {
      forall s | s in reach ensures Row(Certain(nodes), s) !! d.soiled {
        assert LabelOf(l.core.trust, s).Trusted?;
      }
    }
    if s :| s in reach && DirtyNode(d, s) {
      var o :| o in Row(Possible(nodes), s) * d.soiled;
      assert o in Union(Possible(nodes), reach) * d.soiled;
    }
  }

  lemma RowsOf(nodes: seq<Node>, idx: nat)
    requires WellFormed(nodes) && idx < |nodes|
    ensures Row(Certain(nodes), nodes[idx].name) == RowAt(true, Certain(nodes), nodes, idx)
    ensures Row(Possible(nodes), nodes[idx].name) == RowAt(false, Possible(nodes), nodes, idx)
  {
    RowRule(true, nodes, idx);
    RowRule(false, nodes, idx);
  }

  /** The node that got its output at `idx` keeps to its rows. */
  ghost predicate NewTraced(c: Context, l: Loop, d: Dirt, idx: nat, t: Trust)
    requires idx < |c.plan.nodes| && l.store.Some?
  {
    var nodes, name, soiled := c.plan.nodes, c.plan.nodes[idx].name, Spread(c, l, d, idx).soiled;
    && Counted(nodes, soiled, t, name) && Behind(nodes, soiled, DirtOf(c, l, d, idx), name)
    && Row(Certain(nodes), name) <= Saved(nodes, l.store.value) + {name}
  }

  lemma SpreadOutput(c: Context, l: Loop, d: Dirt, idx: nat)
    requires idx < |c.plan.nodes| && Advance(c, l, idx).Continue?
    requires c.plan.nodes[idx].name in Advance(c, l, idx).l.core.outputs
    ensures
      var name, dirty, d' := c.plan.nodes[idx].name, DirtOf(c, l, d, idx), Spread(c, l, d, idx);
      && d'.nodes == d.nodes[name := dirty] && d'.stored == d.stored[idx := dirty]
      && d'.proposed == d.proposed && d'.waiting == d.waiting
      && d'.soiled == d.soiled + if SoiledAt(c, l, d, idx) then {name} else {}
  {
    hide Advance, SoiledAt, DirtOf;
  }

  /** The label of an agent that was not restored: its seed, with the label of the request or what it touched. */
  lemma AgentLabel(c: Context, l: Loop, idx: nat)
    requires idx < |c.plan.nodes| && c.plan.nodes[idx].AgentNode? && !Done(l, idx)
    requires c.plan.nodes[idx].name !in l.core.outputs
    requires Advance(c, l, idx).Continue? && c.plan.nodes[idx].name in Advance(c, l, idx).l.core.outputs
    ensures !Cascades(c.plan.nodes, l.core, idx)
    ensures
      var n := c.plan.nodes[idx];
      LabelOf(Advance(c, l, idx).l.core.trust, n.name) ==
        Join(SeedOf(c, l.core, idx),
             if PendingAt(l, n) then l.store.value.request.value.trust else if Touched(c, l, idx) then Untrusted else Trusted)
  {
  }

  lemma AgentTraced(c: Context, l: Loop, d: Dirt, idx: nat)
    requires idx < |c.plan.nodes| && Tracks(c, l, d, idx) && c.plan.nodes[idx].AgentNode? && !Done(l, idx)
    requires Advance(c, l, idx).Continue? && c.plan.nodes[idx].name in Advance(c, l, idx).l.core.outputs
    ensures NewTraced(c, l, d, idx, LabelOf(Advance(c, l, idx).l.core.trust, c.plan.nodes[idx].name))
  {
    hide Certain, Possible, JoinsCover, CoreTraced, AllRight, Advance, Spread, Touched, Cascades, Saved;
    var nodes, n := c.plan.nodes, c.plan.nodes[idx];
    assert Admissible(nodes[..idx], n);
    NotSaved(nodes, l.store.value, idx);
    AgentLabel(c, l, idx);
    SpreadOutput(c, l, d, idx);
    SeedTraced(c, l, d, idx);
  }

  /** The label of a join: that of the source it forwards, or of all it waits for. */
  lemma JoinLabel(c: Context, l: Loop, idx: nat)
    requires idx < |c.plan.nodes| && c.plan.nodes[idx].JoinNode? && !Done(l, idx) && Advance(c, l, idx).Continue?
    ensures
      var n, t := c.plan.nodes[idx], LabelOf(Advance(c, l, idx).l.core.trust, c.plan.nodes[idx].name);
      && n.name in Advance(c, l, idx).l.core.outputs
      && match Select(c.env, l.core, idx, n) {
           case Chosen(s, _) => !n.policy.AllPresent? && s in n.sources && s in l.core.outputs && t == LabelOf(l.core.trust, s)
           case All(_) =>
             && n.policy.AllPresent? && t == Labels(l.core.trust, Sources(n))
             && (forall s :: s in n.sources ==> s in l.core.outputs) && Bound(n.inputs) <= l.core.outputs.Keys
           case _ => false
         }
  {
  }

  lemma JoinTraced(c: Context, l: Loop, d: Dirt, idx: nat)
    requires idx < |c.plan.nodes| && Tracks(c, l, d, idx) && c.plan.nodes[idx].JoinNode? && !Done(l, idx)
    requires Advance(c, l, idx).Continue?
    ensures NewTraced(c, l, d, idx, LabelOf(Advance(c, l, idx).l.core.trust, c.plan.nodes[idx].name))
  {
    hide Certain, Possible, JoinsCover, AllRight, Advance, Spread, Saved, Select;
    var nodes, n := c.plan.nodes, c.plan.nodes[idx];
    JoinLabel(c, l, idx);
    SpreadOutput(c, l, d, idx);
    assert Admissible(nodes[..idx], n);
    RowsOf(nodes, idx);
    match Select(c.env, l.core, idx, n)
    case Chosen(s, _) => ChosenTraced(nodes, l, d, n, s);
    case All(_) => BuiltTraced(nodes, l, d, n);
  }

  lemma ChosenTraced(nodes: seq<Node>, l: Loop, d: Dirt, n: Node, s: string)
    requires n.JoinNode? && s in n.sources && s in l.core.outputs && AllTraced(nodes, l, d)
    ensures LabelOf(l.core.trust, s).Trusted? ==> Common(Certain(nodes), n.sources) !! d.soiled
    ensures DirtyNode(d, s) ==> Union(Possible(nodes), Sources(n)) * d.soiled != {}
    ensures Common(Certain(nodes), n.sources) <= Saved(nodes, l.store.value)
  {
    hide Certain, Possible, Saved, StoreTraced, RequestTraced;
    assert Common(Certain(nodes), n.sources) <= Row(Certain(nodes), s);
    if DirtyNode(d, s) {
      var o :| o in Row(Possible(nodes), s) * d.soiled;
      assert o in Union(Possible(nodes), Sources(n)) * d.soiled;
    }
  }

  lemma BuiltTraced(nodes: seq<Node>, l: Loop, d: Dirt, n: Node)
    requires n.JoinNode? && AllTraced(nodes, l, d)
    requires (forall s :: s in n.sources ==> s in l.core.outputs) && Bound(n.inputs) <= l.core.outputs.Keys
    ensures Labels(l.core.trust, Sources(n)).Trusted? ==> Union(Certain(nodes), Sources(n)) !! d.soiled
    ensures (exists s :: s in Bound(n.inputs) && DirtyNode(d, s)) ==> Union(Possible(nodes), Bound(n.inputs)) * d.soiled != {}
    ensures Union(Certain(nodes), Sources(n)) <= Saved(nodes, l.store.value)
  {
    hide Certain, Possible, Saved, StoreTraced, RequestTraced;
    if Labels(l.core.trust, Sources(n)).Trusted? {
      forall s | s in Sources(n) ensures Row(Certain(nodes), s) !! d.soiled {
        assert LabelOf(l.core.trust, s).Trusted?;
      }
    }
    if s :| s in Bound(n.inputs) && DirtyNode(d, s) {
      var o :| o in Row(Possible(nodes), s) * d.soiled;
      assert o in Union(Possible(nodes), Bound(n.inputs)) * d.soiled;
    }
  }

  /** A restored node keeps to its rows as the store does. */
  lemma RestoredTraced(c: Context, l: Loop, d: Dirt, idx: nat)
    requires idx < |c.plan.nodes| && Tracks(c, l, d, idx) && Done(l, idx)
    requires Advance(c, l, idx).Continue? && c.plan.nodes[idx].name in Advance(c, l, idx).l.core.outputs
    ensures NewTraced(c, l, d, idx, LabelOf(Advance(c, l, idx).l.core.trust, c.plan.nodes[idx].name))
    ensures Spread(c, l, d, idx).soiled == d.soiled
  {
    hide Certain, Possible, JoinsCover, AllRight, Spread, Saved, CoreTraced, RequestTraced, Counted, Behind;
    assert Admissible(c.plan.nodes[..idx], c.plan.nodes[idx]);
    SpreadOutput(c, l, d, idx);
    assert Spread(c, l, d, idx).soiled == d.soiled;
    assert LabelOf(Advance(c, l, idx).l.core.trust, c.plan.nodes[idx].name) == TrustOf(l.store.value, idx);
    assert Row(Certain(c.plan.nodes), c.plan.nodes[idx].name) <= Saved(c.plan.nodes, l.store.value);
  }

  lemma Commits(c: Context, l: Loop, idx: nat)
    requires idx < |c.plan.nodes| && l.store.Some? && c.plan.nodes[idx].name !in l.core.outputs
    requires Advance(c, l, idx).Continue? && c.plan.nodes[idx].name in Advance(c, l, idx).l.core.outputs
    ensures Advance(c, l, idx).l.store.Some? && idx in Advance(c, l, idx).l.store.value.outputs
  {
  }

  /** One more output that keeps to its rows, and the agents it soils at most itself. */
  ghost predicate Extends(nodes: seq<Node>, l: Loop, l': Loop, d: Dirt, d': Dirt, idx: nat) {
    && idx < |nodes| && l.store.Some? && Wrote(l, l', idx, nodes[idx].name) && idx in l'.store.value.outputs
    && var name := nodes[idx].name;
       && Grew(l.core, l'.core, name) && name in l'.core.outputs && name !in l.core.outputs
       && d'.proposed == d.proposed && d'.waiting == d.waiting
       && name in d'.nodes && d'.nodes == d.nodes[name := d'.nodes[name]] && d'.stored == d.stored[idx := d'.nodes[name]]
       && Counted(nodes, d'.soiled, LabelOf(l'.core.trust, name), name) && Behind(nodes, d'.soiled, d'.nodes[name], name)
       && Row(Certain(nodes), name) <= Saved(nodes, l.store.value) + {name}
       && (if Done(l, idx) then d'.soiled == d.soiled
           else d.soiled <= d'.soiled <= d.soiled + {name} && name !in Saved(nodes, l.store.value))
  }

  lemma ExtendSaved(nodes: seq<Node>, l: Loop, l': Loop, d: Dirt, d': Dirt, idx: nat)
    requires Extends(nodes, l, l', d, d', idx)
    ensures Saved(nodes, l'.store.value) == Saved(nodes, l.store.value) + {nodes[idx].name}
  {
    hide Saved, Row, Counted, Behind;
    SavedNext(nodes, l.store.value, l'.store.value, idx);
  }

  lemma ExtendCore(nodes: seq<Node>, l: Loop, l': Loop, d: Dirt, d': Dirt, idx: nat)
    requires AllTraced(nodes, l, d) && Extends(nodes, l, l', d, d', idx)
    ensures CoreTraced(nodes, l'.core, d')
    ensures forall s :: s in l'.core.outputs ==> Row(Certain(nodes), s) <= Saved(nodes, l'.store.value)
  {
    hide Certain, Possible, Saved, RecordTraced;
    ExtendSaved(nodes, l, l', d, d', idx);
  }

  lemma ExtendStore(nodes: seq<Node>, l: Loop, l': Loop, d: Dirt, d': Dirt, idx: nat)
    requires Extends(nodes, l, l', d, d', idx) && RecordTraced(nodes, l.store.value, d)
    ensures StoreTraced(nodes, l'.store.value, d')
  {
    hide Certain, Possible, Saved, RequestTraced;
    ExtendSaved(nodes, l, l', d, d', idx);
  }

  lemma ExtendTraced(nodes: seq<Node>, l: Loop, l': Loop, d: Dirt, d': Dirt, idx: nat)
    requires AllTraced(nodes, l, d) && Extends(nodes, l, l', d, d', idx)
    ensures AllTraced(nodes, l', d')
  {
    hide Certain, Possible, Saved, CoreTraced, StoreTraced;
    ExtendCore(nodes, l, l', d, d', idx);
    ExtendStore(nodes, l, l', d, d', idx);
  }

  lemma SkipTraced(nodes: seq<Node>, l: Loop, l': Loop, d: Dirt, idx: nat)
    requires idx < |nodes| && AllTraced(nodes, l, d) && Wrote(l, l', idx, nodes[idx].name)
    requires l'.core == Skipped(l.core, nodes[idx].name)
    ensures AllTraced(nodes, l', d)
  {
  }

  lemma Unspread(c: Context, l: Loop, d: Dirt, idx: nat)
    requires idx < |c.plan.nodes| && Advance(c, l, idx).Continue?
    requires c.plan.nodes[idx].name !in Advance(c, l, idx).l.core.outputs
    ensures Spread(c, l, d, idx) == d
  {
  }

  lemma PassTraced(c: Context, l: Loop, d: Dirt, idx: nat)
    requires idx < |c.plan.nodes| && Tracks(c, l, d, idx) && Advance(c, l, idx).Continue?
    ensures AllTraced(c.plan.nodes, Advance(c, l, idx).l, Spread(c, l, d, idx))
  {
    hide Certain, Possible, Saved, JoinsCover, AllRight, CoreTraced, StoreTraced, RequestTraced, Labelled, SoiledAt, DirtOf, Row,
      Spread, Shape, Cascades, Admissible;
    var nodes, name := c.plan.nodes, c.plan.nodes[idx].name;
    var next := Passes(c, l, d, idx);
    if name in next.l.core.outputs {
      if Done(l, idx) {
        RestoredTraced(c, l, d, idx);
      } else {
        NotSaved(nodes, l.store.value, idx);
        if nodes[idx].AgentNode? { AgentTraced(c, l, d, idx); } else { JoinTraced(c, l, d, idx); }
      }
      SpreadOutput(c, l, d, idx);
      Commits(c, l, idx);
      hide Advance;
      ExtendTraced(nodes, l, next.l, d, Spread(c, l, d, idx), idx);
    } else {
      assert Spread(c, l, d, idx) == d by { Unspread(c, l, d, idx); }
      hide Advance;
      SkipTraced(nodes, l, next.l, d, idx);
    }
  }

  /** A halt leaves the outputs alone; it may clear a request, or raise one for a step that it executed. */
  lemma HaltWrites(c: Context, l: Loop, idx: nat)
    requires idx < |c.plan.nodes| && l.store.Some? && Advance(c, l, idx).Stop?
    ensures
      var n, r, l' := c.plan.nodes[idx], l.store.value, Advance(c, l, idx).l;
      && l'.store.Some?
      && (l'.store == l.store || l'.store.value == r.(request := None)
          || (n.AgentNode? && !Done(l, idx) && !PendingAt(l, n) && !Cascades(c.plan.nodes, l.core, idx)
              && l'.store.value.request.Some? && l'.store.value == r.(request := l'.store.value.request)
              && l'.store.value.request.value.step == n.name
              && l'.store.value.request.value.trust ==
                   Join(SeedOf(c, l.core, idx), if Touched(c, l, idx) then Untrusted else Trusted)))
  {
  }

  lemma SameStoreTraced(nodes: seq<Node>, r: Record, r': Record, d: Dirt, d': Dirt)
    requires StoreTraced(nodes, r, d) && r'.outputs == r.outputs && r'.trusts == r.trusts
    requires d'.soiled == d.soiled && d'.stored == d.stored
    ensures StoreTraced(nodes, r', d')
  {
    hide Counted, Behind, Row;
  }

  lemma RaisedTraced(c: Context, l: Loop, d: Dirt, d': Dirt, idx: nat, r': Record)
    requires idx < |c.plan.nodes| && Tracks(c, l, d, idx) && r'.request.Some? && d'.soiled == d.soiled
    requires c.plan.nodes[idx].AgentNode? && !Cascades(c.plan.nodes, l.core, idx)
    requires r'.request.value.step == c.plan.nodes[idx].name
    requires r'.request.value.trust == Join(SeedOf(c, l.core, idx), if Touched(c, l, idx) then Untrusted else Trusted)
    requires d'.proposed == DirtyAgent(c, l, d, idx) && d'.waiting == Soils(c, l, idx)
    ensures RequestTraced(c.plan.nodes, r', d')
  {
    hide Certain, Possible, JoinsCover, AllRight, CoreTraced, StoreTraced, Touched, Cascades, Counted, Behind;
    var nodes, n := c.plan.nodes, c.plan.nodes[idx];
    SeedTraced(c, l, d, idx);
    forall i: nat | i < |nodes| && nodes[i].name == n.name ensures i == idx {
      if i < idx { NamesDistinct(nodes, i, idx); } else if idx < i { NamesDistinct(nodes, idx, i); }
    }
  }

  /** A request that a halt raises is traced. */
  lemma HaltTraced(c: Context, l: Loop, d: Dirt, idx: nat)
    requires idx < |c.plan.nodes| && Tracks(c, l, d, idx) && Advance(c, l, idx).Stop?
    ensures
      var l', d' := Advance(c, l, idx).l, Spread(c, l, d, idx);
      l'.store.Some? && RecordTraced(c.plan.nodes, l'.store.value, d')
  {
    hide WellFormed, JoinsCover, AllRight, CoreTraced, StoreTraced, RequestTraced, Touched, Cascades, Row, SeedOf, DirtyAgent, Soils;
    HaltWrites(c, l, idx);
    hide Advance;
    var l', d' := Advance(c, l, idx).l, Spread(c, l, d, idx);
    if l'.store != l.store {
      SameStoreTraced(c.plan.nodes, l.store.value, l'.store.value, d, d');
      if l'.store.value.request.Some? {
        RaisedTraced(c, l, d, d', idx, l'.store.value);
      } else {
        NoRequest(c.plan.nodes, l'.store.value, d');
      }
    }
  }

  lemma NoRequest(nodes: seq<Node>, r: Record, d: Dirt)
    requires r.request.None?
    ensures RequestTraced(nodes, r, d)
  {
  }

  /** The loop from node `idx`, cut short after `k` nodes, with the dirt that has spread. */
  function Tracked(c: Context, l: Loop, d: Dirt, idx: nat, k: nat): (Loop, Dirt)
    requires idx <= |c.plan.nodes|
    decreases k
  {
    if k == 0 || idx == |c.plan.nodes| then (l, d)
    else
      match Advance(c, l, idx)
      case Continue(l') => Tracked(c, l', Spread(c, l, d, idx), idx + 1, k - 1)
      case Stop(_, l') => (l', Spread(c, l, d, idx))
  }

  /** Following the dirt changes nothing about the loop. */
  lemma {:induction false} TrackedIsCut(c: Context, l: Loop, d: Dirt, idx: nat, k: nat)
    requires idx <= |c.plan.nodes|
    ensures Tracked(c, l, d, idx, k).0 == Cut(c, l, idx, k)
    decreases k
  {
    hide Advance, Spread;
    if k > 0 && idx < |c.plan.nodes| && Advance(c, l, idx).Continue? {
      TrackedIsCut(c, Advance(c, l, idx).l, Spread(c, l, d, idx), idx + 1, k - 1);
    }
  }

  lemma {:induction false} TrackedRight(c: Context, l: Loop, d: Dirt, idx: nat, k: nat)
    requires Tracks(c, l, d, idx)
    ensures
      var (l', d') := Tracked(c, l, d, idx, k);
      AllRight(l', d') && l'.store.Some? && RecordTraced(c.plan.nodes, l'.store.value, d')
    decreases k
  {
    hide Advance, Spread, AllRight, RecordTraced, CoreTraced, WellFormed, JoinsCover;
    if k > 0 && idx < |c.plan.nodes| {
      if Advance(c, l, idx).Continue? {
        PassRight(c, l, d, idx);
        PassTraced(c, l, d, idx);
        TrackedRight(c, Advance(c, l, idx).l, Spread(c, l, d, idx), idx + 1, k - 1);
      } else {
        HaltRight(c, l, d, idx);
        HaltTraced(c, l, d, idx);
      }
    }
  }

  // ---- many attempts over one store -----------------------------------------

  /** The loop and the dirt at the end of an attempt, if preflight lets it begin. */
  function Tried(plan: Plan, r: Record, d: Dirt, t: Try): Option<(Loop, Dirt)> {
    var p := Preflight(ContextOf(plan, t), r);
    if p.Err? || !t.env.clean then None
    else Some(Tracked(ContextOf(plan, t), Start(Some(p.value)), d.(nodes := map[]), 0, t.nodes))
  }

  function Story(plan: Plan, tries: seq<Try>): (Record, Dirt) {
    if tries == [] then (EMPTY, CLEAN)
    else
      var (r, d) := Story(plan, tries[..|tries| - 1]);
      var t := Tried(plan, r, d, tries[|tries| - 1]);
      (StoreOf(plan, r, tries[|tries| - 1]), if t.Some? then t.value.1 else d)
  }

  /** The dirt follows the attempts and changes nothing about them. */
  lemma {:induction false} StoryIsTheStore(plan: Plan, tries: seq<Try>)
    ensures Story(plan, tries).0 == StoreAfter(plan, tries)
    decreases |tries|
  {
    if tries != [] {
      StoryIsTheStore(plan, tries[..|tries| - 1]);
    }
  }

  ghost predicate Begun(plan: Plan, r: Record, d: Dirt) {
    WellFormed(plan.nodes) && JoinsCover(plan.nodes) && StoreRight(r, d) && RecordTraced(plan.nodes, r, d)
  }

  lemma PreflightTraced(plan: Plan, r: Record, d: Dirt, t: Try)
    requires Begun(plan, r, d)
    ensures
      var p := Preflight(ContextOf(plan, t), r);
      p.Ok? ==>
        && StoreRight(p.value, d) && RecordTraced(plan.nodes, p.value, d)
        && Tracks(ContextOf(plan, t), Start(Some(p.value)), d.(nodes := map[]), 0)
  {
    hide WellFormed, JoinsCover, Counted, Behind, Row;
    assert plan.nodes[..0] == [];
  }

  lemma TriedRight(plan: Plan, r: Record, d: Dirt, t: Try)
    requires Begun(plan, r, d)
    ensures
      var now := Tried(plan, r, d, t);
      && now.Some? == LoopOf(plan, r, t).Some?
      && (now.Some? ==> now.value.0 == LoopOf(plan, r, t).value && AllRight(now.value.0, now.value.1))
      && Begun(plan, StoreOf(plan, r, t), if now.Some? then now.value.1 else d)
  {
    hide WellFormed, JoinsCover, RecordTraced, Preflight;
    var p := Preflight(ContextOf(plan, t), r);
    PreflightTraced(plan, r, d, t);
    if p.Ok? && t.env.clean {
      TrackedRight(ContextOf(plan, t), Start(Some(p.value)), d.(nodes := map[]), 0, t.nodes);
      TrackedIsCut(ContextOf(plan, t), Start(Some(p.value)), d.(nodes := map[]), 0, t.nodes);
    }
  }

  lemma {:induction false} StoryRight(plan: Plan, tries: seq<Try>)
    requires WellFormed(plan.nodes) && JoinsCover(plan.nodes)
    ensures Begun(plan, Story(plan, tries).0, Story(plan, tries).1)
    decreases |tries|
  {
    hide WellFormed, JoinsCover, Tried, StoreOf;
    if tries != [] {
      StoryRight(plan, tries[..|tries| - 1]);
      var (r, d) := Story(plan, tries[..|tries| - 1]);
      TriedRight(plan, r, d, tries[|tries| - 1]);
    }
  }

  /** Trusted means clean: over any attempts, crashed or not, with any agents and any decisions, an output labelled
      Trusted in the store, in a pending request or in the attempt at hand has no untrusted source behind it. */
  lemma {:induction false} TrustedIsClean(plan: Plan, tries: seq<Try>, t: Try)
    requires WellFormed(plan.nodes) && JoinsCover(plan.nodes)
    ensures
      var r, d := StoreAfter(plan, tries), Story(plan, tries).1;
      && (forall i :: i in r.outputs && TrustOf(r, i).Trusted? ==> i in d.stored && !d.stored[i])
      && (r.request.Some? && r.request.value.trust.Trusted? ==> !d.proposed)
      && var now := Tried(plan, r, d, t);
         now.Some? ==>
           now.value.0 == LoopOf(plan, r, t).value
           && forall name :: name in now.value.0.core.trust && now.value.0.core.trust[name].Trusted? ==>
                name in now.value.1.nodes && !now.value.1.nodes[name]
  {
    hide WellFormed, JoinsCover, Tried, StoreOf, LoopOf;
    StoryRight(plan, tries);
    StoryIsTheStore(plan, tries);
    var (r, d) := Story(plan, tries);
    TriedRight(plan, r, d, t);
  }

  // ---- why joins have to cover what they bind -------------------------------

  /** A join that waits for a clean node and builds its output from a dirty one. */
  function Laundering(): Context {
    var a := AgentNode("a", map[], None, false, "");
    var b := AgentNode("b", map["x" := From("a", None)], None, false, "");
    var j := JoinNode("j", ["a"], AllPresent, map["x" := From("b", None)]);
    Context(
      Plan("p", [a, b, j], ""),
      Env(Atom(0), Trusted, true, (i, v, t) => Produced(Atom(1), if i == 1 then Untrusted else Trusted, false, Unmarked),
          s => false, (i, v) => Some(v), None, None, (i, v) => true),
      None, "")
  }

  function AfterA(): (Loop, Dirt) {
    (Loop(Core(map["a" := Atom(1)], map["a" := Trusted], {}, 1), None, [0], None),
     Dirt(map["a" := false], map[0 := false], false, {}, false))
  }

  function AfterB(): (Loop, Dirt) {
    (Loop(Core(map["a" := Atom(1), "b" := Atom(1)], map["a" := Trusted, "b" := Untrusted], {}, 2), None, [0, 1], None),
     Dirt(map["a" := false, "b" := true], map[0 := false, 1 := true], false, {"b"}, false))
  }

  lemma LaunderingA()
    ensures Advance(Laundering(), Start(None), 0) == Continue(AfterA().0)
    ensures Spread(Laundering(), Start(None), CLEAN, 0) == AfterA().1
  {
  }

  lemma LaunderingB()
    ensures Advance(Laundering(), AfterA().0, 1) == Continue(AfterB().0)
    ensures Spread(Laundering(), AfterA().0, AfterA().1, 1) == AfterB().1
  {
    assert ReachSources(Laundering().plan.nodes, 1) == {"a"};
  }

  lemma LaunderingJ()
    ensures
      var next := Advance(Laundering(), AfterB().0, 2);
      && next.Continue? && next.l.core.trust == AfterB().0.core.trust["j" := Trusted]
      && DirtyJoin(Laundering(), AfterB().0, AfterB().1, 2) && "j" in next.l.core.outputs
  {
    var j, k := Laundering().plan.nodes[2], AfterB().0.core;
    assert j.sources[..0] == [];
    assert j.inputs["x"].agent in k.outputs;
    assert Select(Laundering().env, k, 2, j).All?;
    assert (set s | s in j.sources) == {"a"};
    assert "b" in Bound(j.inputs) && DirtyNode(AfterB().1, "b");
  }

  /** Without that condition the label can be wrong: here Trusted stands on an output built from untrusted data. */
  lemma UnlistedBindingLaunders()
    ensures WellFormed(Laundering().plan.nodes)
    ensures
      var (l, d) := Tracked(Laundering(), Start(None), CLEAN, 0, 3);
      "j" in l.core.trust && l.core.trust["j"].Trusted? && DirtyNode(d, "j")
  {
    var nodes := Laundering().plan.nodes;
    assert WellFormed(nodes) by {
      assert nodes[..0] == [] && nodes[..1] == [nodes[0]] && nodes[..2] == [nodes[0], nodes[1]];
      NameAt([nodes[0]], 0);
      NameAt([nodes[0], nodes[1]], 0);
      NameAt([nodes[0], nodes[1]], 1);
    }
    LaunderingA();
    LaunderingB();
    LaunderingJ();
    var l3 := Advance(Laundering(), AfterB().0, 2).l;
    var d3 := Spread(Laundering(), AfterB().0, AfterB().1, 2);
    assert Tracked(Laundering(), AfterB().0, AfterB().1, 2, 1) == (l3, d3);
    assert Tracked(Laundering(), AfterA().0, AfterA().1, 1, 2) == (l3, d3);
  }
}
