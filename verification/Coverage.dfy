/** Joins that cover what they bind are just what Trusted labels need: in a plan without branches, a join that does not
    is reached by a run that labels it Trusted over untrusted data. */
module Coverage {

  import opened Wrappers
  import opened Taint
  import opened Graph
  import opened Checkpoints
  import opened Scheduler
  import opened SchedulerShape
  import opened Lineage
  import opened TrustLabels

  /** No conditions, no approval gates, and joins that wait for all their sources and have bindings. */
  predicate Straight(nodes: seq<Node>) {
    forall i :: 0 <= i < |nodes| ==>
      if nodes[i].AgentNode? then nodes[i].when.None? && !nodes[i].needsApproval
      else nodes[i].policy.AllPresent? && nodes[i].inputs != map[]
  }

  /** Every agent succeeds, and the one named `o` alone calls a tool that reads untrusted sources. */
  function Soiling(nodes: seq<Node>, o: string): Env {
    Env(Atom(0), Trusted, true,
        (i: nat, v: Value, t: Trust) =>
          Produced(Atom(0), if i < |nodes| && nodes[i].name == o then Untrusted else Trusted, false, Unmarked),
        s => false, (i: nat, v: Value) => Some(v), None, None, (i: nat, v: Value) => true)
  }

  function Only(plan: Plan, o: string): Try {
    Try(Soiling(plan.nodes, o), None, "", |plan.nodes|)
  }

  /** Labels are Untrusted where they are sure to count in `o`, and data is dirty where `o` may be behind it. */
  ghost predicate Split(nodes: seq<Node>, o: string, k: Core, d: Dirt, name: string) {
    && name in k.outputs && name in k.trust && name in d.nodes
    && (k.trust[name].Untrusted? <==> o in Row(Certain(nodes), name))
    && (d.nodes[name] <==> o in Row(Possible(nodes), name))
  }

  ghost predicate Reaches(plan: Plan, o: string, l: Loop, d: Dirt, idx: nat) {
    && idx <= |plan.nodes| && Shape(plan.nodes, l.core, idx) && l.core.skipped == {}
    && l.store.Some? && l.store.value.skipped == {} && l.store.value.request.None?
    && (forall i: nat :: i in l.store.value.outputs <==> i < idx)
    && forall i: nat :: i < idx ==>
         && Split(plan.nodes, o, l.core, d, plan.nodes[i].name)
         && TrustOf(l.store.value, i) == l.core.trust[plan.nodes[i].name]
         && i in d.stored && d.stored[i] == d.nodes[plan.nodes[i].name]
  }

  lemma SplitUnion(nodes: seq<Node>, o: string, k: Core, d: Dirt, names: set<string>)
    requires forall s :: s in names ==> Split(nodes, o, k, d, s)
    ensures Labels(k.trust, names).Untrusted? <==> o in Union(Certain(nodes), names)
    ensures (exists s :: s in names && DirtyNode(d, s)) <==> o in Union(Possible(nodes), names)
  {
    hide Certain, Possible;
    if Labels(k.trust, names).Untrusted? {
      var s :| s in names && LabelOf(k.trust, s).Untrusted?;
      assert o in Row(Certain(nodes), s);
    }
    if s :| s in names && DirtyNode(d, s) {
      assert o in Row(Possible(nodes), s);
    }
    if o in Union(Certain(nodes), names) {
      var s :| s in names && s in Certain(nodes) && o in Certain(nodes)[s];
      assert LabelOf(k.trust, s).Untrusted?;
    }
    if o in Union(Possible(nodes), names) {
      var s :| s in names && s in Possible(nodes) && o in Possible(nodes)[s];
      assert DirtyNode(d, s);
    }
  }

  lemma EarlierSplit(plan: Plan, o: string, l: Loop, d: Dirt, idx: nat, s: string)
    requires Reaches(plan, o, l, d, idx) && s in Names(plan.nodes[..idx])
    ensures Split(plan.nodes, o, l.core, d, s)
  {
    hide Split;
    var i :| 0 <= i < idx && plan.nodes[..idx][i].name == s;
    assert plan.nodes[i].name == s;
  }

  /** What the run does at a node. */
  ghost predicate Commits(c: Context, l: Loop, d: Dirt, idx: nat, o: string)
    requires idx < |c.plan.nodes| && l.store.Some?
  {
    var nodes, name, next := c.plan.nodes, c.plan.nodes[idx].name, Advance(c, l, idx);
    && next.Continue? && name in next.l.core.outputs && name in next.l.core.trust
    && next.l.core == Ran(l.core, name, next.l.core.outputs[name], next.l.core.trust[name])
    && next.l.store.Some?
    && next.l.store.value.skipped == l.store.value.skipped && next.l.store.value.request == l.store.value.request
    && next.l.store.value.outputs == l.store.value.outputs[idx := next.l.core.outputs[name]]
    && next.l.store.value.trusts == l.store.value.trusts[idx := next.l.core.trust[name]]
    && (next.l.core.trust[name].Untrusted? <==> o in Row(Certain(nodes), name))
    && (DirtOf(c, l, d, idx) <==> o in Row(Possible(nodes), name))
  }

  lemma CommitsBy(c: Context, l: Loop, d: Dirt, idx: nat, o: string, ran: seq<nat>, v: Value, t: Trust, seal: Option<string>)
    requires idx < |c.plan.nodes| && l.store.Some?
    requires Advance(c, l, idx) == Continue(Commit(l.(executed := ran), idx, c.plan.nodes[idx].name, v, t, seal))
    requires t.Untrusted? <==> o in Row(Certain(c.plan.nodes), c.plan.nodes[idx].name)
    requires DirtOf(c, l, d, idx) <==> o in Row(Possible(c.plan.nodes), c.plan.nodes[idx].name)
    ensures Commits(c, l, d, idx, o)
  {
    hide Advance, DirtOf, Row, Certain, Possible;
  }

  lemma AgentSplits(plan: Plan, o: string, l: Loop, d: Dirt, idx: nat)
    requires WellFormed(plan.nodes) && idx < |plan.nodes| && Reaches(plan, o, l, d, idx) && plan.nodes[idx].AgentNode?
    ensures
      var nodes, reach, name := plan.nodes, ReachSources(plan.nodes, idx), plan.nodes[idx].name;
      && (Labels(l.core.trust, reach).Untrusted? || name == o <==> o in Row(Certain(nodes), name))
      && ((exists s :: s in reach && DirtyNode(d, s)) || name == o <==> o in Row(Possible(nodes), name))
  {
    hide Certain, Possible, WellFormed;
    var nodes := plan.nodes;
    ReachSourcesEarlier(nodes, idx);
    forall s | s in ReachSources(nodes, idx) ensures Split(nodes, o, l.core, d, s) {
      EarlierSplit(plan, o, l, d, idx, s);
    }
    hide Reaches;
    SplitUnion(nodes, o, l.core, d, ReachSources(nodes, idx));
    RowsOf(nodes, idx);
  }

  /** Nothing is on record that would keep a node from running. */
  predicate Unhindered(l: Loop, idx: nat) {
    l.core.skipped == {} && l.store.Some? && l.store.value.skipped == {} && l.store.value.request.None? && !Done(l, idx)
  }

  function Touch(n: Node, o: string): Trust {
    if n.name == o then Untrusted else Trusted
  }

  lemma AgentGoes(plan: Plan, o: string, l: Loop, idx: nat)
    requires idx < |plan.nodes| && Unhindered(l, idx) && plan.nodes[idx].AgentNode?
    requires plan.nodes[idx].when.None? && !plan.nodes[idx].needsApproval
    requires PayloadOf(ContextOf(plan, Only(plan, o)), l.core, idx, plan.nodes[idx]).Some?
    ensures
      var c, n := ContextOf(plan, Only(plan, o)), plan.nodes[idx];
      && Advance(c, l, idx) ==
           Continue(Commit(l.(executed := l.executed + [idx]), idx, n.name, Atom(0), Join(SeedOf(c, l.core, idx), Touch(n, o)),
                           Some(n.seal)))
      && (Touched(c, l, idx) <==> n.name == o)
  {
    hide PayloadOf, ReachSources, SeedOf;
  }

  lemma SeedIsLabels(plan: Plan, o: string, l: Loop, idx: nat)
    requires idx < |plan.nodes|
    ensures SeedOf(ContextOf(plan, Only(plan, o)), l.core, idx) == Labels(l.core.trust, ReachSources(plan.nodes, idx))
  {
    hide ReachSources;
  }

  lemma AgentDirt(plan: Plan, o: string, l: Loop, d: Dirt, idx: nat)
    requires idx < |plan.nodes| && Unhindered(l, idx) && plan.nodes[idx].AgentNode?
    requires Touched(ContextOf(plan, Only(plan, o)), l, idx) <==> plan.nodes[idx].name == o
    ensures
      DirtOf(ContextOf(plan, Only(plan, o)), l, d, idx) <==>
        (exists s :: s in ReachSources(plan.nodes, idx) && DirtyNode(d, s)) || plan.nodes[idx].name == o
  {
    hide Touched, ReachSources, DirtyNode;
  }

  lemma AgentCommits(plan: Plan, o: string, l: Loop, d: Dirt, idx: nat)
    requires WellFormed(plan.nodes) && Straight(plan.nodes) && idx < |plan.nodes| && Reaches(plan, o, l, d, idx)
    requires plan.nodes[idx].AgentNode?
    ensures Commits(ContextOf(plan, Only(plan, o)), l, d, idx, o)
  {
    AgentSplits(plan, o, l, d, idx);
    PayloadThere(ContextOf(plan, Only(plan, o)), l, idx);
    AgentGoes(plan, o, l, idx);
    SeedIsLabels(plan, o, l, idx);
    AgentDirt(plan, o, l, d, idx);
    hide Certain, Possible, WellFormed, Row, Shape, Advance, PayloadOf, ReachSources, Straight, Touched, DirtOf, SeedOf, Labels,
      Soiling, DirtyNode, Commits;
    var c, n := ContextOf(plan, Only(plan, o)), plan.nodes[idx];
    CommitsBy(c, l, d, idx, o, l.executed + [idx], Atom(0), Join(SeedOf(c, l.core, idx), Touch(n, o)), Some(n.seal));
  }

  lemma JoinSelects(plan: Plan, o: string, l: Loop, d: Dirt, idx: nat)
    requires WellFormed(plan.nodes) && Straight(plan.nodes) && idx < |plan.nodes| && Reaches(plan, o, l, d, idx)
    requires plan.nodes[idx].JoinNode?
    ensures Select(Soiling(plan.nodes, o), l.core, idx, plan.nodes[idx]).All?
  {
    hide Certain, Possible, Split;
    var nodes, n := plan.nodes, plan.nodes[idx];
    assert Admissible(nodes[..idx], n);
    forall f | f in n.inputs ensures n.inputs[f].agent in l.core.outputs {
      assert n.inputs[f].agent in Bound(n.inputs);
    }
  }

  lemma JoinSplits(plan: Plan, o: string, l: Loop, d: Dirt, idx: nat)
    requires WellFormed(plan.nodes) && Straight(plan.nodes) && idx < |plan.nodes| && Reaches(plan, o, l, d, idx)
    requires plan.nodes[idx].JoinNode?
    ensures
      var nodes, n := plan.nodes, plan.nodes[idx];
      && (Labels(l.core.trust, Sources(n)).Untrusted? <==> o in Row(Certain(nodes), n.name))
      && ((exists s :: s in Bound(n.inputs) && DirtyNode(d, s)) <==> o in Row(Possible(nodes), n.name))
  {
    var nodes, n := plan.nodes, plan.nodes[idx];
    assert Admissible(nodes[..idx], n);
    hide Certain, Possible, WellFormed;
    forall s | s in Sources(n) + Bound(n.inputs) ensures Split(nodes, o, l.core, d, s) {
      EarlierSplit(plan, o, l, d, idx, s);
    }
    hide Reaches;
    SplitUnion(nodes, o, l.core, d, Sources(n));
    SplitUnion(nodes, o, l.core, d, Bound(n.inputs));
    RowsOf(nodes, idx);
  }

  lemma JoinGoes(plan: Plan, o: string, l: Loop, idx: nat)
    requires idx < |plan.nodes| && Unhindered(l, idx) && plan.nodes[idx].JoinNode?
    requires Select(Soiling(plan.nodes, o), l.core, idx, plan.nodes[idx]).All?
    ensures
      var n, v := plan.nodes[idx], Select(Soiling(plan.nodes, o), l.core, idx, plan.nodes[idx]).value;
      Advance(ContextOf(plan, Only(plan, o)), l, idx) ==
        Continue(Commit(l, idx, n.name, v, Labels(l.core.trust, Sources(n)), None))
  {
    hide Select, Labels;
    assert (set s | s in plan.nodes[idx].sources) == Sources(plan.nodes[idx]);
  }

  lemma JoinCommits(plan: Plan, o: string, l: Loop, d: Dirt, idx: nat)
    requires WellFormed(plan.nodes) && Straight(plan.nodes) && idx < |plan.nodes| && Reaches(plan, o, l, d, idx)
    requires plan.nodes[idx].JoinNode?
    ensures Commits(ContextOf(plan, Only(plan, o)), l, d, idx, o)
  {
    JoinSelects(plan, o, l, d, idx);
    JoinSplits(plan, o, l, d, idx);
    JoinGoes(plan, o, l, idx);
    hide Certain, Possible, WellFormed, Select, Row, Straight, Shape, Split, Advance, Labels, Soiling, DirtyNode, Commits;
    var c, n := ContextOf(plan, Only(plan, o)), plan.nodes[idx];
    var v := Select(c.env, l.core, idx, n).value;
    CommitsBy(c, l, d, idx, o, l.executed, v, Labels(l.core.trust, Sources(n)), None);
  }

  lemma ReachesNext(plan: Plan, o: string, l: Loop, l': Loop, d: Dirt, d': Dirt, idx: nat)
    requires idx < |plan.nodes| && Reaches(plan, o, l, d, idx) && Shape(plan.nodes, l'.core, idx + 1)
    requires forall i: nat :: i < idx ==> plan.nodes[i].name != plan.nodes[idx].name
    requires l'.store.Some? && l'.store.value.skipped == l.store.value.skipped && l'.store.value.request == l.store.value.request
    requires
      var name := plan.nodes[idx].name;
      && Split(plan.nodes, o, l'.core, d', name)
      && l'.core == Ran(l.core, name, l'.core.outputs[name], l'.core.trust[name])
      && l'.store.value.outputs == l.store.value.outputs[idx := l'.core.outputs[name]]
      && l'.store.value.trusts == l.store.value.trusts[idx := l'.core.trust[name]]
      && d'.nodes == d.nodes[name := d'.nodes[name]] && d'.stored == d.stored[idx := d'.nodes[name]]
    ensures Reaches(plan, o, l', d', idx + 1)
  {
    hide Certain, Possible, Row, Shape;
  }

  lemma Reached(plan: Plan, o: string, l: Loop, d: Dirt, idx: nat)
    requires WellFormed(plan.nodes) && Straight(plan.nodes) && idx < |plan.nodes| && Reaches(plan, o, l, d, idx)
    ensures
      var c := ContextOf(plan, Only(plan, o));
      Advance(c, l, idx).Continue? && Reaches(plan, o, Advance(c, l, idx).l, Spread(c, l, d, idx), idx + 1)
  {
    hide Advance, WellFormed, Straight, Spread, DirtOf, SoiledAt, Certain, Possible;
    var c := ContextOf(plan, Only(plan, o));
    if plan.nodes[idx].AgentNode? { AgentCommits(plan, o, l, d, idx); } else { JoinCommits(plan, o, l, d, idx); }
    AdvanceShape(c, l, idx);
    SpreadOutput(c, l, d, idx);
    forall i: nat | i < idx ensures plan.nodes[i].name != plan.nodes[idx].name {
      NamesDistinct(plan.nodes, i, idx);
    }
    hide Reaches, Shape, Row, Soiling;
    ReachesNext(plan, o, l, Advance(c, l, idx).l, d, Spread(c, l, d, idx), idx);
  }

  lemma {:induction false} Through(plan: Plan, o: string, l: Loop, d: Dirt, idx: nat)
    requires WellFormed(plan.nodes) && Straight(plan.nodes) && idx <= |plan.nodes| && Reaches(plan, o, l, d, idx)
    ensures
      var (l', d') := Tracked(ContextOf(plan, Only(plan, o)), l, d, idx, |plan.nodes| - idx);
      Reaches(plan, o, l', d', |plan.nodes|)
    decreases |plan.nodes| - idx
  {
    hide Advance, Spread, Reaches, WellFormed, Straight;
    if idx < |plan.nodes| {
      var c := ContextOf(plan, Only(plan, o));
      Reached(plan, o, l, d, idx);
      Through(plan, o, Advance(c, l, idx).l, Spread(c, l, d, idx), idx + 1);
    }
  }

  // ---- exactly when labels are right ----------------------------------------

  /** No stored output and no request that any attempts leave behind is labelled Trusted over untrusted data. */
  ghost predicate NeverWrong(plan: Plan) {
    forall tries :: LabelsHold(StoreAfter(plan, tries), Story(plan, tries).1)
  }

  ghost predicate LabelsHold(r: Record, d: Dirt) {
    && (forall i :: i in r.outputs && TrustOf(r, i).Trusted? ==> !DirtyStored(d, i))
    && (r.request.Some? && r.request.value.trust.Trusted? ==> !d.proposed)
  }

  /** A new store, and one attempt that goes through. */
  lemma OnlyReaches(plan: Plan, o: string)
    requires WellFormed(plan.nodes) && Straight(plan.nodes)
    ensures
      var tries, n := [Only(plan, o)], |plan.nodes|;
      forall i: nat :: i < n ==>
        && i in StoreAfter(plan, tries).outputs
        && (TrustOf(StoreAfter(plan, tries), i).Untrusted? <==> o in Row(Certain(plan.nodes), plan.nodes[i].name))
        && (DirtyStored(Story(plan, tries).1, i) <==> o in Row(Possible(plan.nodes), plan.nodes[i].name))
  {
    var t, c, r := Only(plan, o), ContextOf(plan, Only(plan, o)), EMPTY.(topology := Some(plan.topology));
    StoryIsTheStore(plan, [t]);
    hide Advance, WellFormed, Straight, Certain, Possible, Row;
    assert [t][..0] == [] && plan.nodes[..0] == [];
    assert Preflight(c, EMPTY) == Ok(r);
    Through(plan, o, Start(Some(r)), CLEAN, 0);
    TrackedIsCut(c, Start(Some(r)), CLEAN, 0, |plan.nodes|);
    hide Tracked;
    var (l, d) := Tracked(c, Start(Some(r)), CLEAN, 0, |plan.nodes|);
    assert Tried(plan, EMPTY, CLEAN, t) == Some((l, d));
    assert Story(plan, [t]).1 == d;
    assert StoreOf(plan, EMPTY, t) == l.store.value by { FirstStore(plan, t, c, r, l, d); }
  }

  lemma FirstStore(plan: Plan, t: Try, c: Context, r: Record, l: Loop, d: Dirt)
    requires c == ContextOf(plan, t) && t.env.clean && Preflight(c, EMPTY) == Ok(r) && l.store.Some?
    requires l == Cut(c, Start(Some(r)), 0, t.nodes)
    ensures StoreOf(plan, EMPTY, t) == l.store.value
  {
  }

  /** In a plan without branches, labels are right in every run exactly when every join covers what it binds. */
  lemma CoverExactly(plan: Plan)
    requires WellFormed(plan.nodes) && Straight(plan.nodes)
    ensures NeverWrong(plan) <==> JoinsCover(plan.nodes)
  {
    if JoinsCover(plan.nodes) {
      forall tries ensures LabelsHold(StoreAfter(plan, tries), Story(plan, tries).1) {
        TrustedIsClean(plan, tries, Only(plan, ""));
      }
    } else {
      Uncovered(plan);
    }
  }

  lemma Uncovered(plan: Plan)
    requires WellFormed(plan.nodes) && Straight(plan.nodes) && !JoinsCover(plan.nodes)
    ensures !NeverWrong(plan)
  {
    var j, o := Gap(plan.nodes);
    hide WellFormed, Straight, JoinsCover, Row, StoreAfter, Story;
    OnlyReaches(plan, o);
    assert !LabelsHold(StoreAfter(plan, [Only(plan, o)]), Story(plan, [Only(plan, o)]).1);
  }

  /** A join, and an agent that may be behind its data but is not sure to count in its label. */
  lemma Gap(nodes: seq<Node>) returns (j: nat, o: string)
    requires WellFormed(nodes) && Straight(nodes) && !JoinsCover(nodes)
    ensures j < |nodes| && o in Row(Possible(nodes), nodes[j].name) && o !in Row(Certain(nodes), nodes[j].name)
  {
    j :| j < |nodes| && nodes[j].JoinNode? && exists s :: s in Bound(nodes[j].inputs) && !Covers(nodes, nodes[j], s);
    var s :| s in Bound(nodes[j].inputs) && !Covers(nodes, nodes[j], s);
    o :| o in Row(Possible(nodes), s) && o !in Union(Certain(nodes), Sources(nodes[j]));
    hide WellFormed, JoinsCover, Certain, Possible;
    RowsOf(nodes, j);
    assert o in Union(Possible(nodes), Bound(nodes[j].inputs));
  }
}
