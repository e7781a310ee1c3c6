/** Which agents may, and which must, have a hand in the output of a node, as far as the nodes alone tell. */
module Lineage {

  import opened Graph

  type Table = map<string, set<string>>

  function Row(t: Table, name: string): set<string> {
    if name in t then t[name] else {}
  }

  function Union(t: Table, names: set<string>): set<string> {
    set s, o | s in names && s in t && o in t[s] :: o
  }

  function Common(t: Table, names: seq<string>): set<string> {
    if names == [] then {} else set o | o in Row(t, names[0]) && forall s :: s in names ==> o in Row(t, s)
  }

  function Sources(n: Node): set<string>
    requires n.JoinNode?
  {
    set s | s in n.sources
  }

  /** The agents behind node `i`, given those behind the nodes before it. With `certain`, those that its label is sure
      to count in; else all those that its data may come from. Only a join can make these differ: its label counts in
      what it waits for, its data comes from what it binds, and a selecting join picks one of its sources. */
  function RowAt(certain: bool, t: Table, nodes: seq<Node>, i: nat): set<string>
    requires i < |nodes|
  {
    var n := nodes[i];
    if n.AgentNode? then {n.name} + Union(t, ReachSources(nodes, i))
    else if n.policy.AllPresent? then Union(t, if certain then Sources(n) else Bound(n.inputs))
    else if certain then Common(t, n.sources)
    else Union(t, Sources(n))
  }

  function TableOf(certain: bool, nodes: seq<Node>, k: nat): Table
    requires k <= |nodes|
  {
    if k == 0 then map[]
    else
      var t := TableOf(certain, nodes, k - 1);
      t[nodes[k - 1].name := RowAt(certain, t, nodes, k - 1)]
  }

  /** Counted in by the label of a node, whatever happens in the run. */
  function Certain(nodes: seq<Node>): Table {
    TableOf(true, nodes, |nodes|)
  }

  /** Possibly behind the data of a node. */
  function Possible(nodes: seq<Node>): Table {
    TableOf(false, nodes, |nodes|)
  }

  /** A join binds a node that it waits for, or one whose data comes from agents alone that its label counts in. */
  predicate Covers(nodes: seq<Node>, n: Node, s: string)
    requires n.JoinNode?
  {
    s in n.sources || Row(Possible(nodes), s) <= Union(Certain(nodes), Sources(n))
  }

  /** Every join that builds its output from bindings covers them. */
  predicate JoinsCover(nodes: seq<Node>) {
    forall i :: 0 <= i < |nodes| && nodes[i].JoinNode? && nodes[i].policy.AllPresent? ==>
      forall s :: s in Bound(nodes[i].inputs) ==> Covers(nodes, nodes[i], s)
  }

  lemma {:induction false} Keys(certain: bool, nodes: seq<Node>, k: nat)
    requires k <= |nodes|
    ensures TableOf(certain, nodes, k).Keys == Names(nodes[..k])
    decreases k
  {
    if k > 0 {
      Keys(certain, nodes, k - 1);
      NamesNext(nodes, k - 1);
    }
  }

  /** Only earlier nodes matter for a row. */
  lemma RowLooksBack(certain: bool, t: Table, t': Table, nodes: seq<Node>, i: nat)
    requires WellFormed(nodes) && i < |nodes|
    requires forall s :: s in Names(nodes[..i]) ==> s in t && s in t' && t[s] == t'[s]
    ensures RowAt(certain, t, nodes, i) == RowAt(certain, t', nodes, i)
    ensures
      RowAt(certain, t, nodes, i) <=
        Union(t, Names(nodes[..i])) + if nodes[i].AgentNode? then {nodes[i].name} else {}
  {
    assert Admissible(nodes[..i], nodes[i]);
    if nodes[i].AgentNode? { ReachSourcesEarlier(nodes, i); }
  }

  lemma NamesGrow(nodes: seq<Node>, i: nat, k: nat)
    requires i <= k <= |nodes|
    ensures Names(nodes[..i]) <= Names(nodes[..k])
  {
    forall s | s in Names(nodes[..i]) ensures s in Names(nodes[..k]) {
      var m :| 0 <= m < i && nodes[..i][m].name == s;
      assert nodes[..k][m].name == s;
    }
  }

  /** Later nodes leave a row as it is. */
  lemma {:induction false} Stays(certain: bool, nodes: seq<Node>, i: nat, k: nat)
    requires WellFormed(nodes) && i <= k <= |nodes|
    ensures forall s :: s in Names(nodes[..i]) ==>
              s in TableOf(certain, nodes, i) && s in TableOf(certain, nodes, k)
              && TableOf(certain, nodes, k)[s] == TableOf(certain, nodes, i)[s]
    decreases k
  {
    hide RowAt;
    Keys(certain, nodes, i);
    if i < k {
      Stays(certain, nodes, i, k - 1);
      NamesGrow(nodes, i, k - 1);
      assert Admissible(nodes[..k - 1], nodes[k - 1]);
    }
  }

  /** No row names a later node. */
  lemma {:induction false} Earlier(certain: bool, nodes: seq<Node>, k: nat)
    requires WellFormed(nodes) && k <= |nodes|
    ensures forall s :: s in TableOf(certain, nodes, k) ==> TableOf(certain, nodes, k)[s] <= Names(nodes[..k])
    decreases k
  {
    hide RowAt;
    if k > 0 {
      var t := TableOf(certain, nodes, k - 1);
      Earlier(certain, nodes, k - 1);
      Keys(certain, nodes, k - 1);
      NamesNext(nodes, k - 1);
      RowLooksBack(certain, t, t, nodes, k - 1);
    }
  }

  /** The finished table keeps to the rule of each row, and no row names a later node. */
  lemma RowRule(certain: bool, nodes: seq<Node>, i: nat)
    requires WellFormed(nodes) && i < |nodes|
    ensures
      var t, name := TableOf(certain, nodes, |nodes|), nodes[i].name;
      name in t && t[name] == RowAt(certain, t, nodes, i) && t[name] <= Names(nodes[..i + 1])
  {
    hide RowAt;
    Stays(certain, nodes, i, |nodes|);
    Stays(certain, nodes, i + 1, |nodes|);
    Earlier(certain, nodes, i + 1);
    NamesNext(nodes, i);
    RowLooksBack(certain, TableOf(certain, nodes, i), TableOf(certain, nodes, |nodes|), nodes, i);
  }
}
