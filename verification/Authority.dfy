/** What a pipeline manifest allows its agents to use. */
module Authority {

  import opened Wrappers

  const EVIDENCE_REF := "evidence://retrieve"

  datatype Fact = Fact(subject: string, kind: string, ref: string, scope: string)

  datatype AgentConfig = AgentConfig(name: string, tools: seq<string>, hasModel: bool)

  datatype EvidencePolicy = EvidencePolicy(enabled: bool, search: bool, full: bool)

  datatype NodeConfig =
    | StepConfig(agent: string, evidence: Option<EvidencePolicy>)
    | JoinConfig(name: string)

  datatype PipelineConfig = PipelineConfig(agents: seq<AgentConfig>, steps: seq<NodeConfig>)

  type AgentMap = map<string, AgentConfig>

  /** Agents by name; the last one of a name counts. */
  function Agents(agents: seq<AgentConfig>): AgentMap {
    if agents == [] then map[]
    else Agents(agents[..|agents| - 1])[agents[|agents| - 1].name := agents[|agents| - 1]]
  }

  function ToolFact(subject: string, ref: string): Fact {
    Fact(subject, "tool", ref, "*")
  }

  function EvidenceFact(subject: string, scope: string): Fact {
    Fact(subject, "evidence", EVIDENCE_REF, scope)
  }

  /** The manifest lets some step use this: a declared tool, or evidence retrieval that its policy allows. */
  ghost predicate Grants(agents: AgentMap, node: NodeConfig, f: Fact) {
    && node.StepConfig? && node.agent in agents
    && var agent := agents[node.agent];
       || (exists ref :: ref in agent.tools && f == ToolFact(node.agent, ref))
       || (node.evidence.Some? && node.evidence.value.enabled && agent.hasModel
           && ((node.evidence.value.search && f == EvidenceFact(node.agent, "search"))
               || (node.evidence.value.full && f == EvidenceFact(node.agent, "full"))))
  }

  function ToolFacts(subject: string, tools: seq<string>): set<Fact> {
    set ref | ref in tools :: ToolFact(subject, ref)
  }

  function NodeFacts(agents: AgentMap, node: NodeConfig): (facts: set<Fact>)
    ensures forall f :: f in facts <==> Grants(agents, node, f)
  {
    if node.JoinConfig? || node.agent !in agents then {}
    else
      var agent := agents[node.agent];
      ToolFacts(node.agent, agent.tools)
      + if node.evidence.Some? && node.evidence.value.enabled && agent.hasModel then
          (if node.evidence.value.search then {EvidenceFact(node.agent, "search")} else {})
          + (if node.evidence.value.full then {EvidenceFact(node.agent, "full")} else {})
        else {}
  }

  function Footprint(config: PipelineConfig): set<Fact> {
    FootprintUpTo(config, |config.steps|)
  }

  function FootprintUpTo(config: PipelineConfig, n: nat): (facts: set<Fact>)
    requires n <= |config.steps|
    ensures forall f :: f in facts <==> exists m :: 0 <= m < n && Grants(Agents(config.agents), config.steps[m], f)
  {
    if n == 0 then {} else FootprintUpTo(config, n - 1) + NodeFacts(Agents(config.agents), config.steps[n - 1])
  }

  /** The agent at `i` is the last one of its name. */
  predicate LastNamed(agents: seq<AgentConfig>, i: int, name: string) {
    0 <= i < |agents| && agents[i].name == name && forall j :: i < j < |agents| ==> agents[j].name != name
  }

  lemma {:induction false} AgentsExactly(agents: seq<AgentConfig>, name: string)
    ensures name in Agents(agents) <==> exists i :: 0 <= i < |agents| && agents[i].name == name
    ensures forall i :: LastNamed(agents, i, name) ==> name in Agents(agents) && Agents(agents)[name] == agents[i]
    ensures name in Agents(agents) ==> exists i :: LastNamed(agents, i, name)
    decreases |agents|
  {
    if agents != [] {
      var n := |agents| - 1;
      AgentsExactly(agents[..n], name);
      if agents[n].name == name {
        assert LastNamed(agents, n, name);
      } else {
        forall i ensures LastNamed(agents, i, name) <==> LastNamed(agents[..n], i, name) {
        }
      }
    }
  }

  /** The agent of some step may use this: it declares the tool, or has a model and an enabled policy that allows the
      retrieval. */
  ghost predicate MayUse(config: PipelineConfig, m: int, i: int, f: Fact) {
    && 0 <= m < |config.steps| && config.steps[m].StepConfig? && LastNamed(config.agents, i, config.steps[m].agent)
    && f.subject == config.steps[m].agent
    && var agent, evidence := config.agents[i], config.steps[m].evidence;
       || (f.kind == "tool" && f.ref in agent.tools && f.scope == "*")
       || (f.kind == "evidence" && f.ref == "evidence://retrieve"
           && agent.hasModel && evidence.Some? && evidence.value.enabled
           && ((f.scope == "search" && evidence.value.search) || (f.scope == "full" && evidence.value.full)))
  }

  /** The footprint is exactly what the agents of the steps may use. */
  lemma FootprintExactly(config: PipelineConfig, f: Fact)
    ensures f in Footprint(config) <==> exists m, i :: MayUse(config, m, i, f)
  {
    var agents := Agents(config.agents);
    forall m | 0 <= m < |config.steps|
      ensures Grants(agents, config.steps[m], f) <==> exists i :: MayUse(config, m, i, f)
    {
      if config.steps[m].StepConfig? {
        var name := config.steps[m].agent;
        AgentsExactly(config.agents, name);
        if name in agents {
          var i :| LastNamed(config.agents, i, name);
          assert Grants(agents, config.steps[m], f) <==> MayUse(config, m, i, f);
        }
      }
    }
    hide MayUse, Grants;
    if m, i :| MayUse(config, m, i, f) { StepInRange(config, m, i, f); }
  }

  lemma StepInRange(config: PipelineConfig, m: int, i: int, f: Fact)
    requires MayUse(config, m, i, f)
    ensures 0 <= m < |config.steps|
  {
  }

  method AgentsByName(agents: seq<AgentConfig>) returns (m: AgentMap)
    ensures m == Agents(agents)
  {
    m := map[];
    for i := 0 to |agents|
      invariant m == Agents(agents[..i])
    {
      assert agents[..i + 1][..i] == agents[..i];
      m := m[agents[i].name := agents[i]];
    }
    assert agents[..|agents|] == agents;
  }

  method FactsOfTools(subject: string, tools: seq<string>) returns (facts: set<Fact>)
    ensures facts == ToolFacts(subject, tools)
  {
    facts := {};
    for j := 0 to |tools|
      invariant facts == ToolFacts(subject, tools[..j])
    {
      assert tools[..j + 1] == tools[..j] + [tools[j]];
      facts := facts + {ToolFact(subject, tools[j])};
    }
    assert tools[..|tools|] == tools;
  }

  method FactsOfStep(node: NodeConfig, agent: AgentConfig) returns (facts: set<Fact>)
    requires node.StepConfig?
    ensures forall agents: AgentMap :: node.agent in agents && agents[node.agent] == agent ==> facts == NodeFacts(agents, node)
  {
    hide Grants;
    facts := FactsOfTools(node.agent, agent.tools);
    if node.evidence.Some? && node.evidence.value.enabled && agent.hasModel {
      if node.evidence.value.search {
        facts := facts + {EvidenceFact(node.agent, "search")};
      }
      if node.evidence.value.full {
        facts := facts + {EvidenceFact(node.agent, "full")};
      }
    }
  }

  method EffectiveAuthority(config: PipelineConfig) returns (facts: set<Fact>)
    ensures facts == Footprint(config)
  {
    hide Grants;
    var agents := AgentsByName(config.agents);
    facts := {};
    for i := 0 to |config.steps|
      invariant facts == FootprintUpTo(config, i)
    {
      var node := config.steps[i];
      if node.StepConfig? && node.agent in agents {
        var found := FactsOfStep(node, agents[node.agent]);
        facts := facts + found;
      }
    }
  }

  /** The gate on a manifest edit: it passes exactly when no fact is new. */
  method CheckNoNewAuthority(before: PipelineConfig, after: PipelineConfig) returns (ok: bool, added: set<Fact>, removed: set<Fact>)
    ensures ok <==> Footprint(after) <= Footprint(before)
    ensures added == Footprint(after) - Footprint(before) && removed == Footprint(before) - Footprint(after)
  {
    var was := EffectiveAuthority(before);
    var now := EffectiveAuthority(after);
    added, removed := now - was, was - now;
    ok := added == {};
    assert ok <==> now <= was;
  }
}
