/** The agent registry of the orchestrator package: a fixed table from agent
    id to agent class, built once; lookups and the listing only read it. */
module AgentRegistry {
  import opened Wrappers
  import opened Dicts
  import opened Agents
  import SetupAgents

  /** The table, in insertion order. */
  const Registry: Assoc<string, AgentClass> :=
    [("video-agent", VideoAgent), ("audio-agent", AudioAgent),
     ("metadata-agent", MetadataAgent), ("storyboard-agent", StoryboardAgent)]

  /** get_agent_class: the class registered under an id, if any. */
  function GetAgentClass(agentId: string): Option<AgentClass> {
    Get(Registry, agentId)
  }

  /** list_agents: the registered ids in insertion order. */
  function ListAgents(): seq<string> {
    Keys(Registry)
  }

  /** Each of the four ids maps to its own class, and every other id to
      nothing. */
  lemma GetAgentClassSpec(agentId: string)
    ensures GetAgentClass("video-agent") == Some(VideoAgent)
    ensures GetAgentClass("audio-agent") == Some(AudioAgent)
    ensures GetAgentClass("metadata-agent") == Some(MetadataAgent)
    ensures GetAgentClass("storyboard-agent") == Some(StoryboardAgent)
    ensures GetAgentClass(agentId).Some? <==> agentId in ListAgents()
  {
    GetKeys(Registry, agentId);
    GetAt(Registry, 2);
    GetAt(Registry, 3);
  }

  /** The listing holds the four ids, video first and storyboard last, once
      each. */
  lemma ListAgentsSpec()
    ensures ListAgents() == ["video-agent", "audio-agent", "metadata-agent", "storyboard-agent"]
    ensures forall p, q :: 0 <= p < q < |ListAgents()| ==> ListAgents()[p] != ListAgents()[q]
  {
    assert Keys(Registry) == ["video-agent", "audio-agent", "metadata-agent", "storyboard-agent"];
  }

  /** The listing has the same agents as the processing order of the setup
      script, in a different order. */
  lemma ListingDiffersFromSetupOrder()
    ensures multiset(ListAgents()) == multiset(SetupAgents.AgentOrder)
    ensures ListAgents() != SetupAgents.AgentOrder
    ensures ListAgents()[0] == "video-agent" && SetupAgents.AgentOrder[0] == "metadata-agent"
  {
    ListAgentsSpec();
    var l := ListAgents();
    assert l == ["video-agent", "audio-agent", "metadata-agent", "storyboard-agent"];
    assert l == ["video-agent"] + ["audio-agent"] + ["metadata-agent"] + ["storyboard-agent"];
    assert SetupAgents.AgentOrder == ["metadata-agent"] + ["video-agent"] + ["audio-agent"] + ["storyboard-agent"];
  }
}
