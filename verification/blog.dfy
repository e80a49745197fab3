/**
 * The values the orchestrator works on: the six agents, the agent table,
 * the responses the pipeline collects and the `BlogState` record the UI observes,
 * with the status an agent card derives from it.
 */
module Blog {

  datatype Option<T> = None | Some(value: T)

  /** The six pipeline agents. */
  datatype AgentId = Researcher | Writer | Compliance | Enhancer | SEO | Editor

  /** An entry of the agent table; only the display name is used by the orchestrator. */
  datatype AgentDef = AgentDef(id: AgentId, name: string)

  /**
   * The agent table (`AGENTS`) and the string value of each `AgentId` member.
   * Both live outside the orchestrator, so they are parameters of the model.
   */
  datatype Registry = Registry(agents: seq<AgentDef>, idText: AgentId -> string)

  /** One finished stage: which agent produced what. The timestamp is not modelled. */
  datatype AgentResponse = AgentResponse(agentId: AgentId, content: string)

  datatype BlogState = BlogState(
    keyword: string,
    activeAgents: seq<AgentId>,
    history: seq<AgentResponse>,
    finalPost: Option<string>,
    isGenerating: bool,
    error: Option<string>)

  /** The state the page starts in and that `reset` restores. */
  const Initial := BlogState("", [], [], None, false, None)

  /** The agents that have a response in a history, in history order. */
  function Ids(history: seq<AgentResponse>): (ids: seq<AgentId>)
    ensures |ids| == |history|
    ensures forall i :: 0 <= i < |history| ==> ids[i] == history[i].agentId
  {
    seq(|history|, i requires 0 <= i < |history| => history[i].agentId)
  }

  predicate IsActive(s: BlogState, id: AgentId) {
    id in s.activeAgents
  }

  predicate IsCompleted(s: BlogState, id: AgentId) {
    exists i :: 0 <= i < |s.history| && s.history[i].agentId == id
  }

  predicate IsWaiting(s: BlogState, id: AgentId) {
    !IsActive(s, id) && !IsCompleted(s, id)
  }

  /** Completion is membership in the list of agents of the history. */
  lemma CompletedIffInIds(s: BlogState, id: AgentId)
    ensures IsCompleted(s, id) <==> id in Ids(s.history)
  {
    if id in Ids(s.history) {
      var i :| 0 <= i < |s.history| && Ids(s.history)[i] == id;
      assert s.history[i].agentId == id;
    }
  }

  /** Right after loading or `reset`, every agent card shows "waiting". */
  lemma InitialAllWaiting(id: AgentId)
    ensures IsWaiting(Initial, id)
  {
  }
}
