/** The first revision of the conversation graph, `main.py`: the same two
    agents and human node without iteration counting or token accounting.
    The LLM reply and the user's typed line are parameters. */
module MainGraph {
  import opened PyText
  import opened Chat

  const FIRST_MESSAGE := "Write a poem about AI collaboration"

  /** `AgentState`. */
  datatype State = State(messages: seq<Message>, currentAgent: string)

  /** `initial_state`: agent1's turn, with the task as the one human
      message, so the router can read a last message. */
  function Initial(): (s: State)
    ensures s.currentAgent == AGENT1
    ensures |s.messages| == 1 && s.messages[0].role == Human
  {
    State([Message(Human, FIRST_MESSAGE)], AGENT1)
  }

  /** `agent_node`: the reply is the one message returned, and
      `current_agent` is kept as it was. The system prompt only goes into
      the LLM call, whose reply is the parameter, so it does not appear. */
  function AgentNode(s: State, reply: string): (r: State)
    ensures |r.messages| == 1 && r.messages[0] == Message(AI, reply)
    ensures r.currentAgent == s.currentAgent
  {
    State([Message(AI, reply)], s.currentAgent)
  }

  /** `human_node`, with the line the user typed as `text`: feedback that is
      not blank is the one message and hands the turn to agent1; blank
      feedback gives no message and END. */
  function HumanNode(s: State, text: string): (r: State)
    ensures !IsBlank(text) ==> r == State([Message(Human, text)], AGENT1)
    ensures IsBlank(text) ==> r == State([], END)
  {
    if Strip(text) != [] then State([Message(Human, text)], AGENT1) else State([], END)
  }

  /** `route_to_agent`: "interrupt" when the last message mentions TERMINATE
      in any letter case, and otherwise `current_agent` unchanged; so the
      answer is "interrupt" exactly when the marker is there or
      `current_agent` itself is "interrupt". Python's IndexError when there
      is no message. */
  function RouteToAgent(s: State): (r: Result<string>)
    ensures s.messages == [] ==> r == Err("IndexError")
    ensures s.messages != [] ==>
              var last := s.messages[|s.messages| - 1].content;
              && ((exists i :: UppersToAt(last, TERMINATE, i)) ==> r == Ok(INTERRUPT))
              && (!MentionsTerminate(last) ==> r == Ok(s.currentAgent))
              && (r == Ok(INTERRUPT) <==> MentionsTerminate(last) || s.currentAgent == INTERRUPT)
  {
    match LastContent(s.messages)
    case Err(e) => Err(e)
    case Ok(last) =>
      if MentionsTerminate(last) then Ok(INTERRUPT) else Ok(s.currentAgent)
  }

  /** The human edge goes to agent1 exactly when the feedback is not blank,
      and to END otherwise. */
  lemma HumanEdge(s: State, text: string)
    ensures HumanRoute(HumanNode(s, text).messages) == AGENT1 <==> !IsBlank(text)
    ensures HumanRoute(HumanNode(s, text).messages) == END <==> IsBlank(text)
  {
  }

  /** One node run, with what the environment supplied to it. */
  datatype Turn = AgentTurn(reply: string) | HumanTurn(text: string)

  function Apply(s: State, t: Turn): State {
    match t
    case AgentTurn(reply) => AgentNode(s, reply)
    case HumanTurn(text) => HumanNode(s, text)
  }

  function Run(s: State, turns: seq<Turn>): State
    decreases |turns|
  {
    if turns == [] then s else Run(Apply(s, turns[0]), turns[1..])
  }

  /** No node sets `current_agent` to anything but its old value, "agent1" or
      END, so once it is one of those two it stays so. */
  lemma {:induction false} CurrentAgentStaysAgent1OrEnd(s: State, turns: seq<Turn>)
    requires s.currentAgent == AGENT1 || s.currentAgent == END
    ensures Run(s, turns).currentAgent == AGENT1 || Run(s, turns).currentAgent == END
    decreases |turns|
  {
    if turns != [] {
      CurrentAgentStaysAgent1OrEnd(Apply(s, turns[0]), turns[1..]);
    }
  }

  /** From `initial_state`, whatever the nodes run and whatever the agents
      and the user say, the router never answers "agent2", and it answers
      "interrupt" exactly when the last message mentions TERMINATE. */
  lemma NeverRoutesToAgent2(turns: seq<Turn>)
    ensures RouteToAgent(Run(Initial(), turns)) != Ok(AGENT2)
    ensures var s := Run(Initial(), turns);
            s.messages != [] ==>
              (RouteToAgent(s) == Ok(INTERRUPT) <==> MentionsTerminate(s.messages[|s.messages| - 1].content))
  {
    CurrentAgentStaysAgent1OrEnd(Initial(), turns);
  }
}
