/** What both revisions of the conversation graph share: chat messages, the
    node labels, and the test for the "TERMINATE" marker in a reply. */
module Chat {
  import opened PyText

  /** The three LangChain message classes the graph uses: `SystemMessage`,
      `HumanMessage` and `AIMessage`. */
  datatype Role = System | Human | AI

  datatype Message = Message(role: Role, content: string)

  /** A value, or the name of the Python exception that was raised instead. */
  datatype Result<T> = Ok(value: T) | Err(error: string)

  /** LangGraph's `END` sentinel. */
  const END := "__end__"
  const AGENT1 := "agent1"
  const AGENT2 := "agent2"
  const INTERRUPT := "interrupt"

  const TERMINATE := "TERMINATE"

  /** The nodes of the compiled graph. */
  datatype Node = Agent1Node | Agent2Node | HumanNode | EndNode

  /** The path map of the human node's conditional edge, the same in both
      revisions. */
  const HUMAN_EDGES: map<string, Node> := map[AGENT1 := Agent1Node, END := EndNode]

  /** The lambda on the human node's conditional edge, on the messages the
      human node returned: its answer is always a key of the path map, which
      leads to agent1 exactly when there is a message and to END otherwise. */
  function HumanRoute(messages: seq<Message>): (key: string)
    ensures key in HUMAN_EDGES
    ensures HUMAN_EDGES[key] == Agent1Node <==> messages != []
    ensures HUMAN_EDGES[key] == EndNode <==> messages == []
  {
    if messages != [] then AGENT1 else END
  }

  /** `messages[-1].content`: the content of the message the list ends
      with; Python raises IndexError on an empty list. */
  function LastContent(messages: seq<Message>): (r: Result<string>)
    ensures r.Ok? <==> messages != []
    ensures r.Err? ==> r.error == "IndexError"
    ensures r.Ok? ==> exists m :: messages == messages[..|messages| - 1] + [m] && m.content == r.value
  {
    if messages == [] then Err("IndexError")
    else
      var m := messages[|messages| - 1];
      assert messages == messages[..|messages| - 1] + [m];
      Ok(m.content)
  }

  /** `"TERMINATE" in content.upper()`. The test is case-insensitive: it
      holds exactly when some nine consecutive characters of the content
      spell the word in any mix of upper and lower case. */
  predicate MentionsTerminate(content: string)
    ensures MentionsTerminate(content) <==> exists i :: UppersToAt(content, TERMINATE, i)
  {
    ContainsUpper(content, TERMINATE);
    Contains(Upper(content), TERMINATE)
  }

  /** "terminate", "Terminate" and "TERMINATE" anywhere in a reply all count. */
  lemma {:induction false} MentionsTerminateAt(content: string, i: nat)
    requires i + |TERMINATE| <= |content|
    requires UppersTo(content[i..i + |TERMINATE|], TERMINATE)
    ensures MentionsTerminate(content)
  {
    assert UppersToAt(content, TERMINATE, i);
  }
}
