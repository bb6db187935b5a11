/** The two-agent conversation graph of `agent_collab_v2.py`: two LLM agents
    take turns, a human is asked for feedback whenever a reply says
    TERMINATE, and an iteration cap stops runaway rounds.

    The LLM reply, the text the user types and the tokenizer are parameters,
    so every node is a total function from state to state and the router a
    function from state to edge label. Each node's returned record is the next
    state: no channel of the state has a reducer, so LangGraph overwrites
    every field, `messages` included. */
module AgentCollab {
  import opened PyText
  import opened Chat

  const MAX_ITERATIONS := 5
  const CAP_MESSAGE := "TERMINATE - Max iterations reached"
  const FIRST_MESSAGE := "Let's work on this task together"

  /** `AgentState`. */
  datatype State = State(
    messages: seq<Message>,
    currentAgent: string,
    iterations: int,
    threadId: string,
    totalInputTokens: int,
    totalOutputTokens: int)

  /** What `create_agent` closes over: the agent's name and system prompt. */
  datatype Agent = Agent(name: string, system: string)

  const AGENT_ONE := Agent(AGENT1,
    "You are a collaborative agent focused on problem-solving. Work with your partner to complete the task.")
  const AGENT_TWO := Agent(AGENT2,
    "You are a critical reviewer. Analyze and improve upon your partner's suggestions.")

  /** The agent node as the file has it, or with the repair that makes the
      router's alternation work (see `AgentFn`). */
  datatype Revision = AsWritten | Corrected

  /** `count_tokens`: the tokenizer is a parameter; it returns a length. */
  type Tokenizer = string -> nat

  /** `sum(count_tokens(msg.content) for msg in messages)`: no message's
      count exceeds the total, and an empty prompt counts 0. */
  function PromptTokens(count: Tokenizer, prompt: seq<Message>): (n: nat)
    ensures prompt == [] ==> n == 0
    ensures forall i :: 0 <= i < |prompt| ==> count(prompt[i].content) <= n
  {
    if prompt == [] then 0 else count(prompt[0].content) + PromptTokens(count, prompt[1..])
  }

  /** The tokens of a prompt are those of its parts. */
  lemma {:induction false} PromptTokensAppend(count: Tokenizer, a: seq<Message>, b: seq<Message>)
    ensures PromptTokens(count, a + b) == PromptTokens(count, a) + PromptTokens(count, b)
  {
    if a != [] {
      assert (a + b)[0] == a[0];
      assert (a + b)[1..] == a[1..] + b;
      PromptTokensAppend(count, a[1..], b);
    } else {
      assert a + b == b;
    }
  }

  /** `agent_fn`. At or above the cap no LLM call is made: the single cap
      message is returned, `current_agent` becomes END and every counter is
      kept. Below the cap the reply becomes the only message, `iterations`
      goes up by exactly one and the prompt's and the reply's token counts are
      added to the two totals. As written, `current_agent` is copied from the
      state; the corrected revision sets it to the agent's own name. */
  function AgentFn(rev: Revision, agent: Agent, s: State, reply: string, count: Tokenizer): (r: State)
    ensures s.iterations >= MAX_ITERATIONS ==>
              r == s.(messages := [Message(AI, CAP_MESSAGE)], currentAgent := END)
    ensures s.iterations < MAX_ITERATIONS ==>
              && r.messages == [Message(AI, reply)]
              && r.iterations == s.iterations + 1
              && r.threadId == s.threadId
              && r.totalInputTokens == s.totalInputTokens + count(agent.system) + PromptTokens(count, s.messages)
              && r.totalOutputTokens == s.totalOutputTokens + count(reply)
    ensures s.iterations < MAX_ITERATIONS && rev == AsWritten ==> r.currentAgent == s.currentAgent
    ensures s.iterations < MAX_ITERATIONS && rev == Corrected ==> r.currentAgent == agent.name
  {
    if s.iterations >= MAX_ITERATIONS then
      State([Message(AI, CAP_MESSAGE)], END, s.iterations, s.threadId,
            s.totalInputTokens, s.totalOutputTokens)
    else
      var prompt := [Message(System, agent.system)] + s.messages;
      PromptTokensAppend(count, [Message(System, agent.system)], s.messages);
      var inputTokens := PromptTokens(count, prompt);
      var outputTokens := count(reply);
      State([Message(AI, reply)],
            if rev == AsWritten then s.currentAgent else agent.name,
            s.iterations + 1, s.threadId,
            s.totalInputTokens + inputTokens, s.totalOutputTokens + outputTokens)
  }

  /** `human_feedback`, with the resumed value of `interrupt(...)` as `text`.
      Feedback that is not blank becomes the only message, hands the turn to
      agent1 and adds its token count to the input total; blank feedback
      empties the messages and sets END. Nothing else changes. */
  function HumanFeedback(s: State, text: string, count: Tokenizer): (r: State)
    ensures !IsBlank(text) ==>
              r == s.(messages := [Message(Human, text)], currentAgent := AGENT1,
                      totalInputTokens := s.totalInputTokens + count(text))
    ensures IsBlank(text) ==> r == s.(messages := [], currentAgent := END)
  {
    if Strip(text) != [] then
      State([Message(Human, text)], AGENT1, s.iterations, s.threadId,
            s.totalInputTokens + count(text), s.totalOutputTokens)
    else
      State([], END, s.iterations, s.threadId, s.totalInputTokens, s.totalOutputTokens)
  }

  /** `route_by_response`: "interrupt" when the last message mentions
      TERMINATE in any letter case; otherwise "agent2" exactly when
      `current_agent` is "agent1", and "agent1" in every other case. Python's
      IndexError when there is no message. */
  function RouteByResponse(s: State): (r: Result<string>)
    ensures s.messages == [] ==> r == Err("IndexError")
    ensures s.messages != [] ==>
              var last := s.messages[|s.messages| - 1].content;
              && (r == Ok(INTERRUPT) <==> exists i :: UppersToAt(last, TERMINATE, i))
              && (r == Ok(AGENT2) <==> !MentionsTerminate(last) && s.currentAgent == AGENT1)
              && (r == Ok(AGENT1) <==> !MentionsTerminate(last) && s.currentAgent != AGENT1)
  {
    match LastContent(s.messages)
    case Err(e) => Err(e)
    case Ok(last) =>
      if MentionsTerminate(last) then Ok(INTERRUPT)
      else if s.currentAgent == AGENT1 then Ok(AGENT2) else Ok(AGENT1)
  }

  /** The path maps given to `add_conditional_edges` for the two agents. */
  const AGENT1_EDGES: map<string, Node> := map[AGENT2 := Agent2Node, INTERRUPT := HumanNode]
  const AGENT2_EDGES: map<string, Node> := map[AGENT1 := Agent1Node, INTERRUPT := HumanNode]

  /** `initial_state`, run from the entry point agent1: no iteration and no
      token counted yet, agent1's turn, and the task as the one human
      message. */
  function Initial(threadId: string): (s: State)
    ensures s.iterations == 0 && s.totalInputTokens == 0 && s.totalOutputTokens == 0
    ensures s.threadId == threadId && s.currentAgent == AGENT1
    ensures |s.messages| == 1 && s.messages[0].role == Human
  {
    State([Message(Human, FIRST_MESSAGE)], AGENT1, 0, threadId, 0, 0)
  }

  /** Where one step of the graph leaves the run: at a node with a new state,
      finished, or failed because the router's label is missing from the
      node's path map or because the router raised. */
  datatype Outcome =
    | Running(at: Node, state: State)
    | Finished(state: State)
    | NoEdge(key: string, state: State)
    | Crashed(error: string, state: State)

  /** What the environment supplies to one step: the LLM's reply (used by
      an agent node) and the user's feedback (used by the human node). */
  datatype Input = Input(reply: string, feedback: string)

  /** One node run, with what the environment supplied to it. */
  datatype Turn = AgentTurn(agent: Agent, reply: string) | HumanTurn(text: string)

  function Apply(rev: Revision, s: State, t: Turn, count: Tokenizer): State {
    match t
    case AgentTurn(agent, reply) => AgentFn(rev, agent, s, reply, count)
    case HumanTurn(text) => HumanFeedback(s, text, count)
  }

  /** The node run that a graph node performs on an input. */
  function NodeTurn(at: Node, input: Input): Turn
    requires at != EndNode
  {
    if at == Agent1Node then AgentTurn(AGENT_ONE, input.reply)
    else if at == Agent2Node then AgentTurn(AGENT_TWO, input.reply)
    else HumanTurn(input.feedback)
  }

  /** Following a conditional edge: LangGraph looks the router's label up in
      the path map; the state is the one the node returned. */
  function Follow(edges: map<string, Node>, key: string, s: State): (r: Outcome)
    ensures r.state == s
    ensures r.Running? <==> key in edges
    ensures r.Running? ==> r.at == edges[key]
    ensures !r.Running? ==> r == NoEdge(key, s)
  {
    if key in edges then Running(edges[key], s) else NoEdge(key, s)
  }

  /** The conditional edge after an agent node: the router raises only when
      the node returned no message. */
  function AfterAgent(edges: map<string, Node>, s: State): (r: Outcome)
    ensures r.state == s
    ensures r.Crashed? <==> s.messages == []
    ensures !r.Finished?
  {
    match RouteByResponse(s)
    case Err(e) => Crashed(e, s)
    case Ok(key) => Follow(edges, key, s)
  }

  /** One step of the compiled graph: run the node, then follow its edge.
      The new state is the one node run the node performs, only END
      finishes, the human node always has an edge, and the router never
      raises, because an agent node always returns one message. An edge to
      END gives `Running(EndNode, _)`: in LangGraph that run is over, and
      here the next step only reports it as `Finished`. */
  function GraphStep(rev: Revision, at: Node, s: State, input: Input, count: Tokenizer): (r: Outcome)
    ensures r.Finished? <==> at == EndNode
    ensures at == EndNode ==> r.state == s
    ensures at != EndNode ==> r.state == Apply(rev, s, NodeTurn(at, input), count)
    ensures at == HumanNode ==> r.Running?
    ensures !r.Crashed?
  {
    match at
    case EndNode => Finished(s)
    case Agent1Node => AfterAgent(AGENT1_EDGES, AgentFn(rev, AGENT_ONE, s, input.reply, count))
    case Agent2Node => AfterAgent(AGENT2_EDGES, AgentFn(rev, AGENT_TWO, s, input.reply, count))
    case HumanNode =>
      var s' := HumanFeedback(s, input.feedback, count);
      Follow(HUMAN_EDGES, HumanRoute(s'.messages), s')
  }

  /** Up to `|inputs|` steps of the graph, one input per step. No run ever
      ends with the router raising. A run whose last step took it to END
      ends as `Running(EndNode, _)`, which is a finished run. */
  function Drive(rev: Revision, at: Node, s: State, inputs: seq<Input>, count: Tokenizer): (r: Outcome)
    ensures inputs == [] ==> r == Running(at, s)
    ensures !r.Crashed?
    decreases |inputs|
  {
    if inputs == [] then Running(at, s)
    else
      match GraphStep(rev, at, s, inputs[0], count)
      case Running(next, s') => Drive(rev, next, s', inputs[1..], count)
      case other => other
  }

  /** The cap message mentions TERMINATE. */
  lemma CapMessageMentionsTerminate()
    ensures MentionsTerminate(CAP_MESSAGE)
  {
    assert CAP_MESSAGE[0..|TERMINATE|] == TERMINATE;
    MentionsTerminateAt(CAP_MESSAGE, 0);
  }

  /** Reaching the cap always leads to the human node: the cap message says
      TERMINATE, so either agent's router picks "interrupt". */
  lemma CapRoutesToHuman(rev: Revision, at: Node, s: State, input: Input, count: Tokenizer)
    requires at == Agent1Node || at == Agent2Node
    requires s.iterations >= MAX_ITERATIONS
    ensures GraphStep(rev, at, s, input, count)
            == Running(HumanNode, s.(messages := [Message(AI, CAP_MESSAGE)], currentAgent := END))
  {
    CapMessageMentionsTerminate();
  }

  /** Where an agent step leads. The human node is next exactly when the cap
      is reached or the reply mentions TERMINATE, in either revision. As
      written, below the cap and without TERMINATE, the label depends only
      on the kept `current_agent`: "agent2" when it is "agent1", and "agent1"
      otherwise. Agent1's map has only "agent2" of the two, and agent2's map
      only "agent1". */
  lemma AgentStepTarget(rev: Revision, at: Node, s: State, input: Input, count: Tokenizer)
    requires at == Agent1Node || at == Agent2Node
    ensures var o := GraphStep(rev, at, s, input, count);
            (o.Running? && o.at == HumanNode) <==> s.iterations >= MAX_ITERATIONS || MentionsTerminate(input.reply)
    ensures var o := GraphStep(rev, at, s, input, count);
            rev == AsWritten && s.iterations < MAX_ITERATIONS && !MentionsTerminate(input.reply) ==>
              if at == Agent1Node then
                o == (if s.currentAgent == AGENT1 then Running(Agent2Node, o.state) else NoEdge(AGENT1, o.state))
              else
                o == (if s.currentAgent == AGENT1 then NoEdge(AGENT2, o.state) else Running(Agent1Node, o.state))
  {
    AgentStepToHuman(rev, at, s, input, count);
    if rev == AsWritten && s.iterations < MAX_ITERATIONS && !MentionsTerminate(input.reply) {
      AgentStepAsWritten(at, s, input, count);
    }
  }

  /** The first half of `AgentStepTarget`: when the human node is next. */
  lemma AgentStepToHuman(rev: Revision, at: Node, s: State, input: Input, count: Tokenizer)
    requires at == Agent1Node || at == Agent2Node
    ensures var o := GraphStep(rev, at, s, input, count);
            (o.Running? && o.at == HumanNode) <==> s.iterations >= MAX_ITERATIONS || MentionsTerminate(input.reply)
  {
    if s.iterations >= MAX_ITERATIONS {
      CapRoutesToHuman(rev, at, s, input, count);
    } else if at == Agent1Node {
      AgentEdgeToHuman(rev, AGENT_ONE, AGENT1_EDGES, s, input.reply, count);
    } else {
      AgentEdgeToHuman(rev, AGENT_TWO, AGENT2_EDGES, s, input.reply, count);
    }
  }

  /** Below the cap, an agent's edge leads to the human node exactly when
      its reply mentions TERMINATE. */
  lemma AgentEdgeToHuman(rev: Revision, agent: Agent, edges: map<string, Node>, s: State, reply: string, count: Tokenizer)
    requires (agent == AGENT_ONE && edges == AGENT1_EDGES) || (agent == AGENT_TWO && edges == AGENT2_EDGES)
    requires s.iterations < MAX_ITERATIONS
    ensures var o := AfterAgent(edges, AgentFn(rev, agent, s, reply, count));
            (o.Running? && o.at == HumanNode) <==> MentionsTerminate(reply)
  {
    var s' := AgentFn(rev, agent, s, reply, count);
    assert AGENT1 != INTERRUPT && AGENT2 != INTERRUPT;
    assert s'.messages == [Message(AI, reply)];
  }

  /** The second half of `AgentStepTarget`: as written, below the cap and
      without TERMINATE. */
  lemma AgentStepAsWritten(at: Node, s: State, input: Input, count: Tokenizer)
    requires at == Agent1Node || at == Agent2Node
    requires s.iterations < MAX_ITERATIONS && !MentionsTerminate(input.reply)
    ensures var o := GraphStep(AsWritten, at, s, input, count);
            if at == Agent1Node then
              o == (if s.currentAgent == AGENT1 then Running(Agent2Node, o.state) else NoEdge(AGENT1, o.state))
            else
              o == (if s.currentAgent == AGENT1 then NoEdge(AGENT2, o.state) else Running(Agent1Node, o.state))
  {
    assert AGENT1 != AGENT2 && AGENT1 != INTERRUPT && AGENT2 != INTERRUPT;
  }

  /** The edge out of the human node goes to agent1 exactly when the feedback
      is not blank, and to END otherwise. */
  lemma HumanEdge(rev: Revision, s: State, input: Input, count: Tokenizer)
    ensures GraphStep(rev, HumanNode, s, input, count).Running?
    ensures GraphStep(rev, HumanNode, s, input, count).at == Agent1Node <==> !IsBlank(input.feedback)
    ensures GraphStep(rev, HumanNode, s, input, count).at == EndNode <==> IsBlank(input.feedback)
  {
  }

  // ---------------------------------------------------------------------
  // The counters over any sequence of node runs, in any order.

  function Run(rev: Revision, s: State, turns: seq<Turn>, count: Tokenizer): State
    decreases |turns|
  {
    if turns == [] then s else Run(rev, Apply(rev, s, turns[0], count), turns[1..], count)
  }

  /** `iterations` and both token totals never decrease, and the thread id
      is only ever copied. */
  lemma {:induction false} CountersMonotone(rev: Revision, s: State, turns: seq<Turn>, count: Tokenizer)
    ensures var r := Run(rev, s, turns, count);
            && r.iterations >= s.iterations
            && r.totalInputTokens >= s.totalInputTokens
            && r.totalOutputTokens >= s.totalOutputTokens
            && r.threadId == s.threadId
    decreases |turns|
  {
    if turns != [] {
      CountersMonotone(rev, Apply(rev, s, turns[0], count), turns[1..], count);
    }
  }

  /** Starting at or below the cap, `iterations` never exceeds it: an agent
      adds one only below the cap and the human copies the value. */
  lemma {:induction false} IterationsBounded(rev: Revision, s: State, turns: seq<Turn>, count: Tokenizer)
    requires s.iterations <= MAX_ITERATIONS
    ensures Run(rev, s, turns, count).iterations <= MAX_ITERATIONS
    decreases |turns|
  {
    if turns != [] {
      IterationsBounded(rev, Apply(rev, s, turns[0], count), turns[1..], count);
    }
  }

  /** From `initial_state`, `iterations` stays between 0 and the cap. */
  lemma FromInitialBounded(rev: Revision, threadId: string, turns: seq<Turn>, count: Tokenizer)
    ensures 0 <= Run(rev, Initial(threadId), turns, count).iterations <= MAX_ITERATIONS
  {
    CountersMonotone(rev, Initial(threadId), turns, count);
    IterationsBounded(rev, Initial(threadId), turns, count);
  }

  /** Nothing resets `iterations`: once the cap is reached, every later agent
      run is the cap run, whatever feedback the human gives in between. */
  lemma {:induction false} CapIsAbsorbing(rev: Revision, s: State, turns: seq<Turn>, count: Tokenizer)
    requires s.iterations >= MAX_ITERATIONS
    ensures Run(rev, s, turns, count).iterations == s.iterations
    ensures Run(rev, s, turns, count).totalOutputTokens == s.totalOutputTokens
    decreases |turns|
  {
    if turns != [] {
      CapIsAbsorbing(rev, Apply(rev, s, turns[0], count), turns[1..], count);
    }
  }

  /** Running a first node and then the rest. */
  lemma RunCons(rev: Revision, s: State, t: Turn, rest: seq<Turn>, count: Tokenizer)
    ensures Run(rev, s, [t] + rest, count) == Run(rev, Apply(rev, s, t, count), rest, count)
  {
    assert ([t] + rest)[1..] == rest;
  }

  /** A run of the graph that has inputs left takes one step and goes on
      only from a node it moved to. */
  lemma DriveUnfold(rev: Revision, at: Node, s: State, inputs: seq<Input>, count: Tokenizer)
    requires inputs != []
    ensures var o := GraphStep(rev, at, s, inputs[0], count);
            Drive(rev, at, s, inputs, count)
            == if o.Running? then Drive(rev, o.at, o.state, inputs[1..], count) else o
  {
  }

  /** A step that moves on: the run's state is that of its node run followed
      by the rest. */
  lemma DriveMovesOn(rev: Revision, at: Node, s: State, inputs: seq<Input>, count: Tokenizer, rest: seq<Turn>)
    requires inputs != [] && at != EndNode
    requires GraphStep(rev, at, s, inputs[0], count).Running?
    requires var o := GraphStep(rev, at, s, inputs[0], count);
             Drive(rev, o.at, o.state, inputs[1..], count).state == Run(rev, o.state, rest, count)
    ensures Drive(rev, at, s, inputs, count).state
            == Run(rev, s, [NodeTurn(at, inputs[0])] + rest, count)
  {
    DriveUnfold(rev, at, s, inputs, count);
    RunCons(rev, s, NodeTurn(at, inputs[0]), rest, count);
  }

  /** A step that stops the run: the run's state is that of its node run. */
  lemma DriveStops(rev: Revision, at: Node, s: State, inputs: seq<Input>, count: Tokenizer)
    requires inputs != [] && at != EndNode
    requires !GraphStep(rev, at, s, inputs[0], count).Running?
    ensures Drive(rev, at, s, inputs, count).state == Run(rev, s, [NodeTurn(at, inputs[0])], count)
  {
    DriveUnfold(rev, at, s, inputs, count);
    RunCons(rev, s, NodeTurn(at, inputs[0]), [], count);
    assert [NodeTurn(at, inputs[0])] + [] == [NodeTurn(at, inputs[0])];
  }

  /** A run with no input left, or at END, keeps the state it has. */
  lemma DriveStaysPut(rev: Revision, at: Node, s: State, inputs: seq<Input>, count: Tokenizer)
    requires inputs == [] || at == EndNode
    ensures Drive(rev, at, s, inputs, count).state == s
  {
    if inputs != [] { DriveUnfold(rev, at, s, inputs, count); }
  }

  /** The node runs a run of the graph performs, one per step taken. */
  ghost function DriveTurns(rev: Revision, at: Node, s: State, inputs: seq<Input>, count: Tokenizer): seq<Turn>
    decreases |inputs|
  {
    if inputs == [] || at == EndNode then []
    else
      var o := GraphStep(rev, at, s, inputs[0], count);
      if o.Running? then [NodeTurn(at, inputs[0])] + DriveTurns(rev, o.at, o.state, inputs[1..], count)
      else [NodeTurn(at, inputs[0])]
  }

  /** A run of the graph ends in the state its node runs reach. */
  lemma {:induction false} DriveFollowsTurns(rev: Revision, at: Node, s: State, inputs: seq<Input>, count: Tokenizer)
    ensures Drive(rev, at, s, inputs, count).state == Run(rev, s, DriveTurns(rev, at, s, inputs, count), count)
    decreases |inputs|
  {
    if inputs == [] || at == EndNode {
      DriveStaysPut(rev, at, s, inputs, count);
    } else {
      var o := GraphStep(rev, at, s, inputs[0], count);
      if o.Running? {
        DriveFollowsTurns(rev, o.at, o.state, inputs[1..], count);
        DriveMovesOn(rev, at, s, inputs, count, DriveTurns(rev, o.at, o.state, inputs[1..], count));
      } else {
        DriveStops(rev, at, s, inputs, count);
      }
    }
  }

  /** Every state a run of the graph reaches is the state of some sequence
      of node runs, so the lemmas about `Run` hold of the graph's runs. */
  lemma DriveIsRun(rev: Revision, at: Node, s: State, inputs: seq<Input>, count: Tokenizer)
    ensures exists turns :: Drive(rev, at, s, inputs, count).state == Run(rev, s, turns, count)
  {
    DriveFollowsTurns(rev, at, s, inputs, count);
  }

  /** Along a run of the graph `iterations` and both token totals never
      decrease, and the thread id is only copied. */
  lemma DriveMonotone(rev: Revision, at: Node, s: State, inputs: seq<Input>, count: Tokenizer)
    ensures var r := Drive(rev, at, s, inputs, count).state;
            && r.iterations >= s.iterations
            && r.totalInputTokens >= s.totalInputTokens
            && r.totalOutputTokens >= s.totalOutputTokens
            && r.threadId == s.threadId
  {
    DriveIsRun(rev, at, s, inputs, count);
    var turns :| Drive(rev, at, s, inputs, count).state == Run(rev, s, turns, count);
    CountersMonotone(rev, s, turns, count);
  }

  /** A run of the graph keeps `iterations` within the cap. */
  lemma DriveBounded(rev: Revision, at: Node, s: State, inputs: seq<Input>, count: Tokenizer)
    requires 0 <= s.iterations <= MAX_ITERATIONS
    ensures 0 <= Drive(rev, at, s, inputs, count).state.iterations <= MAX_ITERATIONS
  {
    DriveIsRun(rev, at, s, inputs, count);
    var turns :| Drive(rev, at, s, inputs, count).state == Run(rev, s, turns, count);
    CountersMonotone(rev, s, turns, count);
    IterationsBounded(rev, s, turns, count);
  }

  // ---------------------------------------------------------------------
  // The router's alternation.

  /** As written, the agent node never changes `current_agent`, which starts
      as "agent1"; so after agent2's reply the router answers "agent2", a
      label that agent2's path map does not have. Any first and second reply
      that do not say TERMINATE stop the run on its second step. */
  lemma SecondTurnHasNoEdge(threadId: string, first: Input, second: Input, count: Tokenizer)
    requires !MentionsTerminate(first.reply) && !MentionsTerminate(second.reply)
    ensures Drive(AsWritten, Agent1Node, Initial(threadId), [first, second], count).NoEdge?
    ensures Drive(AsWritten, Agent1Node, Initial(threadId), [first, second], count).key == AGENT2
  {
    var s1 := AgentFn(AsWritten, AGENT_ONE, Initial(threadId), first.reply, count);
    assert GraphStep(AsWritten, Agent1Node, Initial(threadId), first, count) == Running(Agent2Node, s1);
    var s2 := AgentFn(AsWritten, AGENT_TWO, s1, second.reply, count);
    assert GraphStep(AsWritten, Agent2Node, s1, second, count) == NoEdge(AGENT2, s2);
    assert [first, second][1..] == [second];
  }

  /** With the corrected agent node every label the router can give has a
      target in the path map of the node that just ran: no step fails. */
  lemma CorrectedStepNeverFails(at: Node, s: State, input: Input, count: Tokenizer)
    ensures GraphStep(Corrected, at, s, input, count).Running?
         || GraphStep(Corrected, at, s, input, count).Finished?
  {
    match at
    case Agent1Node => CorrectedRouteHasEdge(AGENT_ONE, AGENT1_EDGES, s, input.reply, count);
    case Agent2Node => CorrectedRouteHasEdge(AGENT_TWO, AGENT2_EDGES, s, input.reply, count);
    case HumanNode =>
    case EndNode =>
  }

  /** The corrected agent's router label is a key of its own path map. */
  lemma CorrectedRouteHasEdge(agent: Agent, edges: map<string, Node>, s: State, reply: string, count: Tokenizer)
    requires (agent == AGENT_ONE && edges == AGENT1_EDGES) || (agent == AGENT_TWO && edges == AGENT2_EDGES)
    ensures AfterAgent(edges, AgentFn(Corrected, agent, s, reply, count)).Running?
  {
    var s' := AgentFn(Corrected, agent, s, reply, count);
    assert AGENT1 != AGENT2 && AGENT1 != INTERRUPT && AGENT2 != INTERRUPT;
    assert INTERRUPT in edges;
    if s.iterations >= MAX_ITERATIONS {
      CapMessageMentionsTerminate();
      assert RouteByResponse(s') == Ok(INTERRUPT);
    } else {
      assert s'.currentAgent == agent.name;
      if agent == AGENT_ONE {
        assert RouteByResponse(s') == Ok(INTERRUPT) || RouteByResponse(s') == Ok(AGENT2);
      } else {
        assert RouteByResponse(s') == Ok(INTERRUPT) || RouteByResponse(s') == Ok(AGENT1);
      }
    }
  }

  /** With the corrected agent node the agents alternate: below the cap, a
      reply without TERMINATE hands the turn to the other agent. */
  lemma CorrectedAlternates(at: Node, s: State, input: Input, count: Tokenizer)
    requires at == Agent1Node || at == Agent2Node
    requires s.iterations < MAX_ITERATIONS && !MentionsTerminate(input.reply)
    ensures GraphStep(Corrected, at, s, input, count).Running?
    ensures GraphStep(Corrected, at, s, input, count).at
            == if at == Agent1Node then Agent2Node else Agent1Node
  {
    var agent := if at == Agent1Node then AGENT_ONE else AGENT_TWO;
    var s' := AgentFn(Corrected, agent, s, input.reply, count);
    assert s'.messages == [Message(AI, input.reply)] && s'.currentAgent == agent.name;
    assert AGENT1 != AGENT2;
    assert RouteByResponse(s') == Ok(if at == Agent1Node then AGENT2 else AGENT1);
  }

  /** With the corrected agent node no run of the graph ever fails. */
  lemma {:induction false} CorrectedDriveNeverFails(at: Node, s: State, inputs: seq<Input>, count: Tokenizer)
    ensures Drive(Corrected, at, s, inputs, count).Running?
         || Drive(Corrected, at, s, inputs, count).Finished?
    decreases |inputs|
  {
    if inputs != [] {
      CorrectedStepNeverFails(at, s, inputs[0], count);
      match GraphStep(Corrected, at, s, inputs[0], count)
      case Running(next, s') => CorrectedDriveNeverFails(next, s', inputs[1..], count);
      case _ =>
    }
  }
}
