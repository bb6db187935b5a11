# Two-agent conversation graph with human feedback, in Dafny

This project models the turn-taking state machine of a LangGraph program.
In the program, two LLM agents ("agent1", a problem solver, and "agent2", a
critical reviewer) take turns on a shared conversation. A human is asked for
feedback whenever a reply contains TERMINATE anywhere, in any letter case.
The test looks for a substring, so a word such as "indeterminate" also
triggers it. Blank
feedback ends the session; other feedback sends the turn back to agent1. The
later revision, `agent_collab_v2.py`, also counts agent iterations against a
cap of 5 and keeps running totals of input and output tokens. The earlier
revision, `main.py`, has the same nodes without the counters.

The LLM reply, the text the user types and the tokenizer are parameters.
Each node is a total function from state to state. Each router is a function
from state to an edge label. The path maps given to `add_conditional_edges`
are constant maps from labels to nodes. No field of the state has a reducer,
so each node's returned record becomes the whole next state.

Files:
- `py_text.dfy` (module `PyText`): the Python string operations the graph
  depends on. These are `str.isspace`, `str.strip()`, `str.upper()` and the
  substring test `p in s`.
- `chat.dfy` (module `Chat`): messages, the edge labels, the
  case-insensitive TERMINATE test, and the human node's conditional edge,
  which is the same in both revisions.
- `agent_collab.dfy` (module `AgentCollab`): `agent_collab_v2.py`. It covers
  the state, the agent, human and router functions, the edge tables and the
  initial state. `GraphStep` and `Drive` give the graph's transition relation,
  and `Run` applies the nodes in any order.
- `main_graph.dfy` (module `MainGraph`): `main.py`.

The agent node comes in two revisions (`Revision`): `AsWritten` is the
file's code, and `Corrected` is the repair described under Findings. Every
lemma about counters holds for both.

## Model

| member | source | states |
|---|---|---|
| `PyText.SpaceIsNotText` | agent_collab_v2.py:86 | The characters `strip()` removes (`IsSpace`) are Python's white space: `\t`-`\r`, 0x1C-0x1F, space, 0x85, 0xA0, U+1680, U+2000-U+200A, U+2028, U+2029, U+202F, U+205F and U+3000. None of them is an ASCII letter or digit, and upper-casing leaves each one unchanged. |
| `PyText.Strip` | agent_collab_v2.py:86 | `strip()` returns a slice of the input with only white space around it. The slice neither starts nor ends with white space, and it is empty exactly when the input is blank. |
| `PyText.UpperChar` | agent_collab_v2.py:121 | Upper-casing one character leaves no ASCII lower-case letter. Only `a`-`z`, `ı` and `ſ` change, each into an ASCII capital (see Left out). |
| `PyText.Upper` | agent_collab_v2.py:121 | `upper()` leaves no ASCII lower-case letter, and the only characters it changes are `a`-`z`, `ı` and `ſ`, each into an ASCII capital. The length is kept (see Left out). |
| `PyText.Contains` | agent_collab_v2.py:121 | The scan for `p in s` is true exactly when `p` occurs at some index of `s`. |
| `PyText.ContainsUpper` | agent_collab_v2.py:121 | Searching the upper-cased text is a case-insensitive search: `p` occurs in `upper(s)` exactly when some slice of `s` upper-cases to `p`. |
| `Chat.LastContent` | agent_collab_v2.py:120 | `messages[-1].content` succeeds exactly when the list is not empty. It then gives the content of the message the list ends with. An empty list raises IndexError. |
| `Chat.MentionsTerminate` | agent_collab_v2.py:121 | A reply passes `"TERMINATE" in content.upper()` exactly when nine consecutive characters of it spell TERMINATE in any mix of letter case. |
| `Chat.MentionsTerminateAt` | main.py:36 | Any case variant of "terminate", anywhere in a reply, triggers the test. |
| `Chat.HumanRoute` | agent_collab_v2.py:178-182 | The human edge's label is always a key of its path map. It leads to agent1 exactly when the human node returned a message, and to END exactly when it returned none. `main.py:67-71` is the same edge. |
| `AgentCollab.PromptTokens` | agent_collab_v2.py:58 | The generator sum of token counts: no message's count exceeds the total, and an empty prompt counts 0. |
| `AgentCollab.PromptTokensAppend` | agent_collab_v2.py:55-58 | The input-token count of the prompt (system message, then the state's messages) is the sum of the counts of its parts. |
| `AgentCollab.AgentFn` | agent_collab_v2.py:44-80 | At or above the cap there is no LLM call. The result is the single cap message with `current_agent` = END, and every other field is unchanged. Below the cap the reply is the only message, `iterations` goes up by exactly 1, the thread id is kept, and the prompt's and reply's token counts are added to the two totals. As written, `current_agent` is kept. |
| `AgentCollab.HumanFeedback` | agent_collab_v2.py:83-117 | Non-blank feedback gives one human message and `current_agent` = "agent1", and adds its token count to the input total. Blank or whitespace-only feedback gives no messages and END. Nothing else changes in either case. |
| `AgentCollab.RouteByResponse` | agent_collab_v2.py:119-123 | The result is "interrupt" exactly when the last message spells TERMINATE in any case. Otherwise it is "agent2" exactly when `current_agent` is "agent1", and "agent1" in every other case. An empty message list raises IndexError. |
| `AgentCollab.Initial` | agent_collab_v2.py:190-197 | The run starts with `iterations` and both token totals at 0 and the given thread id. It is agent1's turn, and the task is the one human message. |
| `AgentCollab.Follow` | agent_collab_v2.py:160-182 | Following a conditional edge keeps the node's returned state. It moves on exactly when the router's label is a key of the path map, to the node that key names, and fails with that label otherwise. |
| `AgentCollab.AfterAgent` | agent_collab_v2.py:160-176 | After an agent node, the router raises exactly when the node returned no message. The edge never finishes the run. Which node each label leads to is stated in `AgentStepTarget`. |
| `AgentCollab.GraphStep` | agent_collab_v2.py:157-182 | One step of the compiled graph. Its new state is the state of the one node run (agent1, agent2 or human) that the node performs. Only END finishes, the human node always has an edge, and the router never raises. The next node after an agent step is stated in `AgentStepTarget`. |
| `AgentCollab.Drive` | agent_collab_v2.py:157-199 | A run of the graph over a sequence of inputs. With no input it stays where it is, and no run ends with the router raising. A run whose last edge led to END ends as `Running(EndNode, _)`, which is a finished run; only a further input reports it as `Finished`. |
| `AgentCollab.CapMessageMentionsTerminate` | agent_collab_v2.py:47 | The cap message passes the TERMINATE test. |
| `AgentCollab.CapRoutesToHuman` | agent_collab_v2.py:160-176 | At or above the cap, a step of either agent node moves to the human node with the cap state. |
| `AgentCollab.AgentStepTarget` | agent_collab_v2.py:160-176 | Where an agent step leads, in either revision: the human node is next exactly when the cap is reached or the reply mentions TERMINATE. As written, below the cap and without TERMINATE: from agent1 the run goes to agent2 when `current_agent` is "agent1", and otherwise fails on the missing label "agent1". From agent2 it fails on the missing label "agent2" when `current_agent` is "agent1", and otherwise goes back to agent1. |
| `AgentCollab.HumanEdge` | agent_collab_v2.py:178-182 | The edge out of the human node goes to agent1 exactly when the feedback is not blank, and to END otherwise. |
| `AgentCollab.CountersMonotone` | agent_collab_v2.py:73-80 | Over any sequence of node runs, `iterations` and both token totals never decrease, and the thread id is only copied. |
| `AgentCollab.IterationsBounded` | agent_collab_v2.py:45-76 | Starting at or below the cap, `iterations` never exceeds `MAX_ITERATIONS` over any sequence of node runs. |
| `AgentCollab.FromInitialBounded` | agent_collab_v2.py:190-197 | From the initial state, `iterations` stays between 0 and 5. |
| `AgentCollab.CapIsAbsorbing` | agent_collab_v2.py:45-53 | Nothing resets `iterations`. Once the cap is reached, `iterations` and the output total never change again, whatever the human answers. |
| `AgentCollab.DriveIsRun` | agent_collab_v2.py:157-199 | Every state a run of the graph reaches is the state of some sequence of node runs. So the `Run` lemmas above hold of the graph's own runs. |
| `AgentCollab.DriveMonotone` | agent_collab_v2.py:73-80 | Along a run of the graph, `iterations` and both token totals never decrease, and the thread id is only copied. |
| `AgentCollab.DriveBounded` | agent_collab_v2.py:160-182 | Every run of the graph keeps `iterations` within the cap. |
| `AgentCollab.SecondTurnHasNoEdge` | agent_collab_v2.py:169-176 | As written, from the initial state, any two replies without TERMINATE make the router answer "agent2" after agent2's turn. Agent2's path map has no such key, so the run fails on its second step. |
| `AgentCollab.CorrectedStepNeverFails` | agent_collab_v2.py:160-182 | With the corrected agent node, every label a router gives has a target in the path map of the node that ran. |
| `AgentCollab.CorrectedAlternates` | agent_collab_v2.py:119-123 | With the corrected agent node, below the cap a reply without TERMINATE hands the turn to the other agent. |
| `AgentCollab.CorrectedDriveNeverFails` | agent_collab_v2.py:157-186 | With the corrected agent node, no run of the graph ever fails on a missing edge or a router error. |
| `MainGraph.Initial` | main.py:77-80 | The run starts on agent1's turn, with the task as the one human message. |
| `MainGraph.AgentNode` | main.py:19-25 | The agent step returns exactly one message, the reply, and keeps `current_agent`. |
| `MainGraph.HumanNode` | main.py:28-32 | Non-blank input gives one human message carrying the text and `current_agent` = "agent1". Blank or whitespace-only input gives `[]` and END. |
| `MainGraph.RouteToAgent` | main.py:34-38 | A TERMINATE reply (any case) gives "interrupt", and otherwise `current_agent` is returned unchanged. So "interrupt" comes back exactly when the marker is present or `current_agent` is itself "interrupt". An empty message list raises IndexError. |
| `MainGraph.HumanEdge` | main.py:67-71 | The human edge (`Chat.HumanRoute`) goes to agent1 exactly when the feedback is not blank, and to END otherwise. |
| `MainGraph.CurrentAgentStaysAgent1OrEnd` | main.py:19-32 | Once `current_agent` is "agent1" or END, no sequence of node runs changes that. |
| `MainGraph.NeverRoutesToAgent2` | main.py:77-80 | From the initial state the router never answers "agent2". It answers "interrupt" exactly when the last message mentions TERMINATE. |

## Findings

| source | as written | input that shows it | evidently intended | confidence | as-written member | corrected member |
|---|---|---|---|---|---|---|
| agent_collab_v2.py:75 | `agent_fn` returns `current_agent` unchanged. It stays "agent1" from the initial state, so after agent2 speaks `route_by_response` answers "agent2". That key is missing from agent2's path map (lines 169-176). | Initial state, agent1 replies "Hello", agent2 replies "Looks good" | The router alternates on `current_agent`, so each agent should record its own name there (`agent_name`). Agent1 then routes to agent2 and agent2 back to agent1. | high on the model; LangGraph's reaction to a label missing from a path map is library behaviour the model does not capture (see Left out); not executed | `AgentCollab.SecondTurnHasNoEdge` | `AgentCollab.CorrectedDriveNeverFails` |

## Left out

- The LLM calls (`ChatOpenAI`, `llm.invoke`) are external network calls. The reply text is a parameter. The prompt the agent would send (the system message, then the state's messages) is built inside `AgentFn` only so that its tokens can be counted.
- `count_tokens` (tiktoken) is a parameter of type `string -> nat`. The float fallback `len(text.split()) * 1.3` in `helper_functions.py` belongs to a helper that the core files do not call.
- CSV logging (`log_to_csv`, creating the log file, `save_conversation_to_csv`), the `print` calls and timestamps are file and console I/O.
- Blocking for the user's text (`interrupt(...)`, `input(...)`): the text is a parameter of the human step. `Drive` takes one input per step and does not model the pause at the interrupt or the resume through the checkpointer.
- LangGraph itself is not modelled. This includes `StateGraph`, `compile`, `MemorySaver`, `app.stream`, and how a node's returned dict is merged into the state. Each returned dict is taken as the next state. When a router's label is missing from a path map, the model records `NoEdge`; the library's actual exception is not modelled.
- The fixed edges of `main.py` (lines 53-65) are not modelled. They lead to a "check_terminate" node that the file never adds, so that graph does not compile. `MainGraph` models its nodes and router, and `Run` applies them in any order.
- The system prompts of `main.py` (lines 10-11) only go into the LLM call, whose reply is a parameter, so `MainGraph.AgentNode` takes no prompt.
- The `thread_id` is a uuid in the source. Here it is an opaque string that every step copies.
- `PyText.UpperChar`, `PyText.Upper`: only `a`-`z`, dotless `ı` and long `ſ` are upper-cased, and every other character is kept. So Python's case mappings between non-ASCII letters are not modelled, nor are its multi-character expansions (`ß` → "SS"), and `Upper` keeps the length where Python's `upper()` may lengthen the string. Two expansions, the ligatures `ﬅ` (U+FB05) and `ﬆ` (U+FB06) → "ST", can complete a TERMINATE match: Python finds TERMINATE in "ﬆERMINATE".upper(), and `Chat.MentionsTerminate` does not.
- Python's `Literal["agent1", "agent2", "user"]` annotation on `current_agent` is not enforced by the source, which also stores END there. The model uses plain strings.
- The two modelled files have no agent roster, no vote or consensus detection, no output validation, no phase counter, no iteration reset on human feedback and no retry supervisor, so the model has none either. In particular, human feedback does not reset `iterations` (`CapIsAbsorbing`).
