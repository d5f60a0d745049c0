# Neo4j question-answering agents, modelled in Dafny

The repository holds two command-line agents that answer questions about a
road-incident graph in Neo4j. They ask a language model for a Cypher operation,
run it through an MCP tool server, format the result and ask the model for an
answer.

- `RAG_agent.py` is the iterative agent. Its `rag` turn first picks the
  *aspects* a question is about from a fixed keyword table. It then walks
  them as a worklist (`relevant_aspects`) that can grow while it is walked. A
  visited set (`queried_aspects`) records the aspects already answered.
  Each usable result is appended to `accumulated_context` under an
  `=== ASPECT ===` header. Two marker rules queue follow-up aspects. A final
  answer is requested only when something was accumulated.
- `trial.py` is the single-shot agent. It makes one operation, executes it
  once and answers from whatever the formatting produced.

Both files share the same helpers:

- `format_context` turns a tool result into text.
- `CypherAgent.execute_operation` sends an operation to the read or the
  write tool.
- `CypherAgent.generate_cypher` falls back to a zero-row read when the
  model's reply is not JSON.

The collaborators are parameters of the model, bundled in `Oracles.Env`:

- the language model (`complete`),
- the MCP tool call (`callTool`),
- `json.loads` (`decode`),
- `json.dumps` (`dump`).

`complete`, `callTool` and `decode` return `None` where the Python call
raises. `dump` is total: `json.dumps` succeeds on every modelled JSON
value. A turn's outcome is
`Values.TurnOutcome`:

- `Quit` when `rag` returns False,
- `Failed` when the catch-all `except` runs,
- `NoInformation`,
- `Answered(context, answer)`.

Layout:

- `text.dfy`: Python's `strip`, `lower`, `upper` and `in` on strings.
- `values.dfy`: JSON values, tool results, outcomes and the oracles.
- `render.dfy`: the shared rendering loop of `format_context`.
- `operations.dfy`: dispatch and the fallback operation, shared by both
  files.
- `session.dfy`: the exit test and the `while await rag(agent)` session
  loop.
- `rag_agent.dfy`: the iterative agent's helpers.
- `rag_loop.dfy`: the iterative `rag`. Pure functions (`Step`, `Run`,
  `Turn`) specify it, and the methods (`PlanAspects`, `WalkAspects`,
  `VisitAspect`, `Rag`) are proved equal to them.
- `rag_properties.dfy`: the loop invariant and what it implies for a turn.
- `trial.dfy`: the single-shot agent.

The model keeps these behaviours of the code:

- Any exception inside `rag` ends the whole turn as `Failed`, including a
  failed query for one aspect (`RAG_agent.py:338-340`). Nothing recovers per
  aspect.
- A result the filter drops is not marked visited
  (`RAG_agent.py:316-318`).
- The "Error processing Neo4j response" sentinel passes the filter and is
  accumulated as if it were data.
- `format_context` is not total. Data that decodes to a truthy bool or
  number makes `for record in data` raise. In `trial.py` a payload that is
  not a str makes `json.loads` raise.
- The follow-up rules re-append their aspects whenever they fire. The rules
  fire only on an aspect's first usable result. A duplicate of an aspect
  already recorded is skipped by the visited check. A duplicate of an
  aspect whose result was dropped is queried again, with a second model call
  and a second tool call. For example, the question "incident response"
  plans `[incident_details, response_plans]`. If `incident_details` is kept
  and mentions "road_name", `response_plans` is queued again. If its first
  result was the no-results sentinel, the second copy is queried anew.
- `rag` reads `operation_data["params"]` directly (`RAG_agent.py:310`). An
  operation without that key therefore raises before `execute_operation`
  can apply its `{}` default. In `trial.py` the `"parameters"` key, a str
  `"operation"` (it is upper-cased) and `"query"` must all be present for the
  same reason.
- `trial.py` answers even from a sentinel context. It has no gate.

## Model

| member | source | states |
|---|---|---|
| Text.StripIsInfix | servers/mcp-neo4j-cypher/src/mcp_neo4j_cypher/RAG_agent.py:262 | `str.strip()` returns the infix of the line left after cutting leading and trailing whitespace, which neither starts nor ends with whitespace |
| Text.StripEmptyIffBlank | servers/mcp-neo4j-cypher/src/mcp_neo4j_cypher/RAG_agent.py:316 | `new_context.strip()` is falsy exactly when the context is all whitespace |
| Text.LowerChars | servers/mcp-neo4j-cypher/src/mcp_neo4j_cypher/RAG_agent.py:291 | `str.lower()` keeps the length and maps every character to its lower-case form (ASCII letters) |
| Text.UpperChars | servers/mcp-neo4j-cypher/src/mcp_neo4j_cypher/RAG_agent.py:317 | `str.upper()` keeps the length and maps every character to its upper-case form (ASCII letters) |
| Text.ContainsIffOccurs | servers/mcp-neo4j-cypher/src/mcp_neo4j_cypher/RAG_agent.py:316 | `sub in s` holds exactly when `sub` occurs in `s` at some position, in both directions |
| Render.RenderRecords | servers/mcp-neo4j-cypher/src/mcp_neo4j_cypher/RAG_agent.py:215-217 | the `context_str +=` loop yields the header followed by every record's dump and a blank line, in record order |
| Render.RecordsTextSplit | servers/mcp-neo4j-cypher/src/mcp_neo4j_cypher/RAG_agent.py:216-217 | rendering distributes over concatenation of record lists, so the records keep their original order |
| Render.RecordsTextCons | servers/mcp-neo4j-cypher/src/mcp_neo4j_cypher/trial.py:96-97 | the first record's dump comes first, followed by the rest |
| Operations.DispatchTool | servers/mcp-neo4j-cypher/src/mcp_neo4j_cypher/RAG_agent.py:178-192 | dispatch succeeds exactly for a dict with "operation" and "query"; the write tool is chosen exactly for the string "write", the read tool for every other value |
| Operations.DispatchArguments | servers/mcp-neo4j-cypher/src/mcp_neo4j_cypher/trial.py:73-80 | the query is passed unchanged; the parameters are the operation's own, or `{}` when the key is missing |
| Operations.FallbackFields | servers/mcp-neo4j-cypher/src/mcp_neo4j_cypher/trial.py:69 | the fallback operation holds "read", the zero-row query and empty parameters |
| Operations.ParseReplyCases | servers/mcp-neo4j-cypher/src/mcp_neo4j_cypher/RAG_agent.py:170-174 | a reply that parses is used as it is; an unparseable reply yields exactly the fallback operation, which dispatches as a read of the zero-row query with `{}` |
| Session.ExitIgnoresCase | servers/mcp-neo4j-cypher/src/mcp_neo4j_cypher/trial.py:131 | under the ASCII case mapping of `Text.Lower` and `Text.Upper`, upper-casing the question never changes the exit test |
| Session.RunSession | servers/mcp-neo4j-cypher/src/mcp_neo4j_cypher/RAG_agent.py:352-353 | one turn runs per input line, in order; the session stops right after the first turn that quits, and only then |
| RagAgent.FormatContext | servers/mcp-neo4j-cypher/src/mcp_neo4j_cypher/RAG_agent.py:200-219 | the method computes `FormatSpec` of the tool result |
| RagAgent.FormatOutcomes | servers/mcp-neo4j-cypher/src/mcp_neo4j_cypher/RAG_agent.py:200-219 | "No results found in database" exactly for a missing envelope or falsy data; "Error processing Neo4j response" exactly when a str payload fails to decode; an exception exactly for truthy bool or number data; otherwise the header and every record in order |
| RagAgent.HeaderDistinguishes | servers/mcp-neo4j-cypher/src/mcp_neo4j_cypher/RAG_agent.py:202-215 | a rendered result never equals either sentinel |
| RagAgent.GenerateCypherFallback | servers/mcp-neo4j-cypher/src/mcp_neo4j_cypher/RAG_agent.py:156-174 | a non-JSON reply yields exactly `{"operation": "read", "query": "MATCH (n) RETURN n LIMIT 0", "params": {}}`, which dispatches as a read with `{}` |
| RagLoop.PlanAspects | servers/mcp-neo4j-cypher/src/mcp_neo4j_cypher/RAG_agent.py:289-296 | the selection loop and its fallback compute `InitialPlan` |
| RagLoop.SelectMembership | servers/mcp-neo4j-cypher/src/mcp_neo4j_cypher/RAG_agent.py:290-292 | an aspect is selected exactly when some table row names it and one of that row's keywords occurs in the lowered question |
| RagLoop.SelectRanked | servers/mcp-neo4j-cypher/src/mcp_neo4j_cypher/RAG_agent.py:290-292 | selection from the first k rows yields aspects of rank below k, in strictly increasing table order |
| RagLoop.PlanMembership | servers/mcp-neo4j-cypher/src/mcp_neo4j_cypher/RAG_agent.py:289-296 | an aspect is in the initial plan exactly when one of its keywords matches, or nothing matches and it is `incident_details` |
| RagLoop.InitialPlanFacts | servers/mcp-neo4j-cypher/src/mcp_neo4j_cypher/RAG_agent.py:269-296 | plan membership as above; the plan follows table order with no repeats; it has between one and four aspects |
| RagLoop.FallbackPlan | servers/mcp-neo4j-cypher/src/mcp_neo4j_cypher/RAG_agent.py:295-296 | no keyword matches exactly when the selection is empty, and then the plan is `["incident_details"]` |
| RagLoop.AlwaysFollowUpTemplate | servers/mcp-neo4j-cypher/src/mcp_neo4j_cypher/RAG_agent.py:304-307 | `rag` always passes non-empty extra context, so the iterative prompt template is always chosen |
| RagLoop.FetchAspect | servers/mcp-neo4j-cypher/src/mcp_neo4j_cypher/RAG_agent.py:304-314 | one aspect's generate, key reads, execute and format compute `Fetch`; any exception gives None |
| RagLoop.ErrorSentinelKept | servers/mcp-neo4j-cypher/src/mcp_neo4j_cypher/RAG_agent.py:316 | "Error processing Neo4j response" passes the filter |
| RagLoop.ErrorSentinelNotBlank | servers/mcp-neo4j-cypher/src/mcp_neo4j_cypher/RAG_agent.py:316 | the processing-error sentinel is not blank after `strip()` |
| RagLoop.NoResultsDropped | servers/mcp-neo4j-cypher/src/mcp_neo4j_cypher/RAG_agent.py:316 | "No results found in database" is dropped by the filter |
| RagLoop.Step | servers/mcp-neo4j-cypher/src/mcp_neo4j_cypher/RAG_agent.py:299-324 | every completed pass advances the loop position by exactly one |
| RagLoop.Advance | servers/mcp-neo4j-cypher/src/mcp_neo4j_cypher/RAG_agent.py:313-324 | once an aspect's query has run, a completed pass advances the loop position by exactly one |
| RagLoop.StepGrows | servers/mcp-neo4j-cypher/src/mcp_neo4j_cypher/RAG_agent.py:299-324 | a pass only grows the worklist, the visited set and the context, and the worklist grows by at most the extensions it uses up, which makes the loop terminate |
| RagLoop.PendingDrop | servers/mcp-neo4j-cypher/src/mcp_neo4j_cypher/RAG_agent.py:321-324 | an aspect's first usable result pays for its follow-ups: what it appends is at most what `Pending` loses |
| RagLoop.StepVisits | servers/mcp-neo4j-cypher/src/mcp_neo4j_cypher/RAG_agent.py:313-324 | for an unvisited aspect, a usable result is recorded (header plus context appended, aspect marked, follow-ups queued); any other result only advances the loop |
| RagLoop.Absorb | servers/mcp-neo4j-cypher/src/mcp_neo4j_cypher/RAG_agent.py:316-324 | the body after the query computes `Advance`: it fails on an exception; a usable context is appended under its header, marks the aspect visited and queues its follow-ups; a dropped one changes nothing but the position |
| RagLoop.VisitAspect | servers/mcp-neo4j-cypher/src/mcp_neo4j_cypher/RAG_agent.py:299-324 | one pass of the loop body runs `Step`: it completes exactly when `Step` does, with the same new state |
| RagLoop.WalkAspects | servers/mcp-neo4j-cypher/src/mcp_neo4j_cypher/RAG_agent.py:299-324 | the `for` loop over the growing worklist completes exactly when `Run` does, with `Run`'s accumulated context |
| RagLoop.Rag | servers/mcp-neo4j-cypher/src/mcp_neo4j_cypher/RAG_agent.py:260-340 | the whole `rag` turn computes `Turn` |
| RagProperties.DistinctAspectsOnce | servers/mcp-neo4j-cypher/src/mcp_neo4j_cypher/RAG_agent.py:300-301 | no two sections of the context share an aspect |
| RagProperties.SectionsTextEmpty | servers/mcp-neo4j-cypher/src/mcp_neo4j_cypher/RAG_agent.py:317 | the accumulated context is empty exactly when no section was appended |
| RagProperties.InitKeepsInv | servers/mcp-neo4j-cypher/src/mcp_neo4j_cypher/RAG_agent.py:266-267 | the empty visited set and empty context satisfy the loop invariant |
| RagProperties.RecordedKeepsInv | servers/mcp-neo4j-cypher/src/mcp_neo4j_cypher/RAG_agent.py:316-318 | recording a usable result for an unvisited aspect keeps the invariant and adds exactly one section at the end |
| RagProperties.StepKeepsInv | servers/mcp-neo4j-cypher/src/mcp_neo4j_cypher/RAG_agent.py:299-324 | each pass keeps the invariant (context = the sections' text, visited = the aspects with a section, each aspect at most once, each section passed the filter) and keeps the earlier sections |
| RagProperties.StepAppendOnly | servers/mcp-neo4j-cypher/src/mcp_neo4j_cypher/RAG_agent.py:300-324 | a visited aspect is skipped: the pass always completes, without a query, and only moves on; otherwise a pass either leaves context, visited set and worklist unchanged, or appends exactly `"\n=== " + upper(aspect) + " ===\n" + context`, marks the aspect and queues its follow-ups, the latter exactly for an unvisited aspect with a usable result, so a dropped result leaves the aspect unvisited |
| RagProperties.FollowUpRules | servers/mcp-neo4j-cypher/src/mcp_neo4j_cypher/RAG_agent.py:321-324 | `incident_details` with "road_name" queues `response_plans` and `vms_details`; `response_plans` with "plan_type" queues `vms_details`; nothing else is queued |
| RagProperties.RunKeepsInv | servers/mcp-neo4j-cypher/src/mcp_neo4j_cypher/RAG_agent.py:299-324 | a completed run keeps the invariant, passes over every worklist entry, only grows worklist, sections and context, and grows the worklist by at most the pending extensions |
| RagProperties.LoopFacts | servers/mcp-neo4j-cypher/src/mcp_neo4j_cypher/RAG_agent.py:299-324 | a completed loop has the plan as a prefix of the worklist and at most three extra entries; the context is exactly the usable sections in discovery order, each aspect at most once, and the visited set is the set of their aspects |
| RagProperties.AtMostSevenPasses | servers/mcp-neo4j-cypher/src/mcp_neo4j_cypher/RAG_agent.py:289-324 | a turn's loop body runs at most seven times |
| RagProperties.RagExit | servers/mcp-neo4j-cypher/src/mcp_neo4j_cypher/RAG_agent.py:262-264 | the turn quits exactly when the stripped line is `exit` or `quit` in any case |
| RagProperties.AnswerGate | servers/mcp-neo4j-cypher/src/mcp_neo4j_cypher/RAG_agent.py:326-334 | "no information" exactly when the loop completed with no section; an answer exactly when it completed with some section and the model replied, and then it is generated from the accumulated context |
| RagProperties.NothingUsableRun | servers/mcp-neo4j-cypher/src/mcp_neo4j_cypher/RAG_agent.py:299-318 | when every query completes but nothing passes the filter, the loop passes over the whole worklist and the context stays empty |
| RagProperties.NothingUsableMeansNoInformation | servers/mcp-neo4j-cypher/src/mcp_neo4j_cypher/RAG_agent.py:326-334 | then the turn reports no information and never asks for an answer |
| RagProperties.FirstFailureAbortsTurn | servers/mcp-neo4j-cypher/src/mcp_neo4j_cypher/RAG_agent.py:338-340 | an exception in the first aspect's query fails the whole turn |
| Trial.FormatContext | servers/mcp-neo4j-cypher/src/mcp_neo4j_cypher/trial.py:82-99 | the method computes the single-shot `FormatSpec` |
| Trial.FormatOutcomes | servers/mcp-neo4j-cypher/src/mcp_neo4j_cypher/trial.py:82-99 | "No results found in database" exactly for a missing envelope or falsy decoded data; "Error decoding Neo4j response" exactly when the str payload fails to decode; an exception for a non-str payload or truthy bool or number data; otherwise the header and every record in order |
| Trial.HeaderDistinguishes | servers/mcp-neo4j-cypher/src/mcp_neo4j_cypher/trial.py:85-95 | the two sentinels differ, and no rendered result equals either |
| Trial.GenerateCypherFallback | servers/mcp-neo4j-cypher/src/mcp_neo4j_cypher/trial.py:53-69 | a non-JSON reply yields exactly `{"operation": "read", "query": "MATCH (n) RETURN n LIMIT 0", "parameters": {}}`, which dispatches as a read with `{}` |
| Trial.Turn | servers/mcp-neo4j-cypher/src/mcp_neo4j_cypher/trial.py:127-154 | the turn quits exactly when the stripped line is `exit` or `quit` in any case, generating and executing nothing; with no gate it never reports that nothing was found |
| Trial.AlwaysAnswers | servers/mcp-neo4j-cypher/src/mcp_neo4j_cypher/trial.py:142-150 | an answer is produced exactly when the tool call, the formatting and the model call complete, even from the no-results sentinel |
| Trial.FallbackTurn | servers/mcp-neo4j-cypher/src/mcp_neo4j_cypher/trial.py:135-148 | a non-JSON reply makes the turn run the zero-row read with empty parameters and answer from its result |

## Left out

- The language model, the MCP tool server and schema loading are oracle
  parameters (`Env`). The prompt texts, the schema they embed, the model
  name, `max_tokens` and the temperatures are not modelled.
- `json.loads` and `json.dumps` are abstract. JSON numbers are integers
  only, and a dict's pairs are assumed to have distinct keys.
- Payloads that are Python objects other than JSON values are not modelled.
- `print`, `input()`, `asyncio`, `dotenv` and the client bootstrap are left
  out. The input lines are a parameter.
- Session.RunSession: stops when its list of lines runs out. The program
  never ends at end of input. There `input()` raises `EOFError` inside the
  `try` (`RAG_agent.py:262`, caught at 338-340; `trial.py:130`, caught at
  152-154), `rag` returns True, and the loop asks for input again.
- The oracles in `Oracles.Env` are deterministic and stateless: the same
  prompt always gets the same reply, and the same tool call the same result.
  The program samples the model at temperature 0.1, so two identical
  prompts may get different queries. In the model, an aspect dropped once
  and queued again is dropped again with the same context. In the program,
  the second model call may return a different query. Likewise equal input
  lines give equal turn outcomes in `Session.RunSession`. A write through
  `write_neo4j_cypher` never changes what a later read returns.
- `Text.Lower` and `Text.Upper` map ASCII letters only. Python's full
  Unicode case mapping is not modelled. The keywords, aspects and exit words
  are all ASCII, but the question need not be. Some non-ASCII letters have
  an ASCII case mapping in Python: U+212A KELVIN SIGN lower-cases to `k`,
  and U+0131 DOTLESS I and U+017F LONG S upper-case to `I` and `S`. For
  these the model and the program differ. "LINK" written with U+212A
  selects `road_network` (`RAG_agent.py:291`) only in the program.
- Session.ExitIgnoresCase: holds only for the ASCII case mapping. In Python
  `"ex\u0131t".upper()` is `"EXIT"`, an exit word, while
  `"ex\u0131t".lower()` is not. So in the program upper-casing can turn a
  line that does not exit into one that does.
- `generate_answer` is the oracle call on `RagAnswerPrompt` or
  `TrialAnswerPrompt`. Only whether it raises, and its text, are modelled.
- `SessionAwareChatBot` in `RAG_agent.py` is not part of this model. It
  extends an undefined class and sits inside the `__main__` block. As
  written, `RAG_agent.py` does not load: line 359 `def __init__(self):` is
  indented no deeper than the `class` line 358 above it, so Python raises
  `IndentationError` and `rag` never runs. The model describes `rag` as it
  would run with lines 358-407 removed.
- `test.py`, `client.py` and `run_mcp_server.py` are not part of this model.
  They are unfinished glue and I/O bootstrap.
- Per-aspect error recovery is not modelled, because the code has none.
  Every exception ends the turn.
