# Tool-use loop of the course-materials assistant, in Dafny

This project models `AIGenerator.generate_response` and `_extract_text`
from `backend/ai_generator.py`. That is the part of the retrieval-augmented
course assistant that drives one user query through the model provider.
It works in these steps:

- It builds a system context from the policy prompt and, if there is any,
  the conversation history.
- It makes one initial provider call. Tools are offered only if the tool list is non-empty.
- It then runs at most `MAX_TOOL_ROUNDS` (2) tool rounds. A round logs the
  assistant's tool-use turn and dispatches every `tool_use` block through
  the tool manager. It then logs the results as one user turn and calls the
  provider again. That follow-up call offers tools only if another round remains.
- It stops early at a response whose stop reason is not `tool_use`, or when
  there is no tool manager.
- It returns the first text block of the last response.

The provider is an oracle `Call -> Response`. A `Call` records the system
context, a snapshot of the message log and the tool offer. The tool manager is
an optional function `(name, input) -> string`. A run (`Generator.Run`)
records the following:

- the extracted answer;
- every call made;
- the final log;
- the `tool_use` blocks dispatched, in order;
- the number of rounds completed.

Layout:
- `wrappers.dfy`: `Option`.
- `content.dfy` (module `Content`): content blocks, responses, `_extract_text`, and the per-round conversion of `tool_use` blocks into tool results.
- `conversation.dfy` (module `Conversation`): messages, call records, system context, tool offer.
- `generator.dfy` (module `Generator`): `MAX_TOOL_ROUNDS`, the loop as a recursive function with a decreasing round budget, and the trace invariant it keeps.
- `generator_loop.dfy` (module `GeneratorLoop`): the same loop written as the source writes it, with a mutable log, a bounded loop with `break` and an inner loop over blocks. It is proved to compute the same run.
- `properties.dfy` (module `GeneratorProperties`): the all-inputs properties of a run, plus two scenarios with a scripted provider: `OneToolRound`, taken from the unit tests, and `TwoToolRounds`, a run that uses up the round budget, taken from the code.

The code and its unit tests disagree in one place.
`backend/tests/test_ai_generator.py:96-109` expects the round-0 follow-up call to omit tools.
With `MAX_TOOL_ROUNDS = 2` the code (`backend/ai_generator.py:117-120`) offers them on that call.
Tools are withheld only on the follow-up of the last round.
The model follows the code: see `GeneratorProperties.OneToolRound` and `GeneratorProperties.ToolsWithheldOnLastRound`.

## Model

| member | source | states |
|---|---|---|
| Content.FirstText | backend/ai_generator.py:128-130 | If it yields a text, that text belongs to a text block with no text block before it. It yields nothing only when no block is a text block. |
| Content.ExtractText | backend/ai_generator.py:126-131 | A text is found exactly when some block is a text block, and it is the first such block's text. Otherwise the fallback is the first block, which is then a tool_use block. The result is empty exactly when the content is empty, which is where the source raises. |
| Content.ToolUses | backend/ai_generator.py:100-101 | Every selected block is a tool_use block, and the selection is never longer than the content. |
| Content.ToolUsesMembers | backend/ai_generator.py:100-101 | A block is selected exactly when it is a tool_use block of the content, so non-tool_use blocks produce no entry. |
| Content.ToolResultsFor | backend/ai_generator.py:99-107 | There is one result per tool_use block, in content order. The k-th result carries the k-th block's id and the dispatcher's string for that block's name and input, verbatim, error strings included. |
| Content.AllToolUses | backend/ai_generator.py:100-101 | When every block of the content is a tool_use block, all of them are selected, in content order. |
| Content.ToolUsesAppend | backend/ai_generator.py:100-101 | Selecting tool_use blocks keeps their order: the selection from a concatenation is the concatenation of the selections. |
| Content.ToolResultsAppend | backend/ai_generator.py:99-107 | Results are collected block by block: the results for a concatenation are the results of each part, one after the other. |
| Content.ToolResultsCount | backend/ai_generator.py:99-108 | Content with only text blocks yields no result entries. Content with only tool_use blocks yields exactly one entry per block. |
| Conversation.SystemContent | backend/ai_generator.py:70-74 | The prompt is always a prefix of the context. The context is longer than the prompt exactly when the history is present and non-empty. It then continues with the "Previous conversation" header and ends with the history. |
| Conversation.SystemContentRoundTrip | backend/ai_generator.py:70-74 | Reading the history back from a built context gives the history that was used. It gives nothing when the history was absent or empty. |
| Conversation.SystemContentInjective | backend/ai_generator.py:70-74 | Over one prompt, two histories give the same context exactly when they are used alike. |
| Generator.StepKeepsTrace | backend/ai_generator.py:95-122 | A round extends a valid trace to a valid trace. The round appends the assistant turn and the results turn, records the follow-up call and adds the response's tool_use blocks to the dispatches. |
| Generator.Rounds | backend/ai_generator.py:91-124 | From any valid trace, the loop ends in a valid trace within the round budget. If it ended early, the last response does not continue the loop. The answer is extracted from the last response. |
| Generator.Generate | backend/ai_generator.py:52-124 | A run is a valid trace of rounds + 1 calls, at most MAX_TOOL_ROUNDS + 1 = 3. It ended early only at a response that asks for no tool, or when there is no tool manager. The answer comes from the last call's response. |
| GeneratorLoop.DispatchTools | backend/ai_generator.py:99-107 | The inner loop over blocks yields exactly the results and dispatched blocks of the functional definitions. |
| GeneratorLoop.TakeRound | backend/ai_generator.py:95-108 | One round appends exactly two messages to the log: the assistant turn holding the response content, then the user turn with its tool results. It dispatches exactly the response's tool_use blocks. |
| GeneratorLoop.GenerateResponse | backend/ai_generator.py:69-124 | The imperative loop, with its early break, computes exactly the run that Generate defines. |
| GeneratorProperties.CallContext | backend/ai_generator.py:70-114 | Every call has the same system context. That context is the bare prompt when the history is absent or empty. The first call sends only the user query. It offers tools exactly when the tool list is non-empty, and then offers that list with automatic tool choice. |
| GeneratorProperties.DirectAnswer | backend/ai_generator.py:88-93 | There is exactly one call if and only if the first response asks for no tool or there is no tool manager. In that case nothing is dispatched, the log is the query alone, and the answer is extracted from the first response. |
| GeneratorProperties.LogAlternates | backend/ai_generator.py:76-108 | After k rounds the log has 1 + 2k messages. It starts with the query and alternates user, assistant, user, and so on. |
| GeneratorProperties.RoundEntries | backend/ai_generator.py:95-108 | In round j the response to call j asked for a tool and a manager was present. The assistant entry is that response's content, unchanged. The following user entry holds one result per tool_use block, in order, with the matching id and the dispatcher's string. |
| GeneratorProperties.CallSnapshots | backend/ai_generator.py:76-122 | Call j is given the first 1 + 2j log messages, so each call's log extends the previous call's log. |
| GeneratorProperties.ToolsWithheldOnLastRound | backend/ai_generator.py:117-120 | A follow-up call offers tools if and only if another round remains and the tool list is non-empty. It then offers the given list with automatic tool choice. The follow-up of the last permitted round offers none. |
| GeneratorProperties.StopsAtFirstFinalResponse | backend/ai_generator.py:91-124 | Every response before the last continued the loop. A run shorter than the budget ended at a response that did not continue it. The answer comes from the last response, call rounds + 1. |
| GeneratorProperties.RoundsAnswered | backend/ai_generator.py:98-108 | For every k up to the rounds completed, the results logged in the first k rounds answer the blocks dispatched in those rounds, one to one and in order. |
| GeneratorProperties.DispatchesAnswered | backend/ai_generator.py:98-108 | Over a whole run, every dispatched tool_use block has exactly one logged tool result. The results are in dispatch order and carry the block's id and the dispatcher's string. Without a tool manager nothing is dispatched and no result is logged. |
| GeneratorProperties.OneToolRound | backend/tests/test_ai_generator.py:52-109 | A tool-requesting response followed by a final one gives two calls and dispatches the first response's tool_use blocks. The second call's log ends with the assistant turn and the results. The second call still offers the tools, and the answer comes from the second response. |
| GeneratorProperties.TwoToolRounds | backend/ai_generator.py:91-124 | Two tool-requesting responses in a row give exactly three calls. The first two offer the tools when the tool list is non-empty, and the third offers none. Both responses' tool_use blocks are dispatched in order. The answer comes from the third response even if it asks for a tool again. |

## Left out

- Client construction and the request parameters `model`, `temperature` and `max_tokens` (`backend/ai_generator.py:41-50`) are left out: they belong to the provider's API, which is the oracle here.
- The wording of `SYSTEM_PROMPT` (`backend/ai_generator.py:10-39`) is left out. The prompt is a parameter, so every property holds for any prompt text.
- Provider and tool-manager exceptions are not modelled: the oracle and the dispatcher are total. In the source such an exception ends the run with no further calls and is not retried.
- The tool manager's state is not modelled. A dispatch result depends only on the tool name and input, so two identical tool_use blocks in one run get the same result string. The source's `execute_tool` is a call on a stateful object and may answer them differently. The sources that the manager records are not modelled either.
- The truthiness of a tool-manager object is not modelled: a present manager is taken to be truthy.
- Python shares one mutable `messages` list across all calls. Each call instead records the log's value at the time of the call.
- Content.ExtractText: when no text block exists it returns the first block itself. The source reads that block's `text` attribute, which a real tool_use block does not have.
- Block types other than `text` and `tool_use`, and tool-input values other than strings and integers, are not modelled.
- `backend/tests/test_api.py`, `backend/tests/test_rag_system.py`, `backend/tests/test_search_tools.py` and the fixtures of `backend/tests/conftest.py` test other components. Those are the HTTP layer, the RAG system, the vector store and the search tools. Their sources are not part of this model. The tool manager appears only as the abstract dispatcher.
