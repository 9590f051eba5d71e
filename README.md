# Deep research agent: stream, chat page, document viewer and agent loop

This project models in Dafny the control flow at the core of the deep research agent:

- the backend's streaming endpoint. `generate()` in `backend/main.py` sends a `starting` frame, then one `processing` frame per second while the research thread runs, then one terminal frame: `error` or `completed`.
- the chat page's `handleSubmit` in `frontend/src/app/page.tsx`. It adds the user's message and an empty bot message, then reads the stream chunk by chunk. Each chunk is split on `"\n"` and each `data:` line is parsed. The bot message is rewritten on `error`, `processing` and `completed` events. At the end the page keeps a window of the last exchanges as a textual chat history.
- the document viewer in `frontend/src/app/components/DocumentViewer.tsx`:
  - the three metadata extractors. These are regular-expression searches, modelled as the engine runs them and proved equal to a plain description.
  - the render guard, tab selection, and the streamed summary with its `[ERROR]` frames.
- the agent in `backend/src/agent.py`:
  - `web_search`, which filters and formats Brave results;
  - `run_agent_with_tools`, the bounded loop of LLM calls and tool calls.

Files:

- `wrappers.dfy`: `Option` and `Result`.
- `text.dfy`: the JavaScript and Python string operations the code relies on: `split`, `join`, `startsWith`, first-occurrence `replace`, `trim`'s whitespace, and decimal formatting.
- `py_json.dfy`: Python's `json.dumps` with its default settings. That means ASCII-only escaping, the `", "` and `": "` separators, and a `TypeError` for values it cannot encode.
- `search_stream.dfy`: `search_stream` and its generator.
- `chat.dfy`: the chat page.
- `pipeline.dfy`: lemmas that connect the frames the backend writes to what the page shows.
- `document_viewer.dfy`: the document viewer.
- `agent.dfy`: `web_search` and `run_agent_with_tools`.

The stateful parts are classes with `modifies` clauses: `Chat.Home` (the page's `useState` values) and `DocumentViewer.Viewer`. Each loop of the source is a method with a `while` loop proved against a specification function: `SearchStream`, `ReadReply` and `ReadLines`, `ReadSummary`, `WebSearch`, `CallTools` and `RunAgentWithTools`. Properties are proved about those functions.

The outside world is replaced by values:

- the research thread is a `Worker`: how many times `is_alive()` answers true, and whether the agent returned a dict or raised;
- each HTTP reply is the sequence of decoded chunks and how the read ended;
- `JSON.parse` on the page, with the field reads after it, is an oracle `string -> Option<Event>`;
- the Brave response is a value;
- the LLM is a function from the iteration number and the history it is shown to its response;
- tool calls are values holding their output or their exception's text.

Where the written description of the system and the code disagree, the model follows the code:

- the page keeps no buffer across chunks, so a frame split between two chunks is lost (`Pipeline.SplitFrameLost`);
- a line whose JSON does not parse is skipped silently; it does not show an error;
- statuses other than `error`, `processing` and `completed` are ignored, and that includes `starting`;
- a stream that closes without a `completed` event still adds an `ASSISTANT:` entry to the history, with empty text;
- `completed` is `iteration < max_iterations`, so an answer on the last allowed iteration counts as not completed;
- with `max_iterations <= 0` the loop never runs, and the return statement reads an unbound `result`. The model gives `None` in that case.

## Model

| member | source | states |
|---|---|---|
| Text.JoinSplit | frontend/src/app/page.tsx:47 | joining the pieces of `split(sep)` with `sep` gives back the text |
| Text.SplitJoin | backend/src/agent.py:36 | pieces without the separator, joined by it, split back into the same pieces |
| Text.SplitAtFirst | frontend/src/app/page.tsx:47 | the first occurrence of a one-character separator ends the first piece |
| Text.NatToStringRoundTrip | backend/main.py:71 | the decimal text of a number reads back as that number |
| PyJson.EscapeChar | backend/main.py:71 | every character is escaped to at least one printable ASCII character |
| PyJson.DumpsSpec | backend/main.py:79-84 | `json.dumps` succeeds exactly when the value holds nothing unserializable, and its text is printable ASCII |
| PyJson.DumpsItemsSpec | backend/main.py:81 | a list serializes exactly when every item does, to printable ASCII |
| PyJson.DumpsEntriesSpec | backend/main.py:81 | a dict serializes exactly when every value does, to printable ASCII |
| SearchStream.Lookup | backend/main.py:78-79 | `key in d` holds exactly when some entry has that key, and `d[key]` is that entry's value |
| SearchStream.StatusValueSerializes | backend/main.py:47 | a status dict of two strings always serializes |
| SearchStream.StatusPayloadPrintable | backend/main.py:47 | status payloads are printable ASCII, so they hold no line break |
| SearchStream.TerminalPayloadPrintable | backend/main.py:76-84 | the terminal payload is printable ASCII for every outcome, including the `TypeError` branch |
| SearchStream.ProgressFramesShape | backend/main.py:47-71 | the first frame is `starting` and frame k is the k-th `processing` frame |
| SearchStream.SearchStream | backend/main.py:41-84 | the frames are `starting`, one `processing` frame per tick numbered from 1, and the terminal frame, in that order |
| SearchStream.ProcessingMessageNamesIteration | backend/main.py:70-71 | two `processing` messages are equal exactly when their iteration numbers are |
| SearchStream.TerminalOnRaise | backend/main.py:56-61 | a worker exception ends the stream with an `error` frame carrying its message |
| SearchStream.TerminalOnErrorEntry | backend/main.py:78-79 | a result with an `error` string ends the stream with an `error` frame carrying that string |
| SearchStream.TerminalOnResult | backend/main.py:80-84 | without `error`, the `completed` frame is sent exactly when the result serializes, and otherwise an `error` frame with the `TypeError` text |
| Chat.Relevant | frontend/src/app/page.tsx:49-52 | a line is kept exactly when the loop does not skip it, and no more lines are kept than given |
| Chat.RelevantAppend | frontend/src/app/page.tsx:49-52 | the filter works line by line, so the kept lines stay in their order |
| Chat.RelevantOne | frontend/src/app/page.tsx:50-52 | a single line is kept exactly when it is not skipped |
| Chat.ScanRelevant | frontend/src/app/page.tsx:49-52 | dropping blank lines and non-`data:` lines does not change what a chunk does |
| Chat.CompletedEndsChunk | frontend/src/app/page.tsx:76-86 | after a `completed` line, the rest of the chunk is not read |
| Chat.ScanStops | frontend/src/app/page.tsx:49-92 | a chunk's loop breaks exactly when it holds a `completed` line, and then `fullContent` is the text shown |
| Chat.ReadChunksKeepsRole | frontend/src/app/page.tsx:42-93 | reading the stream keeps the last message a bot message |
| Chat.ScanKeepsRole | frontend/src/app/page.tsx:49-92 | one chunk keeps the last message a bot message |
| Chat.ConversationAppend | frontend/src/app/page.tsx:21-22 | adding a user message and a bot message keeps the conversation alternating |
| Chat.NoCompletedKeepsFullContent | frontend/src/app/page.tsx:38-97 | when no line of any chunk is a `completed` line, `fullContent` and the response time stay as they were |
| Chat.ScanKeeps | frontend/src/app/page.tsx:49-92 | the same for the lines of one chunk |
| Chat.NoCompletedHistory | frontend/src/app/page.tsx:38-97 | a stream without a `completed` line still records the exchange, with `ASSISTANT: ` and no text |
| Chat.WindowShape | frontend/src/app/page.tsx:95-97 | the history alternates `USER:` and `ASSISTANT:` entries, and keeps at most six |
| Chat.Home.constructor | frontend/src/app/page.tsx:6-10 | the initial state: no messages, empty input and history, flags off |
| Chat.Home.InputChange | frontend/src/app/page.tsx:114 | only the input changes |
| Chat.Home.HandleSubmit | frontend/src/app/page.tsx:12-108 | blank input changes nothing. Otherwise: the user and bot messages are appended; the bot message is the stream's result, plus the connection notice if something threw; the input is cleared; the history window is updated unless something threw; the support prompt shows once there are three messages |
| Chat.Home.ReadReply | frontend/src/app/page.tsx:42-93 | the last message becomes what reading the chunks gives, and `fullContent` is returned |
| Chat.Home.ReadLines | frontend/src/app/page.tsx:47-92 | the last message becomes what the line loop of one chunk gives |
| Pipeline.DataLinesAppend | frontend/src/app/page.tsx:47-52 | the data lines of two runs of payloads are the two runs of lines |
| Pipeline.NonBlank | frontend/src/app/page.tsx:50 | no line that is kept is blank |
| Pipeline.SplitFrames | frontend/src/app/page.tsx:47 | splitting whole frames on `"\n"` gives, for each frame, its data line and then an empty line |
| Pipeline.FramesRoundTrip | frontend/src/app/page.tsx:47-52 | the non-blank lines of whole frames are exactly their data lines |
| Pipeline.ScanFrameLines | frontend/src/app/page.tsx:49-52 | the line loop over whole frames does what their data lines do |
| Pipeline.ReadChunkOfFrames | frontend/src/app/page.tsx:46-52 | a chunk of whole frames does what their data lines do |
| Pipeline.ScanAppend | frontend/src/app/page.tsx:49-92 | two runs of lines read one after the other, when the first has no `completed` |
| Pipeline.StepData | frontend/src/app/page.tsx:51-54 | a data line hands its payload to `JSON.parse`, and it is a `completed` line exactly when that payload parses as a `completed` event |
| Pipeline.ReadWholeFrames | frontend/src/app/page.tsx:42-93 | chunks made of whole frames, with no `completed` event before the last frame, read as one run of data lines |
| Pipeline.EmissionIsFrames | backend/main.py:45-84 | the frames sent are the frames of the emission's payloads |
| Pipeline.EmissionPrintable | backend/main.py:45-84 | no payload that is sent holds a line break |
| Pipeline.Decode | frontend/src/app/page.tsx:53-90 | the inner `catch` is taken exactly when `data` is `null` or a `completed` dict has no `result` or a `null` one; every value that is not a dict with status `error`, `processing` or `completed` is ignored |
| Pipeline.DecodeStatus | frontend/src/app/page.tsx:56-74 | an `error` dict decodes to its message, a `processing` dict to its message, and the `starting` dict to nothing |
| Pipeline.ParsedStatus | frontend/src/app/page.tsx:54 | parsing a status frame gives what the page decodes from the dict |
| Pipeline.ScanProgress | frontend/src/app/page.tsx:66-73 | a run of `processing` lines leaves the bot message showing the latest one |
| Pipeline.NoEarlyCompletion | frontend/src/app/page.tsx:76-86 | only the terminal line of an emission can end the read |
| Pipeline.ScanIgnored | frontend/src/app/page.tsx:56-86 | a line with another status is skipped |
| Pipeline.ScanLast | frontend/src/app/page.tsx:49-92 | the last line applies its event to the answer as the earlier lines left it |
| Pipeline.ScanEvents | frontend/src/app/page.tsx:49-92 | the `starting` frame, then `processing` frames, then a terminal frame, leave what the terminal event does to the last progress message |
| Pipeline.ReadEvents | frontend/src/app/page.tsx:42-93 | the same for any split of whole frames into chunks |
| Pipeline.ProgressParsed | backend/main.py:47-71 | the page reads the `starting` and `processing` frames back as they were written |
| Pipeline.ReadEmissionEvents | frontend/src/app/page.tsx:42-93 | the same, given the parsed progress events |
| Pipeline.ReadEmission | frontend/src/app/page.tsx:42-93 | reading a whole emission in whole-frame chunks applies the terminal event to the last progress message |
| Pipeline.StreamShowsRaise | backend/main.py:56-61 | when the worker raised, the bot message ends as `Error: <message>` with no response time |
| Pipeline.StreamShowsError | backend/main.py:78-79 | when the result holds a serializable `error` value, the bot message ends as `Error: ` and that value's JavaScript text |
| Pipeline.StreamShowsResult | frontend/src/app/page.tsx:76-85 | a serializable result without `error` ends as the text of its `final_response` (`undefined` when missing), with the response time built from the texts of `iterations` and `total_tokens`, and that text becomes `fullContent` |
| Pipeline.ApplyDecoded | frontend/src/app/page.tsx:76-85 | a `completed` event sets the text, the response time and `fullContent` |
| Pipeline.DecodeStatusCompleted | frontend/src/app/page.tsx:76-82 | a dict whose status is `completed` decodes to the texts of its `result`'s fields |
| Pipeline.DecodeCompleted | backend/main.py:81 | the `completed` dict the backend builds decodes to the fields of the result |
| Pipeline.TerminalParsed | backend/main.py:76-84 | the terminal frame parses to `Failed(message)` for an exception, to `Failed` with the text of a serializable `error` value, and to the result's fields otherwise |
| Pipeline.TerminalParsedError | backend/main.py:78-79 | a serializable `error` value parses to an `error` event carrying that value's text |
| Pipeline.TerminalParsedCompleted | backend/main.py:80-81 | a serializable result without `error` parses to its decoded fields |
| Pipeline.SplitFrameLost | frontend/src/app/page.tsx:46-52 | a frame read as one chunk applies its event, and the same frame cut in two chunks changes nothing |
| Pipeline.WholeFrameRead | frontend/src/app/page.tsx:46-52 | a chunk holding one whole frame applies that frame's event |
| Pipeline.ScanOne | frontend/src/app/page.tsx:49-92 | the loop over one line is that line's step |
| Pipeline.HeadIgnored | frontend/src/app/page.tsx:51-90 | the head of a cut frame does not parse and changes nothing |
| Pipeline.TailIgnored | frontend/src/app/page.tsx:50-51 | the tail of a cut frame is not a data line and changes nothing |
| DocumentViewer.RunEnd | frontend/src/app/components/DocumentViewer.tsx:18 | the greedy `[^\/]+` ends at the first slash or at the end |
| DocumentViewer.Backtrack | frontend/src/app/components/DocumentViewer.tsx:18 | backtracking only gives ends inside the run |
| DocumentViewer.IdMatchAt | frontend/src/app/components/DocumentViewer.tsx:18 | a match is not empty and stays inside the path |
| DocumentViewer.IdSearch | frontend/src/app/components/DocumentViewer.tsx:18 | the leftmost match starts at or after the search position |
| DocumentViewer.SegmentStart | frontend/src/app/components/DocumentViewer.tsx:16-20 | the last segment starts after the last slash and holds none |
| DocumentViewer.BacktrackFails | frontend/src/app/components/DocumentViewer.tsx:18 | a run that ends at a slash never satisfies the lookahead |
| DocumentViewer.NoIdMatchBefore | frontend/src/app/components/DocumentViewer.tsx:18 | no match starts before the last segment |
| DocumentViewer.IdSearchFinds | frontend/src/app/components/DocumentViewer.tsx:18 | the search finds the last segment when it is not empty, and nothing otherwise |
| DocumentViewer.DocumentIdIsLastSegment | frontend/src/app/components/DocumentViewer.tsx:16-20 | `extractDocumentId` gives the text after the last slash, extension included, or the whole path when that text is empty |
| DocumentViewer.AlternativeAt | frontend/src/app/components/DocumentViewer.tsx:24 | a match is the text one of the alternatives matched, ignoring case |
| DocumentViewer.UpperMatched | frontend/src/app/components/DocumentViewer.tsx:25 | upper-casing the matched text gives the marker itself |
| DocumentViewer.AlternativeAtFinds | frontend/src/app/components/DocumentViewer.tsx:24 | where a marker matches, the engine takes exactly that marker |
| DocumentViewer.AlternativeAtNone | frontend/src/app/components/DocumentViewer.tsx:24 | where no marker matches, nothing is taken |
| DocumentViewer.ClassificationSearchFinds | frontend/src/app/components/DocumentViewer.tsx:24 | the search returns the leftmost marker |
| DocumentViewer.ClassificationSearchNone | frontend/src/app/components/DocumentViewer.tsx:24 | with no marker ahead, the search finds nothing |
| DocumentViewer.ClassificationIsLeftmost | frontend/src/app/components/DocumentViewer.tsx:22-26 | `extractClassification` is the leftmost marker, matched without regard to case or word boundaries, in upper case |
| DocumentViewer.ClassificationAbsent | frontend/src/app/components/DocumentViewer.tsx:22-26 | the result is null exactly when no marker occurs anywhere |
| DocumentViewer.Leftmost | frontend/src/app/components/DocumentViewer.tsx:24 | if some marker occurs, one occurs leftmost |
| DocumentViewer.MonthEnds | frontend/src/app/components/DocumentViewer.tsx:30 | every end of the month group lies after its start and inside the text |
| DocumentViewer.DayEnds | frontend/src/app/components/DocumentViewer.tsx:30 | the same for the day group |
| DocumentViewer.YearEnds | frontend/src/app/components/DocumentViewer.tsx:30 | a year is exactly four characters |
| DocumentViewer.DigitsEnd | frontend/src/app/components/DocumentViewer.tsx:30 | the digit run is maximal |
| DocumentViewer.MonthEndsShape | frontend/src/app/components/DocumentViewer.tsx:30 | the month alternatives accept exactly the runs of one or two digits worth 1 to 12 |
| DocumentViewer.DayEndsShape | frontend/src/app/components/DocumentViewer.tsx:30 | the day alternatives accept exactly the runs of one or two digits worth 1 to 31 |
| DocumentViewer.YearEndsShape | frontend/src/app/components/DocumentViewer.tsx:30 | the year alternatives accept exactly four digits worth 1900 to 2099 |
| DocumentViewer.YearPartShape | frontend/src/app/components/DocumentViewer.tsx:30 | separator, year and `\b` as the engine runs them equal the plain description |
| DocumentViewer.DayPartIsToken | frontend/src/app/components/DocumentViewer.tsx:30 | the engine's match after the month equals the plain description |
| DocumentViewer.DateAtIsToken | frontend/src/app/components/DocumentViewer.tsx:30 | the engine's match at a position equals the plain description of a date |
| DocumentViewer.DateSearchFinds | frontend/src/app/components/DocumentViewer.tsx:30 | the search returns the leftmost date |
| DocumentViewer.DateSearchNone | frontend/src/app/components/DocumentViewer.tsx:30 | with no date ahead, the search finds nothing |
| DocumentViewer.DateIsLeftmost | frontend/src/app/components/DocumentViewer.tsx:28-32 | `extractDate` returns the leftmost date |
| DocumentViewer.DateAbsent | frontend/src/app/components/DocumentViewer.tsx:28-32 | `extractDate` is null exactly when no date starts anywhere |
| DocumentViewer.FirstDate | frontend/src/app/components/DocumentViewer.tsx:30 | if some date occurs, one occurs leftmost |
| DocumentViewer.HasErrorFrameAppend | frontend/src/app/components/DocumentViewer.tsx:150-152 | an `[ERROR]` frame occurs in two runs exactly when it occurs in one of them |
| DocumentViewer.PayloadsAppend | frontend/src/app/components/DocumentViewer.tsx:148-153 | the payloads of two runs are the two runs of payloads |
| DocumentViewer.ReadFramesAppends | frontend/src/app/components/DocumentViewer.tsx:145-155 | one chunk appends its payloads in order, unless a frame throws |
| DocumentViewer.SummaryIsPayloads | frontend/src/app/components/DocumentViewer.tsx:140-156 | the summary is every payload of every chunk, in order, unless some frame is an `[ERROR]` frame |
| DocumentViewer.Viewer.constructor | frontend/src/app/components/DocumentViewer.tsx:57-66 | the first document is current, and the viewer renders exactly when the list is not empty |
| DocumentViewer.Viewer.SelectTab | frontend/src/app/components/DocumentViewer.tsx:103-106 | the clicked document becomes current and the summary is hidden |
| DocumentViewer.Viewer.Summarize | frontend/src/app/components/DocumentViewer.tsx:117-162 | a click while the summary shows only hides it. Otherwise the summary is shown and is what the reply gives, or the failure text. Loading always ends cleared |
| DocumentViewer.Viewer.ReadSummary | frontend/src/app/components/DocumentViewer.tsx:140-156 | the loop fails exactly when the chunks hold an `[ERROR]` frame, and otherwise appends every payload |
| Agent.WebSearch | backend/src/agent.py:13-39 | the text is what `WebSearchText` gives for the Brave outcome |
| Agent.KeptFilters | backend/src/agent.py:29-31 | the records kept are exactly those with a profile |
| Agent.KeptAppend | backend/src/agent.py:29-31 | the filter keeps the order of the records |
| Agent.SummariesAreBlocks | backend/src/agent.py:28-36 | the loop succeeds exactly when every kept record has all its keys, and then gives one block per kept record, in order |
| Agent.BlockLines | backend/src/agent.py:32-36 | a block splits into header, title, description and url |
| Agent.SummariesFailure | backend/src/agent.py:29-36 | a failing loop stops at the first incomplete kept record, with the first key its block reads that the record lacks |
| Agent.WebSearchResult | backend/src/agent.py:13-39 | the blocks are joined by blank lines when every kept record is complete; otherwise the text is the `KeyError` message for the first missing key of the first incomplete kept record |
| Agent.ToolMessagesAppend | backend/src/agent.py:128-146 | the tool messages of two runs of calls are those of the first run, then those of the second |
| Agent.CallTools | backend/src/agent.py:128-140 | every tool is called in order, and an exception gives `Error: <e>` |
| Agent.RunUnfolds | backend/src/agent.py:104-153 | a loop that has not stopped and is under the bound runs one more iteration |
| Agent.Iteration | backend/src/agent.py:105-153 | one iteration: the LLM call, the tokens, the user message only in iteration 1, one assistant message, the tool messages when tools were called, and a stop when none were |
| Agent.RunAgentWithTools | backend/src/agent.py:85-171 | the result and the history are those of the loop's specification |
| Agent.CalledAt | backend/src/agent.py:109 | call k saw the history the k - 1 responses before it built |
| Agent.StepConsistent | backend/src/agent.py:105-153 | an iteration keeps the loop's variables consistent with the LLM's responses |
| Agent.RunConsistent | backend/src/agent.py:104-153 | the loop ends consistent, and either stopped or at the bound; it never passes a bound it started under |
| Agent.AgentAnswersIffPositive | backend/src/agent.py:104-171 | a result exists exactly when `max_iterations > 0`; otherwise `result` is unbound |
| Agent.AgentStopsAtFirstAnswer | backend/src/agent.py:104-171 | at most `max_iterations` iterations; every response but the last called tools; the final response is the last content; `completed` holds exactly when the last response called no tools and came before the last allowed iteration |
| Agent.AgentTokens | backend/src/agent.py:113 | `total_tokens` is the sum of input and output tokens over all calls |
| Agent.AgentCalls | backend/src/agent.py:109 | each LLM call is given the history of the iterations before it |
| Agent.AgentHistory | backend/src/agent.py:119-146 | the history is the opening user message, then each iteration's assistant and tool messages |
| Agent.TranscriptLength | backend/src/agent.py:119-146 | the history has at most one user message, one assistant message per iteration and one message per tool |
| Agent.TranscriptGrows | backend/src/agent.py:119-146 | the history only grows: each earlier history is a prefix of later ones |

## Left out

- The network: `fetch`, the readers, `TextDecoder`, Brave, the summary endpoint and the LLM. The model takes what they deliver as parameters.
- Threads and `asyncio.sleep`. The worker is reduced to how many times `is_alive()` answers true, and its outcome.
- `JSON.parse` on the frontend is an oracle. The round-trip lemmas assume it reads back what `json.dumps` wrote (`ParsesBack`, `ReadsBack`).
- `json.dumps` only covers strings, integers, booleans, `None`, lists and dicts with string keys. Floats are left out.
- `total_cost` is a float sum and is left out of `AgentResult`.
- `print` and `console.error` are left out: they are output only.
- Strings are sequences of Unicode scalar values, not UTF-16 code units. `toUpperCase` is modelled on ASCII letters only, which is all the classification markers match.
- React's batching of state updates is not modelled. Each `setX` takes effect at once, which is what the page reads later in the same handler.
- The render itself is left out, apart from the guard `Renders()`: JSX, styling, `isVisible`, `onClose`, and the `Unclassified`/`Unknown` fallbacks.
- `ChatInterface`, `formatDocumentText`, `formatMessageContent`, `Landing`, `ResultsDisplay`, `ProgressDisplay` and `SearchForm` are not part of this model.
- The `/api/search` endpoint and `run_deep_research_agent` are not part of this model. The research run is the `Worker` value.
- `backend/agent.py` is not part of this model.
- `extract_content`, the tool prompt and `search`'s template are not part of this model. The LLM's `search` call is the `Llm` function.
- Agent.Iteration: mirascope's message types are abstract. `Msg` has user, assistant and tool messages only, and `tool_message_params` is one tool message per tool.
- Agent.RunAgentWithTools: the LLM is a function of the iteration number and the history. The question is fixed for the run, so it is folded into that function.
- Agent.RunAgentWithTools: with `max_iterations <= 0` the source raises `UnboundLocalError`. The model returns `None` there (`AgentAnswersIffPositive`).
- Chat.Home.HandleSubmit: the exception that `new URL` or a missing reader throws is modelled as a reply that ends `Thrown`, with the chunks read before it.
- Pipeline.Decode: the page assigns `data.message` and `data.result.final_response` to the bot message as they are. The model stores their JavaScript text (`JsText`) instead. The two agree for strings, and for the `Error: ` text, the response time and the history entry, which are built by string conversion. They differ only in how React would render a raw number, `null`, `undefined` or object as message content; that rendering is `ChatInterface`'s, which is not part of this model.
- Pipeline.JsValueText: integers are written in decimal. JavaScript numbers lose precision beyond 2^53 and switch to exponent notation from 10^21; the model does not follow them there.
- Chat.Home.HandleSubmit: the handler is modelled as running to completion without interleaving. The page does not disable the form while a stream runs, so a second submit appends a new message pair, and the first stream's updates then write into the second placeholder.
- DocumentViewer.Viewer.Summarize: the handler is modelled as running to completion without interleaving. A tab click while a summary streams shows the old document's summary under the new tab; the model does not capture that.
