# mcp-client orchestrator, modelled in Dafny

This project models the tool-calling orchestrator of `mcp-client`, a NestJS
service. The service takes a free-text technical problem and passes it to a
large-language-model vendor (OpenAI or Anthropic). The vendor may ask for
tools: the two built-in resource reads (`get_trello_lists`,
`get_known_problems`), the Trello ticket tool (`trello-create-ticket-tool`),
or any tool the MCP capability server advertises. Three pieces are modelled:

- **Provider selection**, `ProblemaService.resolverProblema` (`problema.dfy`).
  It reads `LLM_PRIORITY`, splits it on commas and trims each entry. It probes
  the known providers in order and hands the problem to the first live one.
- **Tool dispatch**, `processToolCalls` and its helpers in both adapters
  (`tools.dfy`, `openai.dfy`, `anthropic.dfy`). Each call is routed to a
  resource read, the ticket tool or a pass-through `callTool`. The result is
  appended to the conversation.
- **The bounded conversation**, `resolverProblemaConLLM` in both adapters.
  OpenAI makes at most four completion requests; Anthropic makes at most three.

The vendors and the MCP server are scripted oracles:

- A vendor (`Llm.Vendor`) answers its requests from a fixed sequence of
  replies. Once the sequence is used up, every request fails with a fixed
  error.
- The MCP client (`Mcp.Client`) has a fixed `listTools` answer, and an
  `answer(k, request)` table for its k-th call.
- Both keep a log of what they were sent.
- The selection service records each `ping` it sends, in order, in a probe
  log (`Problema.ProbeLog`), so which providers are probed is observable.

Against these oracles, each adapter's result is proved equal to a function of
the scripted replies (`Resolution`). The requests it sent are proved to be
exactly the transcripts the code builds (`Conversed`): each tool turn appends
the assistant message and then the tool results the server's scripted answers
produce, payloads included.

Supporting modules:

- `js.dfy`: the JavaScript values involved, with truthiness, `||` and `?.`.
- `text.dfy`: `split(',')` and `trim()`.
- `wrappers.dfy`: `Option` and `Result`.

Behaviour of the code that is easy to misread:

- The OpenAI adapter makes up to four completion requests; the Anthropic
  adapter makes up to three.
- An unknown or empty entry in `LLM_PRIORITY` is skipped silently, except a
  name inherited from `Object.prototype` such as `toString`, which makes the
  request fail (see "## Findings").
- Ticket aliases use JavaScript `||`. A falsy `idList` or `desc`, such as `""`,
  falls through to `listId` or `description`.
- Only the OpenAI adapter checks the ticket fields before calling the ticket
  tool; a missing one is answered with `{error: 'Missing required parameters'}`.
- An adapter's failure, such as a vendor transport error, reaches the caller
  without the `Error al resolver problema: ` prefix. `return
  services[priority].resolverProblemaConLLM(problema)` returns the promise
  without awaiting it, so the `catch` around it never sees the rejection.
  Only the selector's own two errors carry the prefix.

## Model

| member | source | states |
|---|---|---|
| Js.Or | src/services/llms/openai.service.ts:197-200 | `a \|\| b` is `a` when `a` is truthy and `b` otherwise; the result is truthy iff either operand is |
| Js.Get | src/services/llms/openai.service.ts:197-200 | `args?.key` is the own property when present, otherwise `undefined` (also for `null`/`undefined` arguments) |
| Js.ErrorPayload | src/services/llms/openai.service.ts:215 | the `{error: message}` object a failed tool call, resource read or ticket creation answers with (also lines 230, 315, 327 and 356) |
| Js.Truthy | src/services/llms/openai.service.ts:337 | JavaScript truthiness: `undefined`, `null`, `false`, `0` and `""` are falsy; every other value, objects and arrays included, is truthy; `Or` and `Complete` are built on it |
| Text.Split | src/modules/problema/problema.service.ts:20 | `split(',')` yields at least one piece and no piece contains a comma |
| Text.JoinSplit | src/modules/problema/problema.service.ts:20 | splitting loses nothing: joining the pieces with the separator gives the original setting back |
| Text.SplitJoin | src/modules/problema/problema.service.ts:20 | splitting undoes a join of comma-free pieces |
| Text.Trim | src/modules/problema/problema.service.ts:20 | `trim()` returns a contiguous middle of the entry; what it cuts before and after is all ECMAScript whitespace, and the result has none at either end |
| Text.TrimUnchanged | src/modules/problema/problema.service.ts:20 | an entry with no whitespace at either end is left unchanged by `trim()` |
| Text.TrimKeeps | src/modules/problema/problema.service.ts:20 | `trim()` introduces no character: whatever the trimmed entry contains, the entry contained |
| Mcp.Client.ListTools | src/services/llms/openai.service.ts:52-58 | `listTools` returns the server's catalog (None standing for a failure) and is logged |
| Mcp.Client.ReadResource | src/services/llms/openai.service.ts:307-317 | `readResource(uri)` is logged, and its outcome is the server's answer to that numbered call |
| Mcp.Client.CallTool | src/services/llms/openai.service.ts:207-217 | `callTool(name, args)` is logged, and its outcome is the server's answer to that numbered call |
| Llm.Vendor.Create | src/services/llms/openai.service.ts:154-165 | each request is recorded with its messages and tools; it consumes the next scripted reply, or fails with the outage error once the script is exhausted |
| Llm.Transcript.Push | src/services/llms/openai.service.ts:244-248 | `messages.push` appends exactly one message and changes nothing before it |
| Tools.Manifest | src/services/llms/openai.service.ts:60-100 | the manifest lists the server's tools in server order, then `get_trello_lists` and `get_known_problems`; a failed `listTools` gives only the two built-ins |
| Tools.PrepareTools | src/services/llms/anthropic.service.ts:53-96 | `prepareTools` sends exactly one `listTools` and returns the manifest of its answer |
| Tools.TicketFields | src/services/llms/openai.service.ts:196-200 | `listId = idList \|\| listId`, `name = name`, `description = desc \|\| description`: a falsy first alias falls through to the second |
| Tools.TicketArguments | src/services/llms/openai.service.ts:345-352 | the `{listId, name, description}` arguments the ticket tool is called with |
| Tools.Complete | src/services/llms/openai.service.ts:337 | `!listId \|\| !name \|\| !description` is false: all three resolved fields are truthy; `TicketGuard` proves the ticket tool is called exactly then |
| Tools.Route | src/services/llms/openai.service.ts:189-217 | the two built-ins read `mcp://trello/lists` and `mcp://known-problems`; the ticket tool gets `{listId, name, description}`, or `{error: 'Missing required parameters'}` when guarded and a field is falsy; any other name is forwarded verbatim |
| Tools.Settle | src/services/llms/openai.service.ts:307-358 | a tool's result is the server's value, or `{error: message}` when the read or call fails; a short-circuited ticket yields its error payload |
| Tools.Perform | src/services/llms/openai.service.ts:307-358 | `getTrelloLists`, `getKnownProblems`, `createTrelloTicket` and the default branch send exactly the routed request (none when short-circuited) and never throw |
| Tools.ReadsOnlyForBuiltins | src/services/llms/openai.service.ts:189-195 | a call reads a resource iff it names one of the two built-ins, and then reads that built-in's fixed URI |
| Tools.TicketGuard | src/services/llms/openai.service.ts:336-352 | with the guard, the ticket tool is called iff all three resolved fields are truthy, and otherwise no request is sent; without it, the tool is always called |
| OpenAI.RequestsTools | src/services/llms/openai.service.ts:243 | a reply asks for tools exactly when `tool_calls` is present and non-empty (the same test at lines 256 and 276) |
| OpenAI.FollowsShape | src/services/llms/openai.service.ts:244-250 | after a tool turn the transcript keeps everything before, then the assistant message with the reply's content and calls, then one `tool` message per `function` call, in order, with that call's id (`Answered`); custom calls get none |
| OpenAI.ExtractResult | src/services/llms/openai.service.ts:150-152 | the result is the reply's content when it is a non-empty string, otherwise `Problema procesado exitosamente` |
| OpenAI.ReplyTo | src/services/llms/openai.service.ts:173-232 | one call's tool message and server requests: none for a call without `function`; `{error: message}` and no request when its arguments do not parse; otherwise the routed action and its settled result; `Service.Answer` is proved to do exactly this |
| OpenAI.Replies | src/services/llms/openai.service.ts:172-234 | the messages and server requests of a whole turn, call after call with the server's calls numbered in order; `RepliesAnswer` and `RepliesTraffic` prove what they contain |
| OpenAI.RepliesAnswer | src/services/llms/openai.service.ts:172-173 | every call with a `function` gets exactly one tool message with its id, in request order; other calls get none |
| OpenAI.RepliesTraffic | src/services/llms/openai.service.ts:176-217 | the requests the server sees are the routed requests of the parseable function calls in order, whatever the server answers; an unparseable call sends nothing |
| OpenAI.RepliesStep | src/services/llms/openai.service.ts:172-234 | answering one more call appends its own tool message and server requests after those of the calls before it |
| OpenAI.TurnsTraffic | src/services/llms/openai.service.ts:243-288 | the server requests of successive tool turns, each turn's being `Traffic` of its reply's calls; `ResolveWithLLM` is proved to send exactly `[List]` followed by these |
| OpenAI.TurnsStep | src/services/llms/openai.service.ts:256-288 | one more tool turn appends its own requests behind those of the turns before |
| OpenAI.Requests | src/services/llms/openai.service.ts:241-293 | the number of completion requests the nested `if`s make for the scripted replies; `RequestsRun` characterises it |
| OpenAI.Resolution | src/services/llms/openai.service.ts:241-304 | the value the adapter returns: the extracted text of the last requested reply, or the vendor's error once the script is exhausted; `NoToolsSingleRequest`, `CapAtFour` and `Concluded` tie it to the code's exits |
| OpenAI.RequestsRun | src/services/llms/openai.service.ts:241-293 | the number of completion requests is one more than the leading run of tool-requesting replies, capped at four |
| OpenAI.Follows | src/services/llms/openai.service.ts:244-250 | one tool turn: the transcript grows by exactly the assistant message with the reply's content and calls, then `Replies` of those calls with the server's calls numbered from a given position in its log; only a reply that requests tools has one |
| OpenAI.Conversed | src/services/llms/openai.service.ts:237-293 | the requests of one resolution: `Requests(replies)` of them, the first carrying only the problem, all with the same manifest, and each later one the previous transcript extended by the previous reply's tool turn (`Follows`), the turns' server calls numbered on from one another |
| OpenAI.Resolved | src/services/llms/openai.service.ts:237-305 | what one resolution leaves behind: the result `Resolution(pending)`, the requests `Conversed` says, the first offering the manifest built from the server's catalog, and the server log grown by one `listTools` and then each tool turn's requests |
| OpenAI.Extended | src/services/llms/openai.service.ts:244-253 | a tool turn followed by a new request keeps the conversation's shape |
| OpenAI.Closed | src/services/llms/openai.service.ts:241-304 | requests that stop where the nested `if`s stop are exactly the resolution's conversation |
| OpenAI.NoToolsSingleRequest | src/services/llms/openai.service.ts:241-243 | a first reply without tool calls means exactly one request, and the result is extracted from that reply |
| OpenAI.CapAtFour | src/services/llms/openai.service.ts:276-293 | after four requests the result is taken from the fourth reply, even if it asks for tools again |
| OpenAI.Service.Ping | src/services/llms/openai.service.ts:33-46 | the probe's `alive` flag is the endpoint's reachability |
| OpenAI.Service.ProcessToolCalls | src/services/llms/openai.service.ts:167-235 | the transcript grows by exactly `Replies(calls)`, and the server log by exactly the calls' routed requests |
| OpenAI.Service.AnswerNext | src/services/llms/openai.service.ts:172-234 | one pass of the `for` loop extends the replies to the first i calls by the i-th call's |
| OpenAI.Service.Answer | src/services/llms/openai.service.ts:173-232 | a function call is parsed, routed and answered by exactly one tool message with its id (a parse failure by `{error: message}`); any other call pushes nothing and sends nothing |
| OpenAI.Service.Round | src/services/llms/openai.service.ts:244-250 | the transcript grows by exactly the assistant message carrying the reply's content and calls followed by `Replies` of those calls, the `tool` messages whose payloads `Tools.Settle` derives from the server's answers to the routed requests, or the error payload of unparseable arguments (`Follows`); the server receives exactly those requests |
| OpenAI.Service.FollowUp | src/services/llms/openai.service.ts:259-268 | a tool turn then a new request: the transcript grows exactly as `Follows` says, payloads included; the request carries the whole extended transcript and the unchanged manifest and receives the next scripted reply; the server log grows by exactly this turn's `Traffic` |
| OpenAI.Service.Concluded | src/services/llms/openai.service.ts:292-304 | the value returned at each exit is `Resolution` of the scripted replies |
| OpenAI.Service.ResolveWithLLM | src/services/llms/openai.service.ts:237-305 | requests the vendor exactly as `Conversed` says (problem first, one exact tool turn between requests whose tool payloads are the server's answers at their positions in its log, same manifest, `Requests(replies)` of them); the server receives exactly one `listTools` and then the routed requests of each tool turn; returns `Resolution(replies)` |
| Anthropic.RequestsTools | src/services/llms/anthropic.service.ts:132 | a reply asks for tools exactly when `stop_reason` is `tool_use` and `content` is present; an empty array is truthy (the same test at line 147) |
| Anthropic.FollowsShape | src/services/llms/anthropic.service.ts:133-138 | after a tool turn the transcript keeps everything before, then the assistant message with the reply's content, then one `tool_result` per `tool_use` block, in order, with that block's id |
| Anthropic.ExtractResult | src/services/llms/anthropic.service.ts:118-122 | the result is the first block's text when that block is a text block (even an empty one), otherwise `Problema procesado exitosamente` |
| Anthropic.ReplyTo | src/services/llms/anthropic.service.ts:252-306 | one block's tool result and server requests: none for a block that is not `tool_use`; otherwise the unguarded routed action and its settled result; `Service.Answer` is proved to do exactly this |
| Anthropic.Replies | src/services/llms/anthropic.service.ts:250-307 | the messages and server requests of a whole turn, block after block; `RepliesAnswer` and `RepliesTraffic` prove what they contain |
| Anthropic.RepliesAnswer | src/services/llms/anthropic.service.ts:250-252 | every `tool_use` block gets exactly one tool-result message with its id, in block order; other blocks get none |
| Anthropic.RepliesTraffic | src/services/llms/anthropic.service.ts:267-295 | the server sees one routed request per `tool_use` block, in order, whatever it answers |
| Anthropic.RepliesStep | src/services/llms/anthropic.service.ts:250-307 | answering one more block appends its own tool result and server requests after those of the blocks before it |
| Anthropic.TurnsTraffic | src/services/llms/anthropic.service.ts:132-158 | the server requests of successive tool turns, each turn's being `Traffic` of its reply's blocks; `ResolveWithLLM` is proved to send exactly `[List]` followed by these |
| Anthropic.TurnsStep | src/services/llms/anthropic.service.ts:147-158 | one more tool turn appends its own requests behind those of the turns before |
| Anthropic.Requests | src/services/llms/anthropic.service.ts:128-164 | the number of requests the nested `if`s make for the scripted replies; `RequestsRun` characterises it |
| Anthropic.Resolution | src/services/llms/anthropic.service.ts:128-177 | the value the adapter returns: the extracted text of the last requested reply, or the vendor's error once the script is exhausted |
| Anthropic.RequestsRun | src/services/llms/anthropic.service.ts:128-164 | the number of requests is one more than the leading run of `tool_use` replies with content, capped at three |
| Anthropic.Follows | src/services/llms/anthropic.service.ts:133-138 | one tool turn: the transcript grows by exactly the assistant message with the reply's content, then `Replies` of its blocks with the server's calls numbered from a given position in its log; only a reply that stops for tool use has one |
| Anthropic.Conversed | src/services/llms/anthropic.service.ts:124-164 | the requests of one resolution: `Requests(replies)` of them, the first carrying only the problem, all with the same manifest, and each later one the previous transcript extended by the previous reply's tool turn (`Follows`), the turns' server calls numbered on from one another |
| Anthropic.Resolved | src/services/llms/anthropic.service.ts:124-178 | what one resolution leaves behind: the result `Resolution(pending)`, the requests `Conversed` says, the first offering the manifest built from the server's catalog, and the server log grown by one `listTools` and then each tool turn's requests |
| Anthropic.Extended | src/services/llms/anthropic.service.ts:133-141 | a tool turn followed by a new request keeps the conversation's shape |
| Anthropic.Closed | src/services/llms/anthropic.service.ts:128-177 | requests that stop where the nested `if`s stop are exactly the resolution's conversation |
| Anthropic.NoToolsSingleRequest | src/services/llms/anthropic.service.ts:132 | a first reply that does not stop for `tool_use`, or has no content, means exactly one request and its extracted text |
| Anthropic.CapAtThree | src/services/llms/anthropic.service.ts:147-164 | after three requests the result is taken from the third reply whatever its stop reason |
| Anthropic.Service.Ping | src/services/llms/anthropic.service.ts:38-51 | the probe's `alive` flag is the endpoint's reachability |
| Anthropic.Service.ProcessToolCalls | src/services/llms/anthropic.service.ts:245-309 | the transcript grows by exactly `Replies(blocks)` and the server log by the blocks' routed requests, with no missing-parameter guard |
| Anthropic.Service.AnswerNext | src/services/llms/anthropic.service.ts:250-307 | one pass of the `for` loop extends the replies to the first i blocks by the i-th block's |
| Anthropic.Service.Answer | src/services/llms/anthropic.service.ts:252-306 | a `tool_use` block is routed and answered by exactly one tool-result message with its id; any other block pushes nothing and sends nothing |
| Anthropic.Service.Round | src/services/llms/anthropic.service.ts:133-138 | the transcript grows by exactly the assistant message with the reply's content followed by `Replies` of its `tool_use` blocks, whose payloads are the server's answers to the routed requests (`Follows`); the server receives exactly those requests |
| Anthropic.Service.FollowUp | src/services/llms/anthropic.service.ts:150-158 | a tool turn exactly as `Follows` says, payloads included, then a new request with the whole extended transcript and the unchanged manifest; the server log grows by exactly this turn's `Traffic` |
| Anthropic.Service.Concluded | src/services/llms/anthropic.service.ts:162-177 | the value returned at each exit is `Resolution` of the scripted replies |
| Anthropic.Service.ResolveWithLLM | src/services/llms/anthropic.service.ts:124-178 | requests exactly as `Conversed` says, tool payloads included (at most three); the server receives one `listTools` and then the routed requests of each tool turn; returns `Resolution(replies)` |
| Problema.PrioritiesOfJoin | src/modules/problema/problema.service.ts:20 | comma-free, already trimmed names joined with commas parse back to the same names in the same order |
| Problema.PrioritiesClean | src/modules/problema/problema.service.ts:20 | every parsed entry is comma-free and has no whitespace at either end |
| Problema.Configured | src/modules/problema/problema.service.ts:16-19 | `!llmPriority` is false: the setting is present and not the empty string; `Resolve` fails with the prefixed `LLM_PRIORITY no está configurado` exactly when it is not |
| Problema.TrimAll | src/modules/problema/problema.service.ts:20 | `.map(p => p.trim())`: one entry per piece, each the trimmed piece |
| Problema.Priorities | src/modules/problema/problema.service.ts:20 | `split(',').map(p => p.trim())`; `PrioritiesOfJoin` and `PrioritiesClean` characterise it |
| Problema.Lookup | src/modules/problema/problema.service.ts:22-28 | only `openai` and `anthropic` denote a provider, each its own; this is the corrected lookup of "## Findings": an inherited name such as `toString` denotes nothing, where the code throws |
| Problema.KnownConcat | src/modules/problema/problema.service.ts:27 | the known providers of a concatenation are those of each part, in order |
| Problema.KnownSkips | src/modules/problema/problema.service.ts:27-28 | an unknown or empty entry is skipped without trace wherever it stands |
| Problema.Known | src/modules/problema/problema.service.ts:27-28 | the providers the entries denote, in entry order, duplicates kept and unknown entries skipped; `KnownConcat` and `KnownSkips` characterise it |
| Problema.FirstAlive | src/modules/problema/problema.service.ts:27-32 | the chosen provider is among the known ones and alive; no provider is chosen only when every known one is dead |
| Problema.Probes | src/modules/problema/problema.service.ts:27-30 | the providers pinged: the known ones up to and including the first alive one; `ProbesShape` characterises it |
| Problema.ProbesShape | src/modules/problema/problema.service.ts:27-32 | the probes are a prefix of the known providers; all but the last are dead; the last is alive iff one is chosen, and is then the chosen one; with none chosen, every known provider was probed |
| Problema.ProbeNext | src/modules/problema/problema.service.ts:27-32 | after only dead probes, the next known provider is probed and chosen iff it is alive |
| Problema.Prefixed | src/modules/problema/problema.service.ts:31 | once a live provider is found, no later entry is probed or chosen |
| Problema.DeadPrefix | src/modules/problema/problema.service.ts:27-34 | providers found dead at the front are probed one by one and change neither the choice nor the probes among the rest |
| Problema.DuplicatesProbedAgain | src/modules/problema/problema.service.ts:27-29 | for every setting `a, name, b, name, c` in which `name`'s provider is dead and no provider of `a` or `b` is alive, that provider is probed at both occurrences: the probes are those of `a`, it, those of `b`, it again, then the probes of `c` (there is no deduplication) |
| Problema.ScanStep | src/modules/problema/problema.service.ts:27-33 | one iteration after only dead providers: an unknown entry adds nothing; a known one is probed next, and is then either the first live provider of the whole setting, with the probes ending at it, or dead, so the scan goes on |
| Problema.ProblemaService.Ping | src/modules/problema/problema.service.ts:29-30 | `services[priority].ping()` reports that provider's liveness, and the probe log records exactly this one ping |
| Problema.ProblemaService.Select | src/modules/problema/problema.service.ts:27-34 | the loop chooses `FirstAlive` of the known providers, and the probe log grows by exactly `Probes` of them: every known provider up to the first live one, in order, and none after it; it follows the corrected lookup of "## Findings", so a `toString` entry is skipped where the code throws |
| Problema.ProblemaService.Delegate | src/modules/problema/problema.service.ts:31 | `resolverProblemaConLLM` of the chosen provider, its result returned as it is: that adapter's `Resolved` (its `Resolution`, vendor conversation, manifest and server log, exactly as its `ResolveWithLLM` states), the other vendor (and a separate other server) untouched |
| Problema.ProblemaService.Resolve | src/modules/problema/problema.service.ts:14-40 | missing or empty setting: prefixed `LLM_PRIORITY no está configurado` with the probe log unchanged; otherwise the probe log grows by exactly `Probes` of the known providers; none alive: prefixed `Todos los servicios LLM están inactivos`, nothing sent; otherwise the chosen adapter's `Resolution`, unprefixed, with its vendor conversation, manifest and server log exactly as that adapter's `ResolveWithLLM` states (`Resolved`), and the other vendor (and a separate other server) untouched; it follows the corrected lookup of "## Findings" |
| Problema.LookupAsWritten | src/modules/problema/problema.service.ts:28 | `services[priority]` also finds the members inherited from `Object.prototype` |
| Problema.SelectAsWritten | src/modules/problema/problema.service.ts:27-31 | the loop as written: an inherited name passes `if (services[priority])` and its `ping` call throws, ending the selection with `services[priority].ping is not a function`; `AsWrittenAgrees` and `InheritedNameCrashes` relate it to the corrected loop |
| Problema.AsWrittenAgrees | src/modules/problema/problema.service.ts:27-34 | on settings without inherited names, the loop as written chooses exactly as the corrected lookup |
| Problema.InheritedNameCrashes | src/modules/problema/problema.service.ts:27-38 | `toString,openai` with OpenAI alive: the corrected lookup chooses OpenAI, while the code as written throws before probing it |

## Left out

- The vendor SDK calls (`chat.completions.create`, `messages.create`,
  `models.list`) are network I/O. They become the scripted `Llm.Vendor` and a
  fixed `reachable` flag per adapter. The model name, `max_tokens` and
  `tool_choice` are not modelled.
- `ping`'s latency (`Date.now()`) and its error text are wall-clock and vendor
  detail. Only `alive` is kept.
- Liveness does not change within one resolution: every probe of a provider
  reports the same `alive`. A provider listed twice that is dead on its first
  probe and alive on a later one is not modelled.
- The MCP transport and `mcp-client.service.ts` are not part of this model.
  `listTools`, `readResource` and `callTool` are answered by the `Mcp.Client`
  oracle.
- `decode` from `@toon-format/toon`, `JSON.parse` and `JSON.stringify` are
  foreign library code:
  - a resource read's outcome is the already decoded value;
  - an OpenAI call's arguments are given as parsed, or as a parse-error message;
  - a tool message carries the result value rather than its JSON text.
  A `JSON.stringify` that throws (cyclic or BigInt results) is not modelled.
- The prompt text of `createInitialMessage` is a constant with no behaviour.
  The first message is modelled as `User(problem)`.
- The vendor-specific shape of a manifest entry (OpenAI's
  `{type: 'function', function: {...}}`, Anthropic's `input_schema`) is not
  distinguished. Both adapters send the same `Mcp.Tool` list.
- Logging, NestJS wiring, the controller and the configuration validation are
  plumbing with no decisions in them.
- Concurrency across HTTP requests is not modelled. Each resolution runs
  sequentially.
- Js.Value numbers are integers. The values involved arrive as decoded JSON,
  which cannot carry NaN, and no decision depends on a fraction; the only
  falsy number is then `0`.
- Anthropic.Service.Round: the assistant message it appends carries the
  reply's content only as far as `Anthropic.Block` keeps it: the `text` of a
  text block, the `id`, `name` and `input` of a `tool_use` block, and nothing
  of any other block type. The code passes the remaining fields through
  unchanged and no decision depends on them.

## Findings

| source | as written | input that shows it | evidently intended | confidence | as-written member | corrected member |
|---|---|---|---|---|---|---|
| src/modules/problema/problema.service.ts:22-29 | `services[priority]` on a plain object literal also finds inherited `Object.prototype` members (`toString`, `constructor`, `__proto__`, `valueOf`, ...). They are truthy, so `services[priority].ping()` throws a TypeError and the request fails with `Error al resolver problema: services[priority].ping is not a function` | `LLM_PRIORITY=toString,openai` with OpenAI alive | unknown names are skipped, so OpenAI is chosen | not executed | Problema.SelectAsWritten, Problema.InheritedNameCrashes | Problema.ProblemaService.Select, Problema.AsWrittenAgrees |
