# CrazyIT AI routing core, modelled in Dafny

CrazyIT is a Bulgarian-language coding assistant. It answers chat messages with
models served by a local Ollama runtime. Three back-ends decide which model
answers, what prompt the model sees, and what the caller gets back:

- **The orchestrating route** (`POST /api/ai/orchestrate`):
  - It tags the last message as coding, math, reasoning, creative, quick or general, using keyword patterns and the message length.
  - It scores every model the runtime reports against a fixed profile table, with three points per matched tag, half the model's quality, and two more for a fast model on a quick query.
  - It stably sorts the models by score and takes the best two.
  - It then makes one call or, in `ensemble` mode, one call per selected model plus a synthesis call that merges the two answers.
- **The socket chat service** (`mini-services/ai-service`):
  - It keeps three models whose online/offline status follows the runtime's installed list.
  - It routes each message to a reasoning, web or helper model by keywords, with a fallback to the first online model.
  - It replays the last 8 history entries of the session and records the turn.
  - It keeps running statistics, including a mean over the last 50 response times.
  - Six code-helper events make one call each.
- **The single-call route** (`POST /api/ai`): the system prompt, the last six history entries and the message go to one model (default `phi3:mini`), with a placeholder for an empty answer and the processing time in milliseconds.

Files:
- `common.dfy`: option and result types, the runtime's reply, and the JavaScript idioms the back-ends use:
  - `s || fallback`;
  - `slice(-n)`;
  - `Math.round(a / b)`;
  - `[...new Set(s)]`.
- `orchestrate.dfy`: the orchestrating route.
- `keywords.dfy`: its keyword patterns, as written and as evidently intended.
- `ai_service.dfy`: the socket service, as a class `Service`. Its fields are the model list, the session map and the statistics.
- `ai_route.dfy`: the single-call route.

The runtime is a function parameter `chat` in every back-end. It maps a model name and messages to a `Reply`: either `Unreachable` (the fetch rejects, including a timeout), or a status with a body that does or does not parse as JSON. Clocks and generated ids are parameters too. The orchestrator returns the list of runtime calls it issued, in order, next to its answer.

Behaviour of the code that is easy to miss, which the model follows:
- **Short queries with no keyword.** They are tagged `[quick]` only, not `{general, quick}`, because the `general` fallback runs after `quick` has been pushed (`Orchestrate.ShortUnmatchedIsQuick`).
- **Failures in ensemble mode.** Any call that rejects, whether a selected model or the synthesis, rejects the whole request (`Promise.all`, and no catch in the route). A failed secondary or synthesis is not absorbed.
- **Status codes in the orchestrator.** Its `callModel` never looks at the HTTP status. A non-success reply with a JSON body yields its `message.content`, or the empty answer when that is missing or empty (`Orchestrate.CallModel`).
- **Empty model list.** When the runtime reports no models, the primary is `undefined`, not a configured default (`Orchestrate.SelectModels`).
- **The `|| models[0]` fallback** in `selectModels` never changes the primary (`Orchestrate.SelectPrimary`).

## Model

| member | source | states |
|---|---|---|
| Common.RoundDiv | crezyit-main/mini-services/ai-service/index.ts:95 | `Math.round(a / b)` for positive b: the result is within one half of a/b, with halves going up |
| Common.RoundDivUnique | crezyit-main/src/app/api/ai/route.ts:36 | that rounding is the only integer within one half of a/b, so the millisecond and average conversions are determined |
| Common.LastN | crezyit-main/src/app/api/ai/route.ts:12 | `slice(-n)` keeps the last min(n, length) elements, as a suffix |
| Common.LastNAppend | crezyit-main/mini-services/ai-service/index.ts:94 | trimming to the last n before or after an append gives the same window |
| Common.Dedup | crezyit-main/src/app/api/ai/orchestrate/route.ts:22 | `[...new Set(s)]` has no repeats, has exactly the elements of s, lists them in order of first occurrence in s, and is no longer than s |
| Common.DedupNoDup | crezyit-main/src/app/api/ai/orchestrate/route.ts:22 | deduplicating a repetition-free list returns it unchanged |
| Orchestrate.ProfileOf | crezyit-main/src/app/api/ai/orchestrate/route.ts:5-12 | exactly the six profiled ids have a profile, and every quality is at least 5 |
| Orchestrate.JsLength | crezyit-main/src/app/api/ai/orchestrate/route.ts:20 | `q.length` counts UTF-16 units: between the number of characters and twice that, and equal to it iff no character lies outside the Basic Multilingual Plane |
| Orchestrate.RuleTagsMembers | crezyit-main/src/app/api/ai/orchestrate/route.ts:16-21 | before deduplication, each tag is present iff its rule fires, and the list is empty iff no keyword matches and the query has 50 or more UTF-16 units |
| Orchestrate.DetectType | crezyit-main/src/app/api/ai/orchestrate/route.ts:14-23 | the tags are non-empty and distinct. Coding, math, creative and quick are present iff their test holds. Reasoning is present iff the math or the analysis pattern matches. General is present iff nothing else fired |
| Orchestrate.DetectTypeExact | crezyit-main/src/app/api/ai/orchestrate/route.ts:14-23 | the result equals the rule order with the repeated reasoning dropped and `[general]` for an empty list |
| Orchestrate.ShortUnmatchedIsQuick | crezyit-main/src/app/api/ai/orchestrate/route.ts:20-21 | a query with no keyword and under 50 units is tagged `[quick]` alone |
| Orchestrate.LongUnmatchedIsGeneral | crezyit-main/src/app/api/ai/orchestrate/route.ts:20-21 | a query with no keyword and 50 or more units is tagged `[general]` alone |
| Orchestrate.Score | crezyit-main/src/app/api/ai/orchestrate/route.ts:26-31 | twice the source's score: an id without a profile scores 0 and a profiled one at least 5 |
| Orchestrate.MatchPointsCount | crezyit-main/src/app/api/ai/orchestrate/route.ts:29 | on distinct tags the reduce adds 3 (doubled: 6) per query tag among the model's strengths |
| Orchestrate.ScoreOfProfiled | crezyit-main/src/app/api/ai/orchestrate/route.ts:26-31 | for a classified query, the doubled score is 6 per matched tag, plus the quality, plus 4 when the query is short and the model fast |
| Orchestrate.InsertByScore | crezyit-main/src/app/api/ai/orchestrate/route.ts:32 | one insertion step of the sort: the result is the list with the new record added, as a multiset, one longer; the order it keeps is stated by `Orchestrate.InsertRanked` |
| Orchestrate.SortByScore | crezyit-main/src/app/api/ai/orchestrate/route.ts:32 | the sort returns a permutation of its input; its order, descending score with ties in input order, is stated by `Orchestrate.SortRanked` and `Orchestrate.Rank` |
| Orchestrate.InsertRanked | crezyit-main/src/app/api/ai/orchestrate/route.ts:32 | inserting a record that came earlier in the input than every record of a ranked list keeps it ranked: descending score, ties in input order |
| Orchestrate.SortRanked | crezyit-main/src/app/api/ai/orchestrate/route.ts:32 | sorting records listed in input order ranks them: descending score, ties in input order, as the stable sort with `b.score - a.score` does |
| Orchestrate.Rank | crezyit-main/src/app/api/ai/orchestrate/route.ts:26-32 | the sorted list is a permutation of the scored models, ordered by descending score with ties kept in input order |
| Orchestrate.RankedUnique | crezyit-main/src/app/api/ai/orchestrate/route.ts:32 | that order is unique: any two such orderings of the same records are equal, so the selection is deterministic |
| Orchestrate.RankEntries | crezyit-main/src/app/api/ai/orchestrate/route.ts:26-32 | each ranked record is the score of the available id at its position, and every position appears |
| Orchestrate.ProfiledRankedFirst | crezyit-main/src/app/api/ai/orchestrate/route.ts:28-32 | every profiled model is ranked above every model without a profile |
| Orchestrate.SelectModels | crezyit-main/src/app/api/ai/orchestrate/route.ts:33 | the primary is absent iff no model is available. The secondary is present iff at least two are. Both are available ids |
| Orchestrate.SelectPrimary | crezyit-main/src/app/api/ai/orchestrate/route.ts:32-33 | the primary is the top-ranked id even through the `\|\| models[0]` fallback. It has the highest score and beats every model listed before it |
| Orchestrate.SelectSecondary | crezyit-main/src/app/api/ai/orchestrate/route.ts:32-33 | the secondary is the second-ranked id and scores at least as much as every model except the primary |
| Orchestrate.CallModel | crezyit-main/src/app/api/ai/orchestrate/route.ts:36-40 | the call throws iff the fetch rejects or the body is not JSON. Otherwise it returns the content or "", whatever the status |
| Orchestrate.Query | crezyit-main/src/app/api/ai/orchestrate/route.ts:44 | the query is the last message's content, or "" when there are no messages |
| Orchestrate.Targets | crezyit-main/src/app/api/ai/orchestrate/route.ts:56 | `filter(Boolean)` keeps the non-empty selected ids, primary first, at most two |
| Orchestrate.SynthesisMessages | crezyit-main/src/app/api/ai/orchestrate/route.ts:62-63 | the original messages are followed by one assistant message: the header and the two responses, each under its `---model---` label |
| Orchestrate.Collect | crezyit-main/src/app/api/ai/orchestrate/route.ts:57 | `Promise.all` rejects iff some call throws. Otherwise response i is target i with its content |
| Orchestrate.CallAll | crezyit-main/src/app/api/ai/orchestrate/route.ts:57 | issues one call per target, in order, and settles to `Collect` |
| Orchestrate.Orchestrate | crezyit-main/src/app/api/ai/orchestrate/route.ts:42-73 | the answer carries the classification and the selection. Single mode makes one call to the primary. Ensemble mode fans out, then either rejects, answers with the lone response, or appends the synthesis call and answers with its result |
| Keywords.SourceMatchers | crezyit-main/src/app/api/ai/orchestrate/route.ts:16-19 | the tests as written: coding, math, analysis and creation are each `\b(…)\b` over their own keyword list, with ASCII-only word boundaries |
| Keywords.IntendedMatchers | crezyit-main/src/app/api/ai/orchestrate/route.ts:16-19 | the tests as intended: the same four lists, with word boundaries that count Cyrillic letters as word characters |
| Keywords.NoAsciiNoMatch | crezyit-main/src/app/api/ai/orchestrate/route.ts:16-19 | as written, a query with no ASCII word character matches no keyword pattern |
| Keywords.CyrillicQueryUnclassified | crezyit-main/src/app/api/ai/orchestrate/route.ts:16-21 | as written, an all-Cyrillic query gets `[quick]` or `[general]` by length alone |
| Keywords.CodeRequestMissed | crezyit-main/src/app/api/ai/orchestrate/route.ts:16-19 | as written, "напиши код" is classified `[quick]` |
| Keywords.StandaloneKeywordFound | crezyit-main/src/app/api/ai/orchestrate/route.ts:16-19 | with Cyrillic word characters, every keyword standing as a word of its own is found |
| Keywords.CodeRequestRecognised | crezyit-main/src/app/api/ai/orchestrate/route.ts:16-19 | with Cyrillic word characters, "напиши код" is tagged coding and creative |
| AiService.InitialModels | crezyit-main/mini-services/ai-service/index.ts:24-28 | three models, all offline at start |
| AiService.SystemPrompt | crezyit-main/mini-services/ai-service/index.ts:60 | every type's system prompt introduces the CrazyIT assistant and ends by asking for answers in Bulgarian |
| AiService.SystemPromptsDistinct | crezyit-main/mini-services/ai-service/index.ts:60 | each model type has a prompt of its own: two types share a prompt iff they are the same type |
| AiService.BaseName | crezyit-main/mini-services/ai-service/index.ts:56 | `split(':')[0]` is the colon-free prefix that ends at the first colon or at the end |
| AiService.IsInstalled | crezyit-main/mini-services/ai-service/index.ts:56 | a model is installed iff some installed name starts with its base name |
| AiService.Service.UpdateModelStatus | crezyit-main/mini-services/ai-service/index.ts:54-58 | each model becomes online iff installed and offline otherwise. No other field of any model changes, and the list is returned |
| AiService.ToLower | crezyit-main/mini-services/ai-service/index.ts:63 | lower-casing maps each character on its own (ASCII and Cyrillic capitals, and the Kelvin sign to `k`), and leaves no such capital in the result |
| AiService.ToLowerIdempotent | crezyit-main/mini-services/ai-service/index.ts:63 | lower-casing twice is lower-casing once |
| AiService.Includes | crezyit-main/mini-services/ai-service/index.ts:64-65 | `includes` is true iff the key occurs at some position |
| AiService.IncludesAny | crezyit-main/mini-services/ai-service/index.ts:64-65 | `some(includes)` is true iff some key occurs |
| AiService.SelectModel | crezyit-main/mini-services/ai-service/index.ts:62-67 | reasoning iff a reasoning keyword occurs in the lower-cased message. Web iff no reasoning keyword does but a web keyword does. Helper otherwise |
| AiService.SelectModelIgnoresCase | crezyit-main/mini-services/ai-service/index.ts:62-67 | routing a lower-cased message gives the same type |
| AiService.RequestedType | crezyit-main/mini-services/ai-service/index.ts:79 | a non-empty preference wins. Otherwise the routed type applies |
| AiService.FirstOfType | crezyit-main/mini-services/ai-service/index.ts:80 | `find` by type gives the first index of that type, or none when no model has it |
| AiService.FirstOnline | crezyit-main/mini-services/ai-service/index.ts:81 | `find` by status gives the first online index, or none |
| AiService.Chosen | crezyit-main/mini-services/ai-service/index.ts:80 | `find(m => m.type === type) \|\| AI_MODELS[0]`: the first model of the type when there is one (so it has that type), else the first model of all |
| AiService.ResolveModel | crezyit-main/mini-services/ai-service/index.ts:80-82 | a chosen model that is not offline (busy included) is kept. An offline one is replaced by the first online model. The turn fails iff there is none |
| AiService.Replay | crezyit-main/mini-services/ai-service/index.ts:86 | exactly the user and assistant entries are replayed: a message is in the replay iff it is the `{ role, content }` of such an entry, and there are never more than given |
| AiService.ReplayAppend | crezyit-main/mini-services/ai-service/index.ts:86 | replay distributes over concatenation, so history order is kept |
| AiService.ReplaySingle | crezyit-main/mini-services/ai-service/index.ts:86 | one entry replays as its `{ role, content }` unless it is a system entry; with `ReplayAppend` this fixes the whole replay |
| AiService.BuildPrompt | crezyit-main/mini-services/ai-service/index.ts:84-87 | the prompt is the type's system prompt, then the replay of the last 8 entries, then the user message: 2 to 10 messages |
| AiService.AssemblePrompt | crezyit-main/mini-services/ai-service/index.ts:85-87 | the push loop builds exactly `BuildPrompt` |
| AiService.CallOllama | crezyit-main/mini-services/ai-service/index.ts:71-76 | the call succeeds iff the status is 2xx with a JSON body. A bad status throws with that status, a rejected fetch fails as unavailable, and a 2xx body that is not JSON fails as a bad body. A success is never empty: the content or "Няма отговор." |
| AiService.Push | crezyit-main/mini-services/ai-service/index.ts:94 | the window stays at most 50 long and ends with the new time |
| AiService.PushKeepsRecent | crezyit-main/mini-services/ai-service/index.ts:94 | pushing onto the last 50 of a history gives the last 50 of the extended history |
| AiService.Average | crezyit-main/mini-services/ai-service/index.ts:95 | the mean of the window rounded to the nearest integer, or 0 for an empty window |
| AiService.Bump | crezyit-main/mini-services/ai-service/index.ts:93 | the usage count of the model grows by one from 0 or its old value. All other counts stay |
| AiService.ChatTurn | crezyit-main/mini-services/ai-service/index.ts:78-101 | the turn fails with no-model iff resolution fails, succeeds iff a model is resolved and its runtime call succeeds, and otherwise fails with the runtime call's own error. A successful reply is the call's answer from the resolved, non-offline model, is non-empty, and carries the measured time |
| AiService.RegistryHasType | crezyit-main/mini-services/ai-service/index.ts:119 | whatever the statuses, the registry has a model of every type, so the `!` lookup succeeds |
| AiService.CodeModel | crezyit-main/mini-services/ai-service/index.ts:119 | the code helpers use the first model of the type if it is not offline. Otherwise they use the first online model, or that offline model when none is online |
| AiService.Service.constructor | crezyit-main/mini-services/ai-service/index.ts:31-35 | no sessions, zero counters, empty usage and window, uptime at start |
| AiService.Service.ProcessChat | crezyit-main/mini-services/ai-service/index.ts:78-102 | the reply is `ChatTurn`. A failure changes nothing. A success bumps both counters and the model's usage, pushes the time, recomputes the average, and appends a user entry and an assistant entry to this session only. The window invariant is kept |
| AiService.Service.RecordResponse | crezyit-main/mini-services/ai-service/index.ts:93-95 | the statistics update keeps the window equal to the last 50 times recorded and the average equal to their rounded mean |
| AiService.Service.InitSession | crezyit-main/mini-services/ai-service/index.ts:110 | the session id is the given id, or the generated one when the given id is empty. An empty history is added only for an unknown id. The service invariant is kept |
| AiService.Service.ClearConversation | crezyit-main/mini-services/ai-service/index.ts:112 | exactly that session's history is removed; the service invariant is kept |
| AiService.Service.HandleCode | crezyit-main/mini-services/ai-service/index.ts:117-120 | one call with the type's system prompt and the prompt. It counts a request on success only, never a message |
| AiRoute.ModelOf | crezyit-main/src/app/api/ai/route.ts:8 | the model is the requested one, or `phi3:mini` when it is absent |
| AiRoute.Prompt | crezyit-main/src/app/api/ai/route.ts:10-14 | the prompt is the system prompt, then the last six history entries unchanged, then the user message: 2 to 8 messages |
| AiRoute.PromptSlides | crezyit-main/src/app/api/ai/route.ts:12 | one more history entry slides the six-entry window by one |
| AiRoute.ProcessingTime | crezyit-main/src/app/api/ai/route.ts:36 | an absent or zero duration gives 0. Otherwise the result is nanoseconds divided by 10^6, rounded to the nearest integer |
| AiRoute.Handle | crezyit-main/src/app/api/ai/route.ts:5-40 | an answer comes iff the status is 2xx with a JSON body. A bad request body gives a bad request. A bad status gives `Ollama error` with that status, a rejected fetch gives unavailable, and a 2xx body that is not JSON gives a bad body, each a 500. The answer echoes the model, is never empty, and carries the rounded time |

## Left out

- HTTP, socket.io and process wiring are not modelled: request parsing beyond the fields read, event emission, the `typing` events, CORS, ports, logging and the 5-second `setInterval` broadcast. Each handler is modelled as the state change it makes and the value it returns.
- The orchestrator's `/api/tags` fetch (route.ts lines 46-48) is not modelled. The list of available ids is a parameter. A failure of that fetch, which rejects the request, is not modelled.
- `getInstalledModels`, `getSystemInfo`, `genId` and `Date` are not modelled. The installed names, the generated session id, the elapsed time and the time stamps are parameters. One time stamp serves both history entries of a turn.
- The `get-stats`, `get-system-info` and `refresh-models` events only emit state that is already modelled, or call `UpdateModelStatus`.
- The six code-helper events (index.ts lines 122-127) only build a prompt string from client fields. `HandleCode` takes that prompt as given.
- The GET handler of the orchestrating route returns the profile table unchanged.
- Request options that the runtime interprets are not modelled: `stream`, `temperature`, `num_predict` and the timeouts.
- Interleaving of concurrent events on the same session is not modelled. Each method runs to completion, so the read-then-write race the service allows is not represented. In the service, a `clear-conversation` (index.ts line 112) that arrives while a turn awaits the runtime (line 90) is undone when the turn stores its history (line 99): the session comes back with its old history plus the two new entries. Two overlapping turns can likewise lose one turn's entries.
- The service's `pref` and `sessionId` may be any JSON value. They are modelled as optional strings, and a missing session id is not modelled.
- The single-call route's `message` and `history` entries are passed through unchecked. The model takes them as a string and messages, and omits `null` for `model`, where the default does not apply.
- `AiService.ToLower`: lower-cases ASCII, the Cyrillic capitals U+0400-U+042F and the Kelvin sign U+212A only, one character to one. JavaScript's `toLowerCase` also lowers U+0130 (capital I with dot above) to the two characters `i` and U+0307. So "APİ" reaches the web model in the service but the helper model here, and the lowered string can be longer than its input. No other capital lowers to a character of any keyword. The rest of Unicode case mapping is not modelled.
- `Orchestrate.Score`: ids are taken never to be names of `Object.prototype` properties (`constructor`, `toString`, `__proto__`, ...). `MODEL_PROFILES[m]` is truthy for such an id, so `p.strengths.includes` throws and the orchestrating request rejects. The model instead scores the id 0 and answers. The runtime's model names carry a `:tag`, so such ids do not arise from it.
- The orchestrating POST's request parsing is not modelled. The route has no try/catch, so a non-JSON body (route.ts line 43) or a missing `messages` (line 44) rejects the request. `Orchestrate.Orchestrate` takes the parsed messages and `mode` as parameters.
- `Orchestrate.JsLength` counts characters above U+FFFF as two UTF-16 units. Dafny characters are Unicode scalar values.
- `Orchestrate.Orchestrate`: takes the keyword tests as a `Matchers` value. It is proved for any keyword tests. The route as written uses the patterns of `Keywords.SourceMatchers`; `Keywords.IntendedMatchers` are the corrected ones.

## Findings

| source | as written | input that shows it | evidently intended | confidence | as-written member | corrected member |
|---|---|---|---|---|---|---|
| crezyit-main/src/app/api/ai/orchestrate/route.ts:16-19 | JavaScript's `\b` is an ASCII word boundary: only [A-Za-z0-9_] are word characters. A Cyrillic keyword between spaces or at the ends has no boundary, so `код`, `математика`, `защо`, `напиши` and the rest never match in ordinary text | "напиши код" is classified `[quick]` only | the Cyrillic keywords match as words, so "напиши код" is tagged coding and creative | high; not executed | Keywords.CodeRequestMissed | Keywords.CodeRequestRecognised |
