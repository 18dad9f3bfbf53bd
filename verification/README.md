# AI coding IDE backend: failover, code extraction and the project store

This project models, in Dafny, the server of a collaborative AI-assisted
coding IDE (`server/server.js`). It proves properties of that model. The
server keeps projects and their files in two SQLite tables. It serves
WebSocket clients that edit files, chat with an AI assistant and receive
each other's edits. It has one HTTP route that reads a file.

The modules follow the structure of the program:

- `Failover` (failover.dfy) models `callAI`:
  - the four providers are sorted stably by their index in the session's
    failover order;
  - providers without a non-empty key are skipped;
  - each remaining provider gets up to `maxRetries` attempts, with a backoff
    of `2^attempt` seconds after a 429 or 5xx;
  - a bare 401 abandons the provider, and any other failure retries at once;
  - the first success returns; when every provider fails, the fixed sentinel
    is returned.

  The network is a parameter `respond(messages, provider, attempt)`, and
  waits are recorded as durations. `CallAISpec` is the function that
  specifies the two nested loops, and the method `CallAI` runs those loops
  and is proved equal to it.
- `FailoverProperties` proves what `callAI` promises about its trace:
  - only keyed providers are called, in the sorted order;
  - it fails over: every keyed provider gets all its attempts unless it or a
    provider sorted before it answered;
  - each provider is called at most `maxRetries` times, and never again
    after a bare 401;
  - it returns at the first success, and returns the sentinel exactly when
    every call failed;
  - it waits exactly after transient failures.

  It also replays the failover scenario of `tests/test_failover.js`.
- `CodeFence` (code_fence.dfy) models the regular expression
  ``/```(\w*)\n([\s\S]*?)\n```/`` as an explicit leftmost, shortest-body
  match. It proves the extraction is that match and inverts fencing.
- `FileStore` (file_store.dfy) models the two tables:
  - a `files` map keyed by (project, path) holding content, version and
    language;
  - a `projects` map of unique names, with the `AUTOINCREMENT` counter.

  Every statement a handler runs is a function on these maps. The `Store`
  class applies those functions in place.
- `Sessions` (sessions.dfy) models the per-connection maps `clientSettings`
  and `clientCurrentProject`.
- `Broadcast` (broadcast.dfy) models the messages sent, and one outbox per
  connection. `ws.send` appends to one outbox. The `wss.clients.forEach`
  loop appends to every open connection's outbox.
- `Chat` (chat.dfy) specifies the `chat` request:
  - the key gate;
  - the conversation sent to `callAI`;
  - the one optional auto-argue round about Python code;
  - the auto-apply condition.
- `Server` (server.dfy) has one method per request type. Each method is
  proved against the functions above: what it changes in the store, the
  sessions and the outboxes, and nothing else.

## Model

| member | source | states |
|---|---|---|
| Failover.IndexOf | server/server.js:83 | `indexOf` is -1 exactly when the name is absent; otherwise it is a position holding the name, with no earlier occurrence |
| Failover.InsertSorted | server/server.js:83 | inserting a provider declared before all others into a sorted list keeps the list sorted and adds exactly that provider |
| Failover.SortProvidersSorted | server/server.js:83 | the stable sort returns a permutation of its input that is sorted by (index in failover order, declared position) |
| Failover.ProviderOrderSorted | server/server.js:60-83 | the sorted provider list holds each of the four providers exactly once and follows the comparator, with ties in declared order |
| Failover.SortedPermutationUnique | server/server.js:83 | two sorted permutations of the same providers are equal, so the comparator alone fixes the order |
| Failover.SortedDistinct | server/server.js:60-83 | a sorted provider list has no repeated provider |
| Failover.MissingNamesFirst | server/server.js:83 | a provider missing from `failoverOrder` (index -1) is preceded only by other missing providers |
| Failover.TryProvider | server/server.js:90-126 | the attempt loop's calls, waits and reply equal `ProviderAttempts`: the loop stops at a success or a bare 401, backs off after a transient failure and retries at once otherwise |
| Failover.TryInOrder | server/server.js:86-130 | the provider loop skips keyless providers, returns at the first reply, and otherwise returns the sentinel; its result and trace equal `TryProviders` |
| Failover.CallAI | server/server.js:58-131 | the result, calls and waits of `callAI` equal `CallAISpec` for the sorted provider list |
| FailoverProperties.AttemptsConsecutive | server/server.js:90 | one provider's calls are attempts `0, 1, 2, …` in order, at least one and at most `maxRetries` of them |
| FailoverProperties.AttemptsOutcomes | server/server.js:90-125 | every call but the last is a failure that is retried; there is a reply exactly when the last call succeeded, and the reply is that call's answer; stopping before `maxRetries` calls without a reply happens only after a bare 401 |
| FailoverProperties.AttemptsWaits | server/server.js:116-120 | for one provider, the waits are `2^attempt * 1000` ms after each transient failure and after nothing else |
| FailoverProperties.UnauthorizedEndsAttempts | server/server.js:121-123 | after a bare 401 on some attempt, that provider is not called again |
| FailoverProperties.AttemptsExhaust | server/server.js:90-125 | an attempt loop that ends without a reply has made every attempt below `maxRetries`, except those after a bare 401 |
| FailoverProperties.RunReachesKeyed | server/server.js:86-130 | the provider loop moves on: a keyed provider gets every attempt (up to a bare 401) unless the run was answered by it or by a provider listed before it |
| FailoverProperties.RunCallsKeyed | server/server.js:86-130 | only providers with a non-empty key are called, never at attempt `maxRetries` or later; and every keyed provider gets all its attempts (up to a bare 401) unless it or a provider listed before it answered |
| FailoverProperties.RunFollowsOrder | server/server.js:86-90 | calls follow the sorted list: calls to one provider have increasing attempt numbers, and a call to another provider comes later only if that provider sorts after |
| FailoverProperties.RunResult | server/server.js:110-130 | every call but the last failed; the result is the sentinel exactly when every call failed; otherwise the result is built from the last call's answer |
| FailoverProperties.RunWaits | server/server.js:116-119 | the waits of the whole run are the backoffs of its transient failures, in call order |
| FailoverProperties.RunRetries | server/server.js:86-126 | with each provider listed once, no provider is called more than `maxRetries` times, nor again after a bare 401 |
| FailoverProperties.CallAICallsKeyed | server/server.js:83-130 | `callAI` calls only keyed providers, below `maxRetries`, in the order of the sort by failover order; every keyed provider gets all its attempts (up to a bare 401) unless it or a provider sorted before it answered; the sentinel comes back only after every keyed provider was exhausted |
| FailoverProperties.CallAIReachesKeyed | server/server.js:83-130 | for one keyed provider: it was exhausted, or the answer came from it or from a provider sorted before it |
| FailoverProperties.CallAIRetries | server/server.js:90-123 | `callAI` calls each provider at most `maxRetries` times, and never again after a bare 401 |
| FailoverProperties.CallAIResult | server/server.js:99-130 | `callAI` returns at the first success with that answer, returns the sentinel exactly when all calls failed, and waits only after transient failures |
| FailoverProperties.NoKeysNoCalls | server/server.js:87-130 | with no non-empty provider key, nothing is called and the sentinel comes back |
| FailoverProperties.SucceededIsNotSentinel | server/server.js:110-130 | no successful answer equals the "all failed" sentinel |
| FailoverProperties.ScenarioProviderOrder | server/server.js:83 | with order `["xAI","OpenAI"]`, the sorted list is Anthropic, OpenRouter, xAI, OpenAI |
| FailoverProperties.FailoverScenario | tests/test_failover.js:29-34 | keys for xAI and OpenAI only, and xAI always rate-limited: xAI is tried three times with waits of 1, 2 and 4 s, then OpenAI answers "ok" |
| CodeFence.ExtractCodeBlock | server/server.js:102-103 | no block exactly when the text has no fenced match; otherwise the block is the leftmost match with the shortest body: capture 2 as content, capture 1 (or "plaintext" when empty) as language |
| CodeFence.LeftmostShortestUnique | server/server.js:102 | a text has at most one leftmost, shortest-body match |
| CodeFence.ExtractIsLeftmostShortest | server/server.js:102-103 | whenever a leftmost, shortest-body match exists, extraction returns exactly it |
| CodeFence.ExtractFenced | server/server.js:102-103 | round trip: a reply that starts with a fenced block yields that body and tag, whatever follows |
| FileStore.InferLanguage | server/server.js:192 | "javascript", "python" and "css" exactly for `.js`, `.py` and `.css` paths, "plaintext" otherwise |
| FileStore.LanguageOfExtension | server/server.js:192 | the language depends only on the extension |
| FileStore.Renamed | server/server.js:308 | the row moves from the old key to the new key, and every other row is unchanged |
| FileStore.ExportOf | server/server.js:335-336 | the export holds exactly the selected project's paths, each mapped to its content |
| FileStore.Snapshot | server/server.js:175-180 | the `init` payload holds exactly the project's paths, each mapped to its row |
| FileStore.Store.constructor | server/server.js:23-41 | both tables start empty, as in a fresh database file, with the id counter at 0 |
| FileStore.Store.Write | server/server.js:189-195 | `INSERT OR REPLACE` of the row with the next version and the kept or given language; the patch is taken against the old content or '' |
| FileStore.Store.CreateEntry | server/server.js:292-293 | a new empty row at version 1 with the inferred language; an existing key violates `UNIQUE` and nothing changes |
| FileStore.Store.Rename | server/server.js:306-308 | only the exact key moves; a missing row changes nothing; an occupied target violates `UNIQUE` and nothing changes |
| FileStore.Store.DeletePrefix | server/server.js:322 | removes exactly the project's rows whose path starts with the prefix |
| FileStore.Store.CreateProject | server/server.js:154-158 | a taken name changes nothing; otherwise the project gets id last+1, and `/index.js` is inserted unless that key is already taken |
| FileStore.ReadFile | server/server.js:349-357 | a missing, unparsable or zero project id gives 400 with the fixed error; an absent row reads as empty content, version 0, language plaintext; a present row gives its content, version and language |
| FileStore.ReadAfterWrite | server/server.js:349-357 | `GET /file` right after a write returns the written content, the next version and the language |
| FileStore.WriteLeavesOthers | server/server.js:349-357 | a write changes what no other key reads |
| FileStore.SuccessiveWrites | server/server.js:189-195 | two writes to a new file give versions 1 and 2, patch first against '' and then against the first content, and keep the inferred language |
| FileStore.DeleteRemovesExtensions | server/server.js:322 | `path%` removes every path extending the prefix, and no row of another project |
| FileStore.DeleteSibling | server/server.js:322 | deleting `/a` also removes `/ab` and `/a/x`, but not `/b` |
| FileStore.RenameIsExact | server/server.js:308 | renaming a folder's own row does not move the rows under it |
| FileStore.ExportAfterWrite | server/server.js:335-338 | an export right after a write holds the written content |
| FileStore.CreateWriteReadBack | tests/test_server_integration.js:38-53 | after creating and then writing `/hello.py`, export and `GET /file` return the content, with version 2 and language python |
| Sessions.Registry.constructor | server/server.js:44-45 | no settings and no project for any connection |
| Sessions.Registry.SelectedProject | server/server.js:143 | a project is selected exactly when the connection has a non-zero entry |
| Sessions.Registry.SetSettings | server/server.js:146 | the connection's settings object is replaced; nothing else changes |
| Sessions.Registry.SelectProject | server/server.js:156 | the connection's current project is set; a non-zero id is then selected |
| Sessions.Registry.Forget | server/server.js:343-344 | both entries of the closing connection go, and other connections keep theirs |
| Broadcast.Sent | server/server.js:148 | `ws.send` appends to exactly one outbox |
| Broadcast.Fanout | server/server.js:198-202 | one copy of the message is appended to each listed connection, and every other outbox is untouched |
| Broadcast.Hub.constructor | server/server.js:12 | no connections and no messages |
| Broadcast.Hub.Connect | server/server.js:133 | a new connection is open with an empty outbox |
| Broadcast.Hub.Disconnect | server/server.js:342 | a closed connection gets no more broadcasts and keeps what it received |
| Broadcast.Hub.Send | server/server.js:148 | one message is appended to one connection's outbox |
| Broadcast.Hub.Broadcast | server/server.js:198-202 | the `forEach` loop appends the message once to every open connection's outbox and to no other outbox |
| Chat.JoinContains | server/server.js:237 | every joined element occurs in the joined text |
| Chat.PromptQuotesIssues | server/server.js:237 | every validator issue is quoted in the auto-argue prompt |
| Chat.ArguesAtMostOnce | server/server.js:223-253 | one reply without auto-argue and two with it, arguing exactly under the condition of lines 234-236; the first reply is the first answer |
| Chat.ArgueRound | server/server.js:240-251 | the argued conversation is the original plus the previous answer plus the issues prompt; `callAI` runs once more; the reply carries the "[Auto-argued] " prefix and the new code block replaces the old one |
| Chat.NoArgueWithoutPython | server/server.js:234-236 | without a Python block, with auto-argue off, or with no issues, only the first reply is sent |
| Chat.GateCoversProviders | server/server.js:204-209 | when the chat gate rejects a key set, no provider has a key in it |
| Chat.ModelNameAloneCallsNothing | server/server.js:204-209 | settings whose only non-empty entry is `openrouterModel` pass the gate, and then `callAI` calls nothing and returns the sentinel |
| Server.Server.constructor | server/server.js:10-45 | empty tables (a fresh database file) with the id counter at 0, no sessions and no outboxes |
| Server.Server.OnConnect | server/server.js:133 | the connection is open and has received nothing |
| Server.Server.OnSetSettings | server/server.js:145-148 | settings replaced, `settingsSet` sent to the requester |
| Server.Server.OnListProjects | server/server.js:149-151 | every project's id and name sent to the requester |
| Server.Server.OnCreateProject | server/server.js:152-169 | a duplicate name gives an error and changes nothing, the id counter included; otherwise the project gets id counter+1, the counter moves to it, and the project is selected; then either `projectCreated` and `init` are sent, or the constraint error is sent when `/index.js` already exists |
| Server.Server.OnLoadProject | server/server.js:170-182 | a falsy id gives an error and no change; otherwise the project is selected and its rows are sent in `init` |
| Server.Server.WriteAndAnnounce | server/server.js:189-202 | the row is written, and every open connection receives the patch against the old content, with the stored language |
| Server.Server.OnUpdate | server/server.js:183-202 | no project: an error and no change; otherwise the write and its diff broadcast |
| Server.Server.OnApplyCode | server/server.js:270-285 | the same write and broadcast when project, path and content are all non-empty; otherwise nothing at all |
| Server.Server.Answer | server/server.js:223-253 | the replies sent, the final code block, and the calls and waits are exactly those of `Converse` |
| Server.Server.ChatInProject | server/server.js:215-269 | the conversation over the project's files; then, if auto-apply holds, the final block is written with its own language and the diff is broadcast |
| Server.Server.OnChat | server/server.js:203-269 | without settings or any non-empty key: the fixed reply and no call; without a project: an error and no call; otherwise `ChatInProject` |
| Server.Server.OnCreateEntry | server/server.js:286-299 | no project: an error naming the request type; a new key: an empty row and a broadcast; an existing key: no change and nothing sent |
| Server.Server.OnRename | server/server.js:300-315 | no project: an error; a missing row: no change but the event is still broadcast; an occupied target: nothing; otherwise the move and the broadcast |
| Server.Server.OnDelete | server/server.js:316-328 | no project: an error; otherwise the prefix delete and its broadcast |
| Server.Server.OnExport | server/server.js:329-338 | no project: an error; otherwise path-to-content of the project, sent to the requester only |
| Server.Server.OnClose | server/server.js:342-346 | the session is forgotten and the connection gets no more broadcasts |

## Left out

- Logging is not modelled: `logEvent`, the `logs` table, the replay of recent logs on connect, `console.log`, and the `log` and `chatStatus` messages.
- Concurrency is not modelled. Each request runs to completion; in the source, the `await`s of `chat` can interleave with other requests.
- The OpenAI client, model names, HTTP headers and the parsing of rate-limit headers are replaced by the `respond` parameter. Its answer carries the two optional rate-limit fields. A response with null content is not modelled.
- Timers are not modelled: a backoff is recorded as its duration in milliseconds.
- `jsdiff.createPatch` is kept as its three arguments (`Patch`); the unified-diff text is not modelled.
- `validatePythonCode` (a Python subprocess) is a function parameter from code to issues.
- The system prompt is kept as the project's path-to-content map, not as the joined text of lines 216-220. Maps do not record an order: the system prompt's row order (unspecified by `SELECT`) is dropped, and so is the by-name order of the `listProjects` reply (`ORDER BY name`), which the model sends as an id-to-name map.
- SQLite itself is not modelled. `LIKE` is read as a case-sensitive plain prefix, so `%` and `_` inside the path are not wildcards. Foreign-key enforcement is not modelled, so rows may name a project that has no row.
- An exception the source does not catch is modelled as "no change, nothing sent": a `UNIQUE` violation in `createFile`/`createFolder` and in `rename`. `Server.Server.OnCreateProject`'s index-clash branch can only occur because rows may name a nonexistent project.
- Server.Server.OnCreateProject: the `init` reply carries each row's language too, where the source's reply after `createProject` lists content and version only.
- The `export` reply wraps each content in an object `{ content }`; the model maps each path to the content itself.
- Requests are modelled only on open connections (`ws in hub.open`); the source receives messages only on a live socket.
- JSON parsing is not modelled; missing string fields of a request are taken as empty strings. Settings always hold an `apiKeys` map and a `failoverOrder` list: settings sent without them make the source throw (`Object.values(undefined)` at line 205, `undefined.indexOf` at line 83), which the model does not capture.
- Persistence is not modelled: `logs.db` is opened with `CREATE TABLE IF NOT EXISTS`, so a restarted server keeps its earlier projects and files; the model starts from a fresh database file. `parseInt(projectId)` is an `Option<int>` whose `None` stands for `NaN`. `URL` decoding of the path is not modelled.
- The HTTP route `GET /file/:path` is the pure function `FileStore.ReadFile`; `ReadAfterWrite` and `WriteLeavesOthers` relate it to writes. Express, `listen` and the JSON responses are not modelled.
