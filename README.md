# mcp-chat: a Dafny model of the stores and request handlers

mcp-chat is a chat application. A TypeScript worker backend streams model
replies and tool results to a React frontend. This project models the parts
of it that hold state or make decisions, and proves what they promise.

- **The four in-memory stores.**
  - Each store is a module-level record from a user prefix to an array: chats, bots, tool (MCP) servers, integrations.
  - A prefix that is missing or empty means `'default'`.
  - Each record is a `Namespaces.UserTable<T>` object. Every repository object built over it shares it, as the source's module-level record is shared.
  - Each repository is a class whose methods update that table in place.
- **The bot listing.** `getBots` adds the free Gemini bot when no bot has its model. It then stable-sorts so that free-model bots come last. JavaScript's stable `Array.sort` is modelled by a stable insertion sort (`Sorting.SortBy`). That sort is proved ordered, a permutation, and stable for each key.
- **The chat listing.** `listChats` searches case-insensitively through string content, or through `text` blocks joined by spaces. It orders newest first and slices out one page.
- **The tool-server endpoint.** `handleMcpServerRequest` is a function from the request and the namespace's list to a response and a new list. A method runs it against the store through the repository.
- **The two streaming endpoints.**
  - `handleChatCompletions` and `handleToolConfirmation` write to a `StreamWriter` object.
  - Every event is framed as `data: <payload>\n\n`.
  - The turn engine (`ChatService` with its provider and tool manager) is outside this model. What it writes, and whether it throws, are inputs.
  - The tool manager's `executeTool` is a `ToolExecutor` object. It records each call it receives.
- **Shared records and the confirmation gate** from `shared/types/index.ts`.
- **Frontend logic.** The bot list edits in `BotSection.tsx`, and the selected-bot storage key in `Header.tsx`.

Inputs that the source takes from the outside world are parameters:

- `Date.now()`, the ISO timestamp, and the random id tag (`Messages.Clock`);
- the parsed `BOTS` and `MCP_SERVERS` variables (`Namespaces.EnvArray`);
- `parseInt(API_TIMEOUT_MS)`, as an `Option<int>`;
- the id that `generateUniqueId` returns.

Timestamps that the source orders by (`update_time`) are integers in milliseconds.

## Model

| member | source | states |
|---|---|---|
| Namespaces.Namespace | backend/src/repository/memory/chat-memory-repository.ts:10 | a missing or empty prefix selects `'default'`, any other prefix itself; the namespace is never empty |
| Namespaces.ArrayOrEmpty | backend/src/repository/memory/bot-memory-repository.ts:14-25 | an env variable seeds its parsed array; unset, unparsable or non-array gives `[]` |
| Text.Split | backend/src/api/mcp-server.ts:10 | `split('/')` gives at least one part and no part holds the separator |
| Text.JoinSplit | backend/src/api/mcp-server.ts:10 | joining the parts of a split with the separator gives the string back |
| Text.SplitJoin | backend/src/api/mcp-server.ts:10 | splitting the join of separator-free parts gives the parts back |
| Text.LastSegmentIsSuffix | frontend/src/components/Header/Header.tsx:21 | `split('/').pop()` is the separator-free suffix after the last `/`, or the whole string when there is none |
| Text.JoinAppend | backend/src/repository/memory/chat-memory-repository.ts:47 | joining two non-empty part lists is joining each and putting one separator between |
| Text.JoinAt | backend/src/repository/memory/chat-memory-repository.ts:47 | part `k` of a join starts at 0 for the first part, else after the join of the earlier parts and one separator |
| Text.IncludesIff | backend/src/repository/memory/chat-memory-repository.ts:49 | `includes` holds exactly when the needle occurs at some position |
| Text.ToLower | backend/src/repository/memory/chat-memory-repository.ts:41 | lower-casing keeps the length and maps each character, ASCII letters only |
| Text.ToLowerIdempotent | backend/src/repository/memory/chat-memory-repository.ts:41 | lower-casing twice is lower-casing once |
| Text.DecimalString | backend/src/api/chat-completions.ts:103 | the decimal form of `Date.now()` is a non-empty run of digits |
| Text.DecimalStringValue | backend/src/api/chat-completions.ts:103 | the digits of `String(n)` read back as `n`, with no leading zero except for 0 itself |
| Text.DecimalStringInjective | backend/src/api/chat-completions.ts:103 | different clock readings give different decimal texts |
| Lists.IndexOf | backend/src/repository/memory/bot-memory-repository.ts:59 | `findIndex` is -1 exactly when no entry has the key; otherwise the first index with the key |
| Lists.Find | backend/src/repository/memory/chat-memory-repository.ts:21 | `find` is none exactly when no entry has the key; otherwise the first entry with the key |
| Lists.ReplaceFirst | backend/src/repository/memory/bot-memory-repository.ts:58-62 | a missing key fails; otherwise the first entry with the key is replaced at its index, the length and all other entries kept |
| Lists.RemoveFirst | backend/src/repository/memory/bot-memory-repository.ts:64-68 | a missing key fails; otherwise only the first entry with the key is removed, the rest shifted down in order |
| Lists.RemoveFirstCounts | backend/src/repository/memory/bot-memory-repository.ts:64-68 | deleting removes exactly one entry with the key and none with any other key |
| Lists.AppendThenRemove | backend/src/repository/memory/mcp-server-memory-repository.ts:39-53 | appending an entry with a new key and then deleting that key restores the list |
| Lists.JsSlice | backend/src/repository/memory/chat-memory-repository.ts:57 | `slice(start, end)` returns entries of the list, at most `end - start` of them, in order from `start` |
| Sorting.SortBy | backend/src/repository/memory/bot-memory-repository.ts:47-50 | the comparator sort returns a permutation of its input |
| Sorting.SortBySorted | backend/src/repository/memory/bot-memory-repository.ts:47-50 | the sort orders its result by ascending key |
| Sorting.SortByStable | backend/src/repository/memory/bot-memory-repository.ts:47-50 | the sort keeps the input order among entries with equal keys |
| Sorting.SortTwoKeysIsPartition | backend/src/repository/memory/bot-memory-repository.ts:47-50 | sorting a list with two keys a < b gives its a-entries then its b-entries, each in input order |
| SharedTypes.NeedsConfirmation | shared/types/index.ts:79 | a tool must be confirmed exactly when `need_confirm` is present, non-empty and names it |
| SharedTypes.NoListNoConfirmation | shared/types/index.ts:79 | an absent or empty list never asks for confirmation |
| SharedTypes.ConfirmationDependsOnListOnly | shared/types/index.ts:75-80 | the gate depends only on the server's list, not on its name, url or token |
| SharedTypes.BlockTexts | backend/src/repository/memory/chat-memory-repository.ts:47 | the texts of the `text` blocks are no more than the blocks |
| SharedTypes.BlockTextsAppend | backend/src/repository/memory/chat-memory-repository.ts:47 | collecting texts distributes over concatenation, and one block contributes its text exactly when it is typed `text`: the result is the `text` blocks' texts in order |
| SharedTypes.SearchableText | backend/src/repository/memory/chat-memory-repository.ts:44-48 | string content is searched as is; block texts without spaces are exactly the space-separated words of the searched text |
| SharedTypes.BlockTextSearched | backend/src/repository/memory/chat-memory-repository.ts:44-48 | every `text` block's text occurs in the searched text, right after the earlier blocks' texts joined with single spaces and one more space |
| SharedTypes.WellTypedBlocksAllKept | shared/types/index.ts:12-15 | when every block is typed `text`, as declared, the search keeps every block's text in order |
| ChatRepository.MessageMatches | backend/src/repository/memory/chat-memory-repository.ts:43-49 | a message matches exactly when the lower-cased search occurs at some offset of its lower-cased searchable text; so the empty search matches every message, and a search longer than the text matches none |
| Lists.Filter | backend/src/repository/memory/chat-memory-repository.ts:42-51 | `Array.filter`: the result is no longer than the input and every entry passes the predicate |
| Lists.FilterMembers | backend/src/repository/memory/chat-memory-repository.ts:42-51 | a value is in the filtered list exactly when it is in the input and passes |
| Lists.FilterAppend | backend/src/repository/memory/chat-memory-repository.ts:42-51 | filtering distributes over concatenation and keeps a single entry exactly when it passes |
| ChatRepository.FilterChats | backend/src/repository/memory/chat-memory-repository.ts:42-51 | a chat is kept exactly when it is stored and one of its messages matches |
| ChatRepository.FilterChatsAppend | backend/src/repository/memory/chat-memory-repository.ts:42-51 | the filter distributes over concatenation and keeps one chat exactly when it matches, so the stored order and every copy are kept |
| ChatRepository.Matching | backend/src/repository/memory/chat-memory-repository.ts:38-52 | an empty search keeps the list as it is; otherwise the kept chats are exactly the stored chats that match the lower-cased search |
| ChatRepository.NewestFirst | backend/src/repository/memory/chat-memory-repository.ts:56 | the sort is a permutation of the matches, ordered by `update_time` from newest to oldest |
| ChatRepository.ListPage | backend/src/repository/memory/chat-memory-repository.ts:37-59 | `total` counts all matches; `page`/`limit` are echoed; at most `limit` chats; all stored; all matching; newest first |
| ChatRepository.ListPageDefaults | backend/src/repository/memory/chat-memory-repository.ts:38 | no options means search `''`, page 1, limit 10: the ten newest chats of the namespace |
| ChatRepository.ListPageIsWindow | backend/src/repository/memory/chat-memory-repository.ts:53-57 | the page is the newest-first matches from `(page-1)*limit`, as many as remain up to `limit` |
| ChatRepository.EmptySearchCountsAll | backend/src/repository/memory/chat-memory-repository.ts:40 | an empty search keeps every chat, so `total` is the namespace's size |
| ChatRepository.SearchIgnoresCase | backend/src/repository/memory/chat-memory-repository.ts:41 | a search term and its lower-cased form select the same chats |
| ChatRepository.ContainedTermMatches | backend/src/repository/memory/chat-memory-repository.ts:43-49 | a chat with a message containing the term exactly is found by the search |
| ChatRepository.BlockTermMatches | backend/src/repository/memory/chat-memory-repository.ts:43-49 | a chat with a message whose `text` block contains the term exactly is found by the search |
| ChatRepository.ChatMatchesIff | backend/src/repository/memory/chat-memory-repository.ts:41-50 | a chat matches exactly when the lower-cased search occurs in the lower-cased searchable text of one of its messages |
| ChatRepository.ListedChatsContainTerm | backend/src/repository/memory/chat-memory-repository.ts:36-58 | every chat a non-empty search lists has a message whose lower-cased text contains the lower-cased search |
| ChatRepository.NewChat | backend/src/repository/memory/chat-memory-repository.ts:27-32 | a created chat has the id, no messages, and both times equal to now |
| ChatRepository.Upsert | backend/src/repository/memory/chat-memory-repository.ts:67-72 | an existing id keeps the length; a new id appends the chat at the end |
| ChatRepository.UpsertThenFind | backend/src/repository/memory/chat-memory-repository.ts:67-73 | after saving, lookup by the id finds the saved chat, and entries with other ids are where they were |
| ChatRepository.ChatMemoryRepository.constructor | backend/src/repository/memory/chat-memory-repository.ts:9-14 | selects the namespace and creates it empty only if absent; an existing namespace is never cleared |
| ChatRepository.ChatMemoryRepository.GetChat | backend/src/repository/memory/chat-memory-repository.ts:20-22 | returns the first stored chat with the id, or none when no chat has it; no state changes |
| ChatRepository.ChatMemoryRepository.GetOrCreateChat | backend/src/repository/memory/chat-memory-repository.ts:24-35 | an existing id returns that chat and changes nothing; a new id appends exactly one empty chat and changes nothing else |
| ChatRepository.ChatMemoryRepository.ListChats | backend/src/repository/memory/chat-memory-repository.ts:37-59 | returns `ListPage`; an empty search leaves the stored namespace reordered newest first, while a search leaves it unchanged |
| ChatRepository.ChatMemoryRepository.SaveChat | backend/src/repository/memory/chat-memory-repository.ts:61-74 | stamps `update_time` and fills a missing id with a fresh one, then upserts; afterwards lookup by the id finds the saved chat |
| ChatRepository.ChatMemoryRepository.GetChats | backend/src/repository/memory/chat-memory-repository.ts:76-78 | returns the namespace's stored chats |
| BotRepository.FreeRankValues | backend/src/repository/memory/bot-memory-repository.ts:48-49 | the comparator's rank is 0 for the free model and -1 for every other model |
| BotRepository.AddMissingFree | backend/src/repository/memory/bot-memory-repository.ts:41-46 | the stored bots stay in front, only free bots are added, and afterwards every free bot's model is listed |
| BotRepository.MergedBots | backend/src/repository/memory/bot-memory-repository.ts:33-52 | the listing is never empty and its last bot has the free model |
| BotRepository.FreeModelLast | backend/src/repository/memory/bot-memory-repository.ts:47-50 | once a free-model bot is present, the sort by rank puts one last |
| BotRepository.WithFreeBot | backend/src/repository/memory/bot-memory-repository.ts:42-46 | the Gemini bot is appended exactly when no stored bot has the free model |
| BotRepository.GetBotsContents | backend/src/repository/memory/bot-memory-repository.ts:33-52 | the listing has the stored bots, plus the Gemini bot when its model is missing: length n or n+1, as a multiset |
| BotRepository.GetBotsPartition | backend/src/repository/memory/bot-memory-repository.ts:47-51 | other-model bots first and free-model bots last, each group in its original order |
| BotRepository.GetBotsFreeLast | backend/src/repository/memory/bot-memory-repository.ts:47-50 | no bot of another model comes after a free-model bot |
| BotRepository.BotMemoryRepository.constructor | backend/src/repository/memory/bot-memory-repository.ts:10-27 | seeds the namespace from `BOTS` on first construction only |
| BotRepository.BotMemoryRepository.GetBots | backend/src/repository/memory/bot-memory-repository.ts:33-52 | the loop and sort compute the merged, sorted listing; the store is not changed |
| BotRepository.BotMemoryRepository.AddBot | backend/src/repository/memory/bot-memory-repository.ts:54-56 | appends with no name check; other namespaces are unchanged |
| BotRepository.BotMemoryRepository.UpdateBot | backend/src/repository/memory/bot-memory-repository.ts:58-62 | replaces the first bot with the name in place; a missing name fails with `Bot with name X not found` and changes nothing |
| BotRepository.BotMemoryRepository.DeleteBot | backend/src/repository/memory/bot-memory-repository.ts:64-68 | removes only the first bot with the name; a missing name fails and changes nothing |
| McpServerRepository.SeedServers | backend/src/repository/memory/mcp-server-memory-repository.ts:14-26 | every seeded server comes from the parsed `MCP_SERVERS` array or is the single `default` server at `MCP_SERVER_URL` when `MCP_SERVERS` is unset; without an array at most one server is seeded |
| McpServerRepository.SeedPriority | backend/src/repository/memory/mcp-server-memory-repository.ts:13-28 | seeding prefers a parsed `MCP_SERVERS` array, then a single `default` server at `MCP_SERVER_URL`, then nothing |
| McpServerRepository.UrlIgnoredWhenServersSet | backend/src/repository/memory/mcp-server-memory-repository.ts:15-26 | once `MCP_SERVERS` is set, `MCP_SERVER_URL` is not consulted; an invalid or non-array value seeds nothing |
| McpServerRepository.McpServerMemoryRepository.constructor | backend/src/repository/memory/mcp-server-memory-repository.ts:10-29 | seeds the namespace on first construction only |
| McpServerRepository.McpServerMemoryRepository.GetMcpServers | backend/src/repository/memory/mcp-server-memory-repository.ts:35-37 | returns the namespace's servers; the store is not changed |
| McpServerRepository.McpServerMemoryRepository.AddMcpserver | backend/src/repository/memory/mcp-server-memory-repository.ts:39-41 | appends at the end; other namespaces are unchanged |
| McpServerRepository.McpServerMemoryRepository.UpdateMcpServer | backend/src/repository/memory/mcp-server-memory-repository.ts:43-47 | replaces the first match in place; a missing name fails and changes nothing |
| McpServerRepository.McpServerMemoryRepository.DeleteMcpServer | backend/src/repository/memory/mcp-server-memory-repository.ts:49-53 | removes only the first match; a missing name fails and changes nothing |
| IntegrationRepository.IntegrationMemoryRepository.constructor | backend/src/repository/memory/integration-memory-repository.ts:8-13 | creates the namespace empty only if absent |
| IntegrationRepository.IntegrationMemoryRepository.GetIntegrations | backend/src/repository/memory/integration-memory-repository.ts:19-21 | returns the namespace's integrations; the store is not changed |
| IntegrationRepository.IntegrationMemoryRepository.AddIntegration | backend/src/repository/memory/integration-memory-repository.ts:23-25 | appends with no name check; other namespaces are unchanged |
| IntegrationRepository.IntegrationMemoryRepository.UpdateIntegration | backend/src/repository/memory/integration-memory-repository.ts:27-31 | replaces the first match in place, keeping the length; a missing name fails and changes nothing |
| IntegrationRepository.IntegrationMemoryRepository.DeleteIntegration | backend/src/repository/memory/integration-memory-repository.ts:33-37 | removes only the first match, keeping the order of the rest; a missing name fails and changes nothing |
| EventStream.FrameUnframe | backend/src/api/chat-completions.ts:114 | a framed event is `data: ...\n\n` and its payload can be read back |
| EventStream.UnframeFrame | backend/src/api/chat-completions.ts:114 | every framed event is the frame of its payload |
| EventStream.ErrorEventsDistinct | backend/src/api/chat-completions.ts:120 | distinct error texts give distinct events, and no error event is `[DONE]` |
| EventStream.StreamWriter.WriteAll | backend/src/api/chat-completions.ts:82 | writes the engine's chunks in order to an open stream |
| McpServerApi.ItemRoute | backend/src/api/mcp-server.ts:10-11 | the path's fourth part names the server exactly when the path is `/api/mcp-server/<name>` with no `/` in the name |
| McpServerApi.ServerNameOf | backend/src/api/mcp-server.ts:10-11 | the server name taken from the path never holds a `/` |
| McpServerApi.HandlePost | backend/src/api/mcp-server.ts:15-61 | status 200, 400, 409 or 500; 200 appends the body, whose name was free; any other status keeps the list |
| McpServerApi.HandlePut | backend/src/api/mcp-server.ts:64-110 | status 200, 400, 404 or 500; 200 means the server existed, the length is kept and the body is listed; any other status keeps the list |
| McpServerApi.HandleDelete | backend/src/api/mcp-server.ts:113-135 | 200 exactly when the server exists, and then one entry fewer; otherwise 404 and the list is kept |
| McpServerApi.Handle | backend/src/api/mcp-server.ts:13-150 | every status is 200, 400, 404, 409 or 500; any non-200 leaves the list unchanged |
| McpServerApi.PostOutcomes | backend/src/api/mcp-server.ts:15-61 | 500 on an unreadable body; 400 for the name, then the url; 409 on a taken name; otherwise one entry appended and findable |
| McpServerApi.PutOutcomes | backend/src/api/mcp-server.ts:64-110 | the same body checks; 404 when the server is missing; otherwise its slot is replaced by the body, which may rename it |
| McpServerApi.DeleteOutcomes | backend/src/api/mcp-server.ts:113-135 | the body is not read; 404 when the server is missing; otherwise only that server is removed |
| McpServerApi.ExtraSegmentsNotFound | backend/src/api/mcp-server.ts:137-140 | a path with segments after the name matches no route: plain 404, no change |
| McpServerApi.OtherMethodsNotFound | backend/src/api/mcp-server.ts:137-140 | any method other than POST, PUT and DELETE is a plain 404 |
| McpServerApi.HandleMcpServerRequest | backend/src/api/mcp-server.ts:6-151 | builds the repository (seeding), then the response and the namespace's new list are those of `Handle` |
| McpServerApi.Route | backend/src/api/mcp-server.ts:15-140 | dispatches the request to the POST, PUT or DELETE checks, or answers 404 |
| McpServerApi.Post | backend/src/api/mcp-server.ts:15-61 | the POST checks and the add run against the repository |
| McpServerApi.Put | backend/src/api/mcp-server.ts:64-110 | the PUT checks and the update run against the repository; the checked update cannot fail |
| McpServerApi.Delete | backend/src/api/mcp-server.ts:113-135 | the DELETE check and the removal run against the repository |
| ChatCompletions.ResolveBot | backend/src/api/chat-completions.ts:60-70 | the key and base url are kept or replaced together, an explicit timeout is kept, and no other field changes |
| ChatCompletions.CredentialFallback | backend/src/api/chat-completions.ts:61-64 | if the key or the base url is missing, both take the environment's values, so a bot with only one of them loses it; only key, url and timeout change |
| ChatCompletions.TimeoutFallback | backend/src/api/chat-completions.ts:65-70 | an explicit timeout is never overwritten; a missing or zero one takes a non-zero parsed `API_TIMEOUT_MS` |
| ChatCompletions.FindUserMessage | backend/src/api/chat-completions.ts:94 | none exactly when no message has the id and role `user`; otherwise the first such message |
| ChatCompletions.Completion | backend/src/api/chat-completions.ts:44-123 | a bot is used exactly when one has the name, and it is that name's bot; the stream is never empty and ends closed, or open only when no message reached the engine; a message the engine gets is a user message |
| ChatCompletions.AfterInit | backend/src/api/chat-completions.ts:84-121 | the events already written stay in front and at least one follows; the stream is left open exactly when no message was found |
| ChatCompletions.UnknownBot | backend/src/api/chat-completions.ts:53-59 | an unknown bot gives exactly one `Bot not found` event and close, and the engine gets no message |
| ChatCompletions.FirstBotByName | backend/src/api/chat-completions.ts:54 | the bot used is the first listed bot with the name, after the fallbacks |
| ChatCompletions.ResumeLookup | backend/src/api/chat-completions.ts:87-100 | resuming: `Chat not found` or `User message not found` leaves the stream open with no `[DONE]`; a found message is a stored `user` message with that id |
| ChatCompletions.MessageIdDigits | backend/src/api/chat-completions.ts:103 | a message id is `msg_`, then the decimal digits of the clock reading (which read back as that reading), then `_` |
| ChatCompletions.NewUserMessage | backend/src/api/chat-completions.ts:101-108 | a new message has role `user`, the request's content and server, and an id `msg_<digits>_...` whose digits read back as `Date.now()` |
| ChatCompletions.TurnEnding | backend/src/api/chat-completions.ts:111-121 | after the engine has the message, a finished turn ends with `[DONE]` then close, and a thrown error with one error event then close |
| ChatCompletions.AllEventsFramed | backend/src/api/chat-completions.ts:56-120 | if the engine writes framed events, every event on the stream is framed |
| ChatCompletions.HandleChatCompletions | backend/src/api/chat-completions.ts:44-123 | builds the three repositories (seeding), lists the bots, and writes exactly the stream of `Completion` |
| ChatCompletions.OpenRepositories | backend/src/api/chat-completions.ts:48-52 | the three constructors change only the request's namespace, seeding it if new |
| ChatCompletions.StreamTurn | backend/src/api/chat-completions.ts:53-82 | bot check, in-place fallbacks and engine set-up write the events `Completion` prescribes |
| ChatCompletions.StreamUserMessage | backend/src/api/chat-completions.ts:84-115 | resume lookup or a new message, then the engine's turn, write the events `AfterInit` prescribes |
| ToolApi.ToolConfirmation | backend/src/api/tool.ts:38-75 | at most one tool call, made exactly when the bot is listed; an aborted stream is empty; an emitted message is a user message framed and followed by `[DONE]` |
| ToolApi.ToolUnknownBot | backend/src/api/tool.ts:45-52 | an unknown bot gives one `Bot not found` event and close, and the tool never runs |
| ToolApi.ToolRunsOnce | backend/src/api/tool.ts:56-60 | a known bot runs the tool exactly once, with the request's server, tool and arguments |
| ToolApi.ToolResultMessage | backend/src/api/tool.ts:63-69 | the stream is one user message whose content is the result and whose server, tool and arguments are the request's, then `[DONE]`, then close |
| ToolApi.ToolFailureAborts | backend/src/api/tool.ts:71-74 | a throwing tool aborts the stream with no message and no `[DONE]` |
| ToolApi.ToolIgnoresBotDetails | backend/src/api/tool.ts:47-60 | only the bot's existence matters; its `mcp_servers` list is never checked against the server |
| ToolApi.ToolExecutor.ExecuteTool | backend/src/api/tool.ts:56-60 | each call is recorded and answered |
| ToolApi.HandleToolConfirmation | backend/src/api/tool.ts:38-75 | builds the server and bot repositories (seeding) and writes the stream and makes the calls of `ToolConfirmation`; no chat store is touched |
| ToolApi.OpenRepositories | backend/src/api/tool.ts:41-45 | the two constructors change only the request's namespace, seeding it if new |
| ToolApi.ConfirmAndRun | backend/src/api/tool.ts:46-69 | bot check, the one tool call and the message writes follow `ToolConfirmation` |
| BotSection.SubmitBot | frontend/src/components/Settings/BotSection.tsx:39-51 | adding grows the list by one, editing keeps its length; the submitted bot is listed unless the edited bot was gone; nothing else is introduced |
| BotSection.WithoutName | frontend/src/components/Settings/BotSection.tsx:67 | the filter keeps exactly the listed bots whose name differs, in order (by `Lists.FilterAppend`) |
| BotSection.EditReplacesFirst | frontend/src/components/Settings/BotSection.tsx:42-46 | editing replaces the first bot with the original name, keeping the length and every other entry; an unlisted original leaves the list unchanged |
| BotSection.AddAppends | frontend/src/components/Settings/BotSection.tsx:48-50 | adding appends at the end with no duplicate-name check |
| BotSection.WithoutNameAppend | frontend/src/components/Settings/BotSection.tsx:67 | the filter distributes over concatenation, so the rest keep their order |
| BotSection.DeleteRemovesAll | frontend/src/components/Settings/BotSection.tsx:67 | deleting removes every bot with the name and keeps every other |
| BotSection.DeleteDiffersFromStore | frontend/src/components/Settings/BotSection.tsx:67 | with duplicate names the page removes more bots than the backend's `deleteBot`, which removes one |
| BotSection.BotSettings.HandleBotSubmit | frontend/src/components/Settings/BotSection.tsx:39-60 | context and storage get the same submitted list; the success text names the bot, also when the edited bot was gone; the form closes |
| BotSection.BotSettings.HandleDeleteBot | frontend/src/components/Settings/BotSection.tsx:63-78 | no pending name does nothing; otherwise context and storage get the same filtered list, and the pending name and dialog are cleared |
| Header.StorageKey | frontend/src/components/Header/Header.tsx:19-21 | the home key is used exactly for `/`; every other path gets a `chat_` key |
| Header.StorageKeySegment | frontend/src/components/Header/Header.tsx:19-21 | a non-root path's key is `chat_` + the text after its last `/` + `_selectedBot` |
| Header.ChatPageKey | frontend/src/components/Header/Header.tsx:21 | the page `/chat/<id>` keys on its id |
| Header.TrailingSlashKey | frontend/src/components/Header/Header.tsx:21 | a non-root path ending in `/` gives `chat__selectedBot` |
| Header.ChatKeysDistinct | frontend/src/components/Header/Header.tsx:19-21 | different segments give different keys, and none is the home key |

## Left out

- **Streaming transport.** `TransformStream`, `TextEncoder`, `ctx.waitUntil` and the HTTP response headers are left out. The writer is a list of written chunks plus an open, closed or aborted state.
- **The turn engine.** `ChatService`, `ProviderFactory` and `McpManager` are not part of this model.
  - What `initializeChat` and `processUserMessage` write, and whether they throw, are inputs.
  - Their own reads and writes of the chat store are not modelled.
  - The resume lookup reads the store as the handler finds it.
- **Helpers outside the modelled files.**
  - `createMessage` is not part of this model. Its result is taken to carry exactly the role, content and options passed, and the clock's timestamps.
  - `generateUniqueId` is not part of this model. `SaveChat` takes its result as a parameter that must be new to the namespace.
  - `JSON.stringify` of the tool message is a parameter.
- **Environment parsing.** `JSON.parse` of `BOTS` and `MCP_SERVERS` and `parseInt` of `API_TIMEOUT_MS` are inputs. A value that is not an integer (`NaN`) is `None`.
- **JSON values.** Numbers are integers only. Floating point is not modelled.
- **Request bodies.** Each is taken as already parsed.
  - A tool-server body that cannot be read, or that is `null`, is `None`, which gives a 500.
  - A non-object body has no `name`. It is represented as a server with an empty name, which gives the source's 400.
  - A malformed body for the two streaming endpoints, which throws before the stream exists, is not modelled.
- **URL decoding.** Neither the source nor the model decodes percent-encoded path segments: the server name is the raw fourth part of the path.
- **Escaping.** Error text goes into the JSON error payload unescaped, as in the source. Whether the result is valid JSON is not modelled.
- **Text.ToLower: only ASCII letters are lowered.** Unicode case mapping is not modelled.
- **Dates.** ISO date strings that parse to `NaN` are not modelled.
- **ChatRepository.ChatMemoryRepository.GetChats** returns the stored list as a value. The source returns the stored array itself, so a caller's later in-place changes to it would reach the store; that aliasing is not modelled.
- **ChatRepository.ChatMemoryRepository.SaveChat** returns the stamped chat as a value. The source also writes `update_time` and `id` into the caller's object.
- **ChatRepository.ChatMemoryRepository.GetOrCreateChat** uses one clock reading for both timestamps. The source reads the clock twice.
- **ChatCompletions.HandleChatCompletions** applies the credential and timeout fallbacks to a copy of the bot, and the stores are unchanged apart from seeding. In the source, `getBots` copies the stored array but not the bot objects in it. A stored bot's fallback values are therefore written into the store and seen by later requests; that write-through is not modelled. The free Gemini bot is built afresh on every `getBots` call, so its fallback values are lost when the request ends, as in the model.
- **Logging.** `console.log` and `console.error` calls are left out, including the error logging in the catch blocks of the two streaming handlers (backend/src/api/chat-completions.ts:118, backend/src/api/tool.ts:72) and the parse-failure logging of the stores; they write nothing the handlers return.
- **Concurrency.** Interleavings of simultaneous requests are not modelled; operations are sequential calls.
- **Framework and UI code.** Routing, CORS and API documentation are left out. So are rendering, dialogs and action menus, header polling and storage listeners, and the browser storage and fetch wrappers. The settings page's error branches depend on storage throwing and are left out too.
