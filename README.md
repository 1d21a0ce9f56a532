# genai-tools-app chat core in Dafny

This project models the chat application `genai-tools-app`. A React/TypeScript client sends a message, with the model id and the prior history, to a FastAPI/Python server. The server streams the reply back as `data: <json>\n\n` events and stores both messages in a conversation store.

What is modelled, module by module:

- **ChatService** (client decoder). `sendMessage` is a method looping over the reads of the response body. It appends the callbacks it makes (`onChunk`, `onComplete`, `onError`) to a trace. It is proved equal to a reference decoding `SendTrace`, whose shape and framing properties are proved as lemmas. The module also models the error mapping of the other fetch calls.
- **Session** (`ChatInterface`). The pure helpers (`moveConversationToTop`, `toSummary`, `parseConversationIdFromPath`) are functions. The controller is a class whose fields are the component's state. There is one method per event: send, stream callbacks, create, delete, load, startup, popstate.
- **MessageInput** and **ModelDisplay**: the submit guards and the display-name lookup.
- **Server** (`main.py`):
  - the model catalogue;
  - the history assembly;
  - the event sequence `generate()` writes and its exception classifier;
  - the order of persistence;
  - the 404/500/503 decisions of the endpoints.
- **Repository**: the message repository as an in-memory store. Conversations are a map and messages a sequence; an explicit clock stands in for `utcnow()`.
- **Llm**, **OpenAiProvider**, **ClaudeProvider** and **GoogleProvider**:
  - the provider table built from the environment;
  - model routing;
  - each provider's key resolution, message shaping and event-to-text loop.
- **Integration**: properties spanning client and server. The catalogue agrees with the display table and with the routing table. A turn's events, written by the server and decoded by the client, yield exactly one `onChunk` per non-empty chunk and then one terminal callback.

Parameters stand in for the parts the model cannot see:

- **Client:** a read is an already-decoded string. `JSON.parse` and `json.dumps` are a `parse`/`encode` pair, with their round trip as a precondition. `encodeURIComponent`/`decodeURIComponent` are function fields of the controller.
- **Server:** an LLM stream is a value `ChunkStream(chunks, raised)`. The provider SDK is an `upstream` function from provider, messages and model to such a stream. Each database commit takes a `fault` flag and the time elapsed since the previous reading.

## Model

| member | source | states |
|---|---|---|
| ChatService.SendMessage | frontend/src/services/ChatService.ts:27-106 | the read loop, with early returns inside the line loop, makes exactly the callbacks of `SendTrace`: one terminal callback at the end after chunks only; a rejected fetch, a non-2xx status and a null body each give a single `onError` with the mapped text |
| ChatService.DispatchLines | frontend/src/services/ChatService.ts:69-93 | the inner loop over one read's lines dispatches exactly `DecodeLines` of those lines, stopping at the first error or done event |
| ChatService.SendTraceShape | frontend/src/services/ChatService.ts:76-105 | every trace has exactly one terminal callback, at the end, preceded only by `onChunk` calls |
| ChatService.DecodeLinesWellFormed | frontend/src/services/ChatService.ts:71-93 | decoding lines either stops with one terminal callback last, or makes chunk callbacks only |
| ChatService.DecodeReadsWellFormed | frontend/src/services/ChatService.ts:61-94 | the same for a sequence of reads |
| ChatService.ThenWellFormed | frontend/src/services/ChatService.ts:76-88 | running a well-formed continuation after a well-formed prefix stays well formed |
| ChatService.DecodeLinesAppend | frontend/src/services/ChatService.ts:71-93 | decoding `a + b` is decoding `a` and then, unless it returned, `b` |
| ChatService.DecodeReadsAppend | frontend/src/services/ChatService.ts:61-94 | decoding reads `a + b` is decoding `a` and then, unless it returned, `b` |
| ChatService.SkippedLineIgnored | frontend/src/services/ChatService.ts:72-91 | a line without the `data: ` prefix, or whose payload does not parse, can be removed without changing the outcome |
| ChatService.ErrorLineEndsTurn | frontend/src/services/ChatService.ts:76-79 | an event with a truthy `error` calls `onError(error)` and nothing after it in the line list is processed |
| ChatService.DoneLineEndsTurn | frontend/src/services/ChatService.ts:81-88 | a truthy `done` gives `onChunk(content)` if content is truthy, then `onComplete`, and stops |
| ChatService.LaterReadsIgnored | frontend/src/services/ChatService.ts:76-88 | once a read has returned, later reads and how the body ends change nothing |
| ChatService.EventsProgressAppend | frontend/src/services/ChatService.ts:71-93 | the reference reading of payloads `a + b` is that of `a` followed, unless it returned, by that of `b` |
| ChatService.FrameLines | frontend/src/services/ChatService.ts:68-69 | splitting a frame `data: <json>\n\n` followed by more text on `\n` gives the data line, an empty line, then the split of the rest |
| ChatService.FrameLinesDecode | frontend/src/services/ChatService.ts:72-88 | the data line and empty line of one frame decode to the callbacks of its payload |
| ChatService.FramedReadDecodes | frontend/src/services/ChatService.ts:68-93 | a read made of whole frames decodes to the payloads' callbacks in order |
| ChatService.FramedReadsDecode | frontend/src/services/ChatService.ts:61-94 | reads made of whole frames decode to the callbacks of all payloads in order, however the frames are grouped into reads |
| ChatService.WholeFramesTrace | frontend/src/services/ChatService.ts:61-96 | for a 2xx body of whole frames that ends cleanly, the trace is the payloads' callbacks, with `onComplete` added when no done or error event came |
| ChatService.SplitFrameDropped | frontend/src/services/ChatService.ts:68-91 | a frame cut in two by a read boundary yields no callback, leaving only the fallback `onComplete` |
| ChatService.FetchJson | frontend/src/services/ChatService.ts:141-145 | the calls without a `catch` succeed exactly on a 2xx reply with its body; a non-2xx status fails with `HTTP error! status: N`; a rejected fetch fails with the thrown value |
| ChatService.GetModelsErrorMapping | frontend/src/services/ChatService.ts:108-130 | `getModels` returns the body on 2xx; it fails with the HTTP error text, the network message for a TypeError, the Error's message, or the generic text otherwise |
| ChatService.GetModels | frontend/src/services/ChatService.ts:108-130 | `getModels` succeeds exactly on a 2xx reply, with its body; the error texts are `GetModelsErrorMapping` |
| ChatService.DeleteAsWrittenAlwaysFails | frontend/src/components/ChatInterface.tsx:182 | as written, deletion fails for every reply, even a 204 |
| ChatService.DeleteConversationAsWritten | frontend/src/components/ChatInterface.tsx:182 | the call as written always fails with a TypeError, whatever the reply |
| ChatService.DeleteConversation | backend/main.py:248-260 | the corrected client call succeeds exactly on a 2xx reply and fails with the HTTP error text otherwise |
| Session.ErrorText | frontend/src/components/ChatInterface.tsx:119 | `err instanceof Error ? err.message : fallback` |
| Session.ToSummary | frontend/src/components/ChatInterface.tsx:8-14 | a summary keeps id, title and timestamps, with count 0 and an empty preview |
| Session.ParseConversationIdFromPath | frontend/src/components/ChatInterface.tsx:16-19 | no id exactly when the path does not match `^/chat/[^/]+$`; malformed exactly when it matches and the segment does not decode; an id is always the decoded segment |
| Session.ChatPathRoundTrip | frontend/src/components/ChatInterface.tsx:16-19 | reading back `/chat/` + encode(id) gives id, for any encoder whose output for id is non-empty, has no `/` and decodes back |
| Session.NestedPathRejected | frontend/src/components/ChatInterface.tsx:17 | a path with a further `/` after the segment gives no id |
| Session.Find | frontend/src/components/ChatInterface.tsx:28 | `find` gives the first entry with the id (no earlier entry has it), and none only when no entry has it |
| Session.WithoutIdDropsId | frontend/src/components/ChatInterface.tsx:42 | no entry with the id survives the filter |
| Session.WithoutIdMembers | frontend/src/components/ChatInterface.tsx:42 | the filter keeps exactly the entries with other ids |
| Session.WithoutIdNoMatch | frontend/src/components/ChatInterface.tsx:42 | the filter changes nothing when no entry has the id |
| Session.WithoutIdAppend | frontend/src/components/ChatInterface.tsx:42 | the filter distributes over concatenation, so the kept entries stay in their order |
| Session.WithoutId | frontend/src/components/ChatInterface.tsx:42 | the filter never lengthens the list; membership, order and the no-match case are the `WithoutId` lemmas |
| Session.MoveConversationToTop | frontend/src/components/ChatInterface.tsx:21-43 | the touched entry comes first, followed by the input without that id, in order |
| Session.MoveToTopIdOnce | frontend/src/components/ChatInterface.tsx:42 | the id occurs exactly once in the result, at the front |
| Session.MoveToTopFields | frontend/src/components/ChatInterface.tsx:32-39 | title, `created_at`, `updated_at`, count and preview follow the rules of the literal, with the `\|\|` fallbacks written out |
| Session.PromotedLookup | frontend/src/components/ChatInterface.tsx:28-42 | after a promotion the entry found for the id is the front one, and filtering the id leaves the rest |
| Session.MoveToTopIdempotent | frontend/src/components/ChatInterface.tsx:21-43 | promoting again with increment 0 changes only `updated_at` |
| Session.PromotedTwiceHead | frontend/src/components/ChatInterface.tsx:21-43 | the head of a second promotion with increment 0 is the first one's head with only `updated_at` changed |
| Session.CompletedTurnCountsTwo | frontend/src/components/ChatInterface.tsx:230-251 | the send and the completion together raise the local count by 2 |
| Session.AppendToMessageAt | frontend/src/components/ChatInterface.tsx:242-246 | `onChunk` grows exactly the message with the assistant id, leaving every other message as it was |
| Session.AppendTwice | frontend/src/components/ChatInterface.tsx:242-246 | two fragments appended in turn equal their concatenation appended once |
| Session.AppendNothing | frontend/src/components/ChatInterface.tsx:242-246 | appending an empty fragment changes nothing |
| Session.AppendToMessageNoMatch | frontend/src/components/ChatInterface.tsx:242-246 | fragments change nothing when no message carries the id |
| Session.AppendToMessageAppend | frontend/src/components/ChatInterface.tsx:242-246 | the update distributes over concatenation |
| Session.AppendToMessage | frontend/src/components/ChatInterface.tsx:242-246 | the `map` keeps the number of messages; what changes in each is `AppendToMessageAt` |
| Session.RemoveMessageMembers | frontend/src/components/ChatInterface.tsx:258 | removal keeps exactly the messages with other ids |
| Session.RemoveMessageNoMatch | frontend/src/components/ChatInterface.tsx:258 | removal changes nothing when no message carries the id |
| Session.RemoveMessageAppend | frontend/src/components/ChatInterface.tsx:258 | removal distributes over concatenation |
| Session.RemoveMessage | frontend/src/components/ChatInterface.tsx:258 | removal never lengthens the list; what it keeps is `RemoveMessageMembers` |
| Session.RenderedAt | frontend/src/components/ChatInterface.tsx:83-92 | each loaded message becomes a client message whose id is the decimal string of the stored id, keeping its content |
| Session.LoadedMessages | frontend/src/components/ChatInterface.tsx:81-95 | a failed history load gives no messages, a successful one the rendered list |
| Session.HistoryOfAt | frontend/src/components/ChatInterface.tsx:224-227 | the history sent is each earlier message's role and content, in order |
| Session.ReplayChunks | frontend/src/components/ChatInterface.tsx:241-247 | a run of chunk callbacks appends their concatenated text to the assistant message and changes nothing else |
| Session.UserAndAssistantIdsDiffer | frontend/src/components/ChatInterface.tsx:206-214 | the user and assistant messages of one send never share an id |
| Session.ReplaySnoc | frontend/src/components/ChatInterface.tsx:241-259 | replaying callbacks one more at a time is replaying them in order |
| Session.ChunksFillPlaceholder | frontend/src/components/ChatInterface.tsx:229-247 | while streaming, only the new assistant placeholder grows; earlier messages and the user message stay |
| Session.CompletedTurn | frontend/src/components/ChatInterface.tsx:248-254 | after the completion the assistant message holds all fragments, the conversation is promoted again, loading ends and no error is shown |
| Session.FailedTurn | frontend/src/components/ChatInterface.tsx:255-259 | after an error callback only the assistant message is gone, the error is set, loading ends, and the sidebar is not touched again |
| Session.TurnOutcome | frontend/src/components/ChatInterface.tsx:229-259 | a well-formed trace ends in exactly the completed or the failed state above |
| Session.SentTurnOutcome | frontend/src/components/ChatInterface.tsx:204-259 | for the user and assistant messages `handleSend` adds, a completed turn ends with the placeholder holding all chunk text and a failed one with only the user message added |
| Session.ChatInterface.constructor | frontend/src/components/ChatInterface.tsx:46-54 | the initial state: no messages or conversations, not loading, no error, no active or deleting conversation |
| Session.ChatInterface.NavigateToConversation | frontend/src/components/ChatInterface.tsx:56-63 | the path becomes `/chat/` + encode(id), with one push or replace entry recorded |
| Session.ChatInterface.LoadConversation | frontend/src/components/ChatInterface.tsx:74-98 | the conversation becomes active; navigation happens only when the path differs; messages are the loaded list, or empty on failure |
| Session.ChatInterface.CreateConversation | frontend/src/components/ChatInterface.tsx:100-108 | on success the summary is inserted first without duplicating the id, messages are cleared, and the conversation becomes active and is pushed; on failure nothing changes |
| Session.ChatInterface.HandleCreateConversation | frontend/src/components/ChatInterface.tsx:166-173 | the error is cleared; on success the new conversation is listed first, active, empty, and pushed as the path; on failure the error is set and nothing else changes |
| Session.ChatInterface.HandleDeleteConversation | frontend/src/components/ChatInterface.tsx:175-193 | a delete while another is pending is ignored; a successful delete removes that summary and, only if it was active, creates one replacement, which becomes active and is pushed as the path; a failure sets the error and leaves path and history; the pending mark is always cleared; input, model choice, model list and loading flag are never touched |
| Session.ChatInterface.ApplyCallbacks | frontend/src/components/ChatInterface.tsx:241-259 | the view after the callbacks is their replay on the view before |
| Session.ChatInterface.RunTurn | frontend/src/components/ChatInterface.tsx:235-265 | the callbacks are those `sendMessage` makes for the reply, and the view is their replay |
| Session.ChatInterface.BeginSend | frontend/src/components/ChatInterface.tsx:198-233 | the request targets the active or a `local-<now>` conversation and carries only earlier messages as history; a user then an empty assistant message are appended; the conversation is promoted with increment 1; input and error are cleared and loading is set; a conversation opened for the send is pushed as the path, otherwise path and history stay |
| Session.ChatInterface.HandleSend | frontend/src/components/ChatInterface.tsx:195-266 | a blank message or a send while loading changes nothing; otherwise the request is sent, the path moves only when a conversation is opened for the send, and the state is the replay of the callbacks it caused on the state after the optimistic update; when the assistant id is new, the turn ends in the completed or the failed state; the model choice, model list and pending delete are never touched |
| Session.ChatInterface.RefreshConversations | frontend/src/components/ChatInterface.tsx:65-72 | the list is replaced on success and kept on failure |
| Session.ChatInterface.Startup | frontend/src/components/ChatInterface.tsx:110-147 | the first model is selected; the conversation is the one in the path, else the first summary, each replacing the history entry only when the path differs, else a replaced `local-<now>` with no messages; input, loading flag and pending delete are not touched |
| Session.ChatInterface.LoadModels | frontend/src/components/ChatInterface.tsx:112-120 | models are stored and the first selected, or the error is set and the models are kept |
| Session.ChatInterface.OpenInitialConversation | frontend/src/components/ChatInterface.tsx:122-143 | the choice between the path's conversation, the first summary and the local fallback, the history entry being replaced only when the path changes |
| Session.ChatInterface.OnPopState | frontend/src/components/ChatInterface.tsx:150-155 | a chat path loads its conversation, replacing the history entry only when the decoded id re-encodes to another path; any other path changes nothing |
| Session.ChatInterface.HandleSelectConversation | frontend/src/components/ChatInterface.tsx:161-164 | the error is cleared and the conversation loaded, with its path pushed when it differs from the current one |
| Session.ChatInterface.DismissError | frontend/src/components/ChatInterface.tsx:300 | the error is cleared |
| Session.ChatInterface.ChangeInput | frontend/src/components/ChatInterface.tsx:317 | the input becomes the typed value |
| Session.ChatInterface.ChangeModel | frontend/src/components/ChatInterface.tsx:318 | the selected model becomes the chosen one |
| MessageInput.SubmitMessage | frontend/src/components/MessageInput.tsx:22-26 | `onSend` is called exactly when the trimmed value is non-empty and nothing is loading, with the untrimmed value |
| MessageInput.HandleKeyDown | frontend/src/components/MessageInput.tsx:33-42 | nothing happens during composition; Cmd+Enter submits; nothing else does |
| MessageInput.SendButtonDisabled | frontend/src/components/MessageInput.tsx:77 | the button is disabled iff the trimmed value is empty or a reply is loading |
| MessageInput.ButtonMatchesSubmitGuard | frontend/src/components/MessageInput.tsx:22-77 | the button is enabled exactly when a submit would send |
| MessageInput.PlainEnterDoesNotSend | frontend/src/components/MessageInput.tsx:38 | Enter without the meta key, or during composition, does not send |
| ModelDisplay.GetModelDisplayName | frontend/src/constants/modelDisplay.ts:11-13 | a mapped id gives its table name and any other id gives itself |
| ModelDisplay.DisplayNameFallsBackToId | frontend/src/constants/modelDisplay.ts:1-13 | the display name equals the id exactly for unmapped ids |
| ModelDisplay.GeminiProDisplayName | frontend/src/constants/modelDisplay.ts:4 | `gemini-3-pro-preview` is shown as `Gemini 3 Pro` |
| Server.ClassifyError | backend/main.py:335-350 | the lower-cased text is tested for "rate"/"quota", then "auth"/"api key", then "network"/"connection", else the generic message |
| Server.ClassifyIgnoresCase | backend/main.py:340 | the classification does not depend on letter case |
| Server.ClassifiedMessageNonEmpty | backend/main.py:336-352 | the error sent is never empty, so the client always treats it as an error |
| Server.RateLimitClassified | backend/main.py:341-344 | "rate limit exceeded" gives the too-many-requests message |
| Server.EnabledAppend | backend/main.py:164-225 | filtering the catalogue by keys distributes over concatenation |
| Server.EnabledBlock | backend/main.py:166-224 | a block of one provider's models is listed whole or not at all |
| Server.EnabledMembers | backend/main.py:164-225 | a model is listed exactly when it is in the catalogue and its provider's key is set |
| Server.CatalogueBlocks | backend/main.py:157-227 | the listing is the OpenAI block if its key is set, then the Gemini block, then the Claude block |
| Server.GetModels | backend/main.py:157-227 | the `extend` sequence builds exactly the enabled catalogue |
| Server.CatalogueSize | backend/main.py:157-227 | 2 OpenAI models iff its key is set, plus 2 Gemini models iff either Google key is, plus 3 Claude models iff the Anthropic key is |
| Server.BuildMessages | backend/main.py:307-310 | the messages sent are the history entries in order, then the new user message |
| Server.ContentEvents | backend/main.py:315-317 | one content event per chunk, in order |
| Server.TurnEventsShape | backend/main.py:312-352 | a turn's events are one content event per chunk, then exactly one `done` if nothing was raised, or one `error` if it was |
| Server.Generate | backend/main.py:304-352 | the events are the turn's events, and the store afterwards is `Persisted` of the store before: nothing saved after an error, the user save then the assistant save (only if the user save succeeded) otherwise; the facts this gives are `PersistedEffects`; a failed save still ends in `done` |
| Server.SaveTurn | backend/main.py:320-329 | the store after the `try` block is `Persisted` of the store before, for a turn that raised nothing |
| Server.Save | backend/app/repositories/message_repository.py:186-234 | one `save_message` call succeeds exactly when its commit does, and leaves the store `SaveEffect` of the store before |
| Server.SaveEffectMatches | backend/app/repositories/message_repository.py:186-234 | a store changed as `save_message` promises (clock read, nothing stored on a failed commit, else the new row appended and the conversation saved) is exactly `SaveEffect` of the old one |
| Server.SaveEffectFacts | backend/app/repositories/message_repository.py:186-234 | one save advances the clock by its reading; a failed commit stores nothing; a successful one appends one row with the role, content, model and conversation, touches only that conversation, applies the title rule and sets its `updated_at` to the new time |
| Server.PersistedEffects | backend/main.py:304-329 | after a raise nothing is stored and the clock is not read; after a failed user save nothing is stored; otherwise the user row and, unless its commit fails, the reply row are appended after the old rows, the turn's conversation exists and has the title rule applied to the user message, no other conversation changes, and a full save leaves `updated_at` at the clock |
| Server.ChatStream | backend/main.py:288-354 | the conversation is ensured first (`Ensured`); a failed ensure gives 500 with both tables unchanged, and an unavailable model 503, each with the store as the ensure left it; otherwise the turn's events, with the store `Persisted` of the ensured store |
| Server.Ensure | backend/app/repositories/message_repository.py:163-184 | one `ensure_conversation` call fails exactly for a new id whose commit fails, and leaves the store `Ensured` of the store before |
| Server.Ensured | backend/app/repositories/message_repository.py:163-184 | a known id leaves the store as it is; a new one reads the clock and, unless the commit fails, adds a conversation with the default title and equal timestamps, leaving every other conversation and all messages |
| Server.CreateConversationEndpoint | backend/main.py:228-239 | a new conversation under a fresh id, titled as requested or by default, with `created_at == updated_at` |
| Server.DeleteConversationEndpoint | backend/main.py:248-260 | 204 exactly when a known conversation is deleted: it goes and exactly its messages go, every other conversation and row staying in order; 404 for an unknown id and 500 when the commit fails, each with the store unchanged |
| Server.ListMessagesEndpoint | backend/main.py:263-285 | 404 for an unknown conversation, else exactly its messages, once each, in timestamp order (ties in id order) |
| Repository.BuildTitle | backend/app/repositories/message_repository.py:104-108 | blank content gives the default title; otherwise the stripped content with `\n` replaced by spaces, cut to 40 characters |
| Repository.BuildTitleShape | backend/app/repositories/message_repository.py:104-108 | a title is non-empty, at most 40 characters, and has no `\n` |
| Repository.WhereMembers | backend/app/repositories/message_repository.py:151-153 | a filter keeps exactly the messages it accepts |
| Repository.WhereAppend | backend/app/repositories/message_repository.py:241-242 | filtering distributes over appending one message |
| Repository.MessagesOfMembers | backend/app/repositories/message_repository.py:241-242 | a conversation's messages are exactly the stored ones with its id |
| Repository.NoMessagesOf | backend/app/repositories/message_repository.py:151-153 | no stored message with the id means no messages for that conversation |
| Repository.WhereOrdered | backend/app/repositories/message_repository.py:243 | filtering keeps ids and timestamps in order |
| Repository.DeleteKeepsOthers | backend/app/repositories/message_repository.py:151-153 | deleting a conversation leaves every other conversation's messages |
| Repository.DeleteKeepsOthersInOrder | backend/app/repositories/message_repository.py:151-153 | another conversation's message list is unchanged by a delete |
| Repository.SavedTitle | backend/app/repositories/message_repository.py:215-216 | the title changes only on a user message while it is still the default; assistant messages never change it |
| Repository.SavedStamps | backend/app/repositories/message_repository.py:196-217 | saving keeps an existing conversation's id and `created_at`, stamps a new one with the id and the time, and sets `updated_at` to the time |
| Repository.SaveConsistent | backend/app/repositories/message_repository.py:186-234 | a committed save keeps every conversation under its own id with `created_at <= updated_at <= clock`, every row in a stored conversation, rows in key and time order, and no other conversation updated after the previous reading |
| Repository.SavedInto | backend/app/repositories/message_repository.py:196-216 | saving into a conversation adds or replaces only that entry; every other conversation stays |
| Repository.MostRecentExists | backend/app/repositories/message_repository.py:253-256 | every non-empty set of conversations has a most recently updated one |
| Repository.MostRecentListedFirst | backend/app/repositories/message_repository.py:253-256 | the conversation updated last is listed first |
| Repository.IdsAppend | backend/app/repositories/message_repository.py:272 | appending a summary adds its id to those listed |
| Repository.ListStep | backend/app/repositories/message_repository.py:260-281 | listing the most recent remaining conversation next keeps the listing invariant |
| Repository.ListDone | backend/app/repositories/message_repository.py:253-283 | a finished listing covers every conversation once, newest first, each with its own summary |
| Repository.MessageRepository.constructor | backend/app/repositories/message_repository.py:22-28 | the store starts empty |
| Repository.MessageRepository.Now | backend/app/repositories/message_repository.py:118 | the clock advances by the elapsed time and is read |
| Repository.MessageRepository.CreateConversation | backend/app/repositories/message_repository.py:110-133 | the given id, or a fresh one when none or an empty one is given; a duplicate id or a failed commit stores nothing; otherwise it stores a conversation with `created_at == updated_at == now` |
| Repository.MessageRepository.GetConversation | backend/app/repositories/message_repository.py:135-141 | the stored conversation with that id, or none |
| Repository.MessageRepository.DeleteConversation | backend/app/repositories/message_repository.py:143-161 | false with no change for an unknown id; otherwise the conversation and exactly its messages are removed and true is returned; a failed commit removes nothing |
| Repository.MessageRepository.EnsureConversation | backend/app/repositories/message_repository.py:163-184 | an existing conversation is returned with nothing changed; a missing one is created with the default title |
| Repository.MessageRepository.SaveMessage | backend/app/repositories/message_repository.py:186-234 | the message is appended with the given role, content, model and conversation; a missing conversation is created with the default title; the title rule holds; the conversation's `updated_at` becomes now, and no other conversation was updated after the previous clock reading; a failed commit stores nothing |
| Repository.MessageRepository.GetMessagesByConversation | backend/app/repositories/message_repository.py:236-247 | exactly that conversation's messages, once each, in timestamp order (ties in id order) |
| Repository.MessageRepository.GetConversationSummaries | backend/app/repositories/message_repository.py:249-285 | one summary per conversation, newest first; each counts that conversation's messages and previews the first 80 characters of its last one, or `''` |
| Llm.Create | backend/app/services/llm_service.py:12-27 | a provider is configured exactly when its key or keys are set, with the key that provider resolves |
| Llm.HasApiKey | backend/app/services/llm_service.py:40-53 | true exactly for a mapped model whose provider is configured |
| Llm.IsModelAvailable | backend/app/services/llm_service.py:55-65 | availability is `has_api_key` |
| Llm.AvailableIffKeySet | backend/app/services/llm_service.py:18-53 | for a service built from an environment, a model is available iff it is mapped and its provider's key is set |
| Llm.RouteOf | backend/app/services/llm_service.py:85-91 | unknown model, missing provider, or the mapped provider |
| Llm.StreamChat | backend/app/services/llm_service.py:67-94 | a `ValueError` naming the model or the provider, before any chunk, exactly when routing fails; otherwise the provider's stream unchanged |
| ClaudeProvider.ResolveKey | backend/app/services/claude_provider.py:19-21 | the explicit key wins over `ANTHROPIC_API_KEY`; with neither, a `ValueError` |
| ClaudeProvider.ConvertMessages | backend/app/services/claude_provider.py:24-49 | the system text is that of the last `system` message; the converted list is the user/assistant messages in order |
| ClaudeProvider.LastSystemIsLast | backend/app/services/claude_provider.py:36-45 | a system text exists iff some message has role system, and it is the content of the last such message |
| ClaudeProvider.DialogAppend | backend/app/services/claude_provider.py:46-47 | the conversion distributes over concatenation |
| ClaudeProvider.DialogRoles | backend/app/services/claude_provider.py:46 | only user and assistant messages remain |
| ClaudeProvider.BuildParams | backend/app/services/claude_provider.py:64-70 | `max_tokens` is 4096; `system` is present exactly when the system text is non-empty |
| OpenAiProvider.ResolveKey | backend/app/services/openai_provider.py:17-19 | the explicit key wins over `OPENAI_API_KEY`; with neither, a `ValueError` |
| OpenAiProvider.InputMessages | backend/app/services/openai_provider.py:37-45 | a failure is the `KeyError` for a missing `content` |
| OpenAiProvider.InputMessagesFails | backend/app/services/openai_provider.py:37-45 | it fails iff a forwarded message has no content |
| OpenAiProvider.InputMessagesAppend | backend/app/services/openai_provider.py:37-45 | the comprehension distributes over concatenation |
| OpenAiProvider.InputMessagesSingle | backend/app/services/openai_provider.py:38-44 | a message with another role is dropped; a forwarded one becomes `{type: "message", role, content}` unchanged |
| OpenAiProvider.StreamText | backend/app/services/openai_provider.py:51-55 | the loop yields exactly `Translate` of the events |
| OpenAiProvider.TranslateAppend | backend/app/services/openai_provider.py:51-55 | events without an error contribute their deltas and do not end the output |
| OpenAiProvider.DeltasCons | backend/app/services/openai_provider.py:52-53 | a delta event contributes its delta and any other event nothing |
| OpenAiProvider.AllDeltasWithoutError | backend/app/services/openai_provider.py:51-53 | without an error event the output is every delta, in order, and nothing is raised |
| OpenAiProvider.ErrorEndsOutput | backend/app/services/openai_provider.py:54-55 | an error event raises its message after the earlier deltas, and nothing after it is yielded |
| GoogleProvider.ResolveKey | backend/app/services/google_provider.py:19-23 | explicit key, then `GEMINI_API_KEY`, then `GOOGLE_API_KEY`; with none, a `ValueError` |
| GoogleProvider.StreamText | backend/app/services/google_provider.py:51-53 | the loop yields exactly the texts of the chunks that have any |
| GoogleProvider.TextsNonEmpty | backend/app/services/google_provider.py:52 | no empty text is yielded |
| GoogleProvider.TextsAppend | backend/app/services/google_provider.py:51-53 | the output distributes over concatenation |
| GoogleProvider.SkippedChunk | backend/app/services/google_provider.py:52 | a chunk with no choices or with empty content contributes nothing |
| Integration.CatalogueEntries | backend/main.py:166-224 | the seven catalogue entries in order, with ids, names and providers |
| Integration.CatalogueNamesDisplayed | frontend/src/constants/modelDisplay.ts:1-9 | the client's display name of every catalogue entry is its catalogue name |
| Integration.DisplayTableMatchesRouting | backend/app/services/llm_service.py:30-38 | the display table and the routing table have the same keys |
| Integration.CatalogueRoutedAsListed | backend/app/services/llm_service.py:30-38 | every catalogue entry is routed to the provider it is listed under |
| Integration.RoutedModelsListed | backend/main.py:166-224 | every routable model appears in the catalogue |
| Integration.ListedIffAvailable | backend/main.py:157-227 | under one environment, a model is listed by `/api/models` exactly when the chat endpoint accepts it |
| Integration.Payloads | backend/main.py:317-352 | each event is written as the matching `{content}`, `{done: true}` or `{error}` object |
| Integration.ContentProgress | frontend/src/services/ChatService.ts:81-83 | content events make one `onChunk` per non-empty chunk and do not end the turn |
| Integration.TurnProgress | backend/main.py:312-352 | a turn's payloads make the chunk callbacks followed by `onComplete` or `onError(classified message)` and end the turn |
| Integration.EndToEnd | frontend/src/services/ChatService.ts:61-96 | however the server's whole frames are grouped into reads, the client's trace is the non-empty chunks then exactly one `onComplete`, or one `onError` with the classified message |

## Left out

- Partial `data:` lines are not buffered across reads. The code splits each read on its own; a buffering reader in the style of section 9.2 of the WHATWG HTML Living Standard would carry them over. The model follows the code, and `ChatService.SplitFrameDropped` shows the consequence.
- `fetch`, `ReadableStream` and `TextDecoder`: reads are given as already-decoded strings.
- `JSON.parse` and `json.dumps`: these are abstract `parse`/`encode` functions, assumed to round-trip and to emit no raw newline.
- ChatService.SendMessage: callbacks are assumed not to throw. A callback that throws inside the per-line `try` (frontend/src/services/ChatService.ts:73-91) has its exception swallowed by `catch (parseError)`, and reading goes on, so further callbacks can follow a terminal one. Only the final `onComplete` after the loop would reach the outer `catch`.
- React asynchrony is not modelled: batching, late callbacks after navigation, and the fire-and-forget `refreshConversations` after completion. Each handler is one atomic method, and the refresh is a separate method.
- Session.ChatInterface.HandleSend: `handleSend` reads `Date.now()` twice (frontend/src/components/ChatInterface.tsx:198 and :204) and `new Date()` twice (:210 and :220). The model takes one `nowMs` and one `sentAt`, so it does not capture a clock tick between them, such as a `local-` id and message ids that differ by a millisecond.
- Session.MoveConversationToTop: the title candidate `message.slice(0, 40)` counts UTF-16 code units, while `Prefix` counts characters. The two differ for text outside the Basic Multilingual Plane.
- ModelDisplay.GetModelDisplayName: the display table is a map without inherited keys. The JavaScript object literal also answers keys such as `constructor`, `toString` and `__proto__` with members of `Object.prototype`, not with the id.
- A 2xx reply whose body is not valid JSON, so that `response.json()` rejects (frontend/src/services/ChatService.ts:121, :145, :160 and :178), is not modelled. A reply's body is given already parsed.
- Clocks and ids (`Date.now()`, `new Date()`, `utcnow()`, `uuid4()`) are parameters. The repository takes one clock reading per operation, although `save_message` reads the clock separately for the conversation and the message row.
- `encodeURIComponent`/`decodeURIComponent` internals: these are abstract functions. Round trip and no `/` are preconditions where needed.
- Whitespace for `trim`/`strip` is the ASCII set common to both languages, and `lower()` lower-cases ASCII letters only. Unicode rules are not modelled.
- Repository.MessageRepository.SaveMessage: a failed commit stands for any exception inside the session. Message ids are the last id plus one. That is SQLite's rule for an integer primary key without the `AUTOINCREMENT` keyword, which SQLAlchemy does not emit here, so the id of a deleted last row is reused as in the code.
- Repository.MessageRepository.GetMessagesByConversation: messages with equal timestamps come back in id order. The query orders by `timestamp` only, so the database may return such messages in any order. Server.ListMessagesEndpoint inherits this, and Repository.SummaryOf previews the highest-id message among those sharing the latest timestamp, where the query's `messages[-1]` may be another one.
- SQLAlchemy sessions, the schema migration and the legacy conversation record are not modelled.
- Row serialisation by pydantic and the `conversation_id or id` fallback of the messages endpoint are not modelled. Stored messages always carry their conversation id here.
- The FastAPI routing, CORS, logging, dotenv and start-up checks are not modelled, nor `list_conversations`, which only forwards `get_conversation_summaries`.
- LLM SDK calls are not modelled. Their outputs are given event or chunk sequences, and `upstream` stands for the selected provider's stream.
- Server.ChatStream: the request body's pydantic validation (role values, missing fields) is not modelled.
- The React rendering, `MessageList` and `ConversationSidebar` are not modelled. The textarea and model selector being disabled while loading is the contract-free `MessageInput.ControlsDisabled`.

## Findings

| source | as written | input that shows it | evidently intended | confidence | as-written member | corrected member |
|---|---|---|---|---|---|---|
| frontend/src/components/ChatInterface.tsx:182 | `handleDeleteConversation` calls `chatService.deleteConversation`, which the `ChatService` class does not define, so the call throws a TypeError and ends in the error branch | deleting any conversation, even when the server would answer 204 | a `DELETE /api/conversations/{id}` request succeeding on 2xx, as the server's endpoint expects | not executed | ChatService.DeleteAsWrittenAlwaysFails | ChatService.DeleteConversation |
