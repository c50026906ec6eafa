# multi-llm-discussion, modelled in Dafny

The system runs a discussion between two language models, a *primary* and a
*critic*, on a topic a person chooses. The person can step in with messages or
stop the discussion at any time. The backend (Express, TypeScript) keeps the
discussions in memory. Its turn engine asks the chosen provider's adapter for
a streamed reply and publishes each fragment to the browser as a server-sent
event. The frontend (React, zustand) gathers the tokens in a buffer, flushes
them into its message list, and can export the transcript as Markdown.

This project models that core and proves properties of it:

- `types.dfy` (module `Types`): participants, messages, discussions and the
  tagged `StreamEvent`, from backend/src/types.ts. It also holds the
  `find`/concatenation helpers the other modules share.
- `controller.dfy` (`Controller`): the `DiscussionController` class, with its
  two mutable tables (discussions and loop flags) and its turn engine. A turn
  runs over an `AdapterRun`, which gives the fragments the adapter yields, how
  its stream ends, and the fragment at which a concurrent stop request lands.
- `streams.dfy` (`Streams`): the `StreamManager` class, a single-slot map from
  discussion id to a `Sink`. Each sink holds a log of the frames written to it.
- `server.dfy` (`Server`): the guard chains of the four HTTP routes of
  backend/src/index.ts. Each is a method that answers with a status and a
  body, over the controller.
- `adapters.dfy` (`AdapterStreams`, `OpenAIAdapter`, `AnthropicAdapter`,
  `BedrockAdapter`): how each adapter turns the history into a request, and
  how it filters the SDK's stream of event records down to text fragments.
- `store.dfy` (`Store`): the zustand store's reducers.
- `app.dfy` (`App`): the `DiscussionApp` class. It covers the event handler
  of frontend/src/App.tsx (the token buffer and its flush), the participants
  `handleStart` sends, and the `discussionId` guards.
- `ui_types.dfy` (`UiTypes`): the `MODEL_OPTIONS` table and lookup by id.
- `transcript.dfy` (`Transcript`): `getParticipant` and the string
  `copyAsMarkdown` builds.

The model follows the code as written, including three places where the
behaviour differs from what a reader might expect:

- A stop request that lands while a reply is streaming only ends the loop
  over fragments. The partial reply is still appended and `complete` is
  still published (`Controller.StopMidStreamStillCompletes`).
- An adapter failure publishes `error` and clears the loop flag, but leaves
  the discussion's status `running`. An intervention is therefore still
  accepted afterwards (`Controller.ErrorLeavesStatus`).
- Every provider other than `openai` is sent to the Anthropic adapter,
  `bedrock` included. The Bedrock adapter exists, but the controller never
  uses it (`Controller.AdapterFor`, `App.AdapterFollowsModelId`).

## Model

| member | source | states |
|---|---|---|
| Types.SpeakerRole | backend/src/adapters/openai.ts:19-22 | a history entry is sent as `user` exactly when its sender is `human`, and otherwise as `assistant`, never as `system` |
| Types.FindIndex | frontend/src/components/DiscussionView.tsx:24 | `Array.prototype.find` by index: the first element satisfying the predicate, or none when no element does |
| Types.Find | frontend/src/components/DiscussionView.tsx:24 | `find`: the element at the first position `FindIndex` reports, and none exactly when no element satisfies the predicate |
| UiTypes.FromBackend | frontend/src/types.ts:4 | a backend status is never `idle`; it is `running` on the page exactly when it is `running` on the server |
| UiTypes.IndexOf | frontend/src/types.ts:29-37 | every `ModelId` has an entry in `MODEL_OPTIONS` carrying that id |
| UiTypes.IndexOfEntry | frontend/src/types.ts:29-37 | looking up the id of entry `j` finds entry `j` itself |
| UiTypes.ModelOptionIdsDistinct | frontend/src/types.ts:29-37 | no two entries of `MODEL_OPTIONS` share an id |
| UiTypes.OptionFor | frontend/src/types.ts:29-37 | the entry for a model id is an entry of the table and carries that id |
| UiTypes.Lookup | frontend/src/App.tsx:60-61 | `MODEL_OPTIONS.find` by id returns only an entry of the table that carries the id |
| UiTypes.LookupIsTotal | frontend/src/App.tsx:60-61 | the `find(...)!` by model id always succeeds, and every entry with that id is the one it returns |
| UiTypes.EntryIsOptionFor | frontend/src/types.ts:29-37 | each table entry is what the lookup of its own id returns |
| UiTypes.ProviderFollowsPrefix | frontend/src/types.ts:30-36 | an entry's provider is `openai`, `anthropic` or `bedrock` exactly when its id starts with `gpt-`, `claude-` or `eu.anthropic.` respectively |
| UiTypes.EntryStartsWithPrefix | frontend/src/types.ts:30-36 | each entry's id starts with the prefix of its provider |
| Store.SetTopic | frontend/src/store.ts:37 | sets the topic and changes no other field |
| Store.SetParticipants | frontend/src/store.ts:39 | sets the participants and changes no other field |
| Store.SetStatus | frontend/src/store.ts:60 | sets the status and changes no other field |
| Store.SetDiscussionId | frontend/src/store.ts:62 | sets the discussion id and changes no other field |
| Store.SetError | frontend/src/store.ts:64 | sets the error and changes no other field |
| Store.AddMessage | frontend/src/store.ts:41-44 | one more message, at the end; the earlier messages and every other field are unchanged |
| Store.UpdateStreamingMessage | frontend/src/store.ts:46-51 | every message with the id gets the content and is marked streaming; other messages, order, length and other fields are unchanged |
| Store.CompleteStreamingMessage | frontend/src/store.ts:53-58 | every message with the id is marked not streaming; contents, other messages, order, length and other fields are unchanged |
| Store.Reset | frontend/src/store.ts:66 | restores the initial state: empty topic, participants and messages, status `idle`, no id and no error |
| Store.AbsentIdChangesNothing | frontend/src/store.ts:46-58 | updating or completing an id no message has leaves the state equal to before |
| Store.CompleteKeepsContents | frontend/src/store.ts:53-58 | completing a message never changes any message's content, id or sender |
| Store.UpdateIsIdempotent | frontend/src/store.ts:46-51 | applying the same update twice gives the same state as applying it once |
| Streams.Frame | backend/src/streamManager.ts:25 | a frame is `data: ` + payload + a blank line, and the payload can be read back from it |
| Streams.Sink.Write | backend/src/streamManager.ts:25 | appends exactly one frame to the sink's log |
| Streams.Sink.End | backend/src/streamManager.ts:32 | ends the sink and keeps its log |
| Streams.StreamManager.constructor | backend/src/streamManager.ts:5 | starts with no sinks attached |
| Streams.StreamManager.AddClient | backend/src/streamManager.ts:7-20 | the sink becomes the only one for the id, replacing any previous one; other ids keep theirs; its close handler is registered |
| Streams.StreamManager.OnClose | backend/src/streamManager.ts:17-19 | a close from any sink ever attached under the id deletes whatever the id now maps to |
| Streams.StreamManager.SendEvent | backend/src/streamManager.ts:22-27 | the event is recorded as published under the id; the registry is unchanged; the sink logs become `Deliver` of one frame of the encoded event: the id's attached sink gets it, every other sink is unchanged, and with none attached nothing changes |
| Streams.Deliver | backend/src/streamManager.ts:22-27 | frames published under an id are appended to the log of the sink attached for that id and to no other; with no sink attached no log changes |
| Streams.DeliverAppend | backend/src/streamManager.ts:22-27 | delivering two batches of frames one after the other is delivering them together |
| Streams.StreamManager.RemoveClient | backend/src/streamManager.ts:29-35 | an attached sink is ended with its log intact and detached; with none attached nothing changes |
| Streams.StreamManager.HasClient | backend/src/streamManager.ts:37-39 | true exactly when a sink is attached for the id |
| Streams.StaleCloseDetachesReplacement | backend/src/streamManager.ts:17-19 | as written: when a replaced sink closes, the sink that replaced it is detached and receives no further events |
| Streams.GuardedCloseKeepsReplacement | backend/src/streamManager.ts:17-19 | with the close handler checking its own sink: the replacement stays attached and receives the next event |
| Streams.StreamManager.OnCloseGuarded | backend/src/streamManager.ts:17-19 | the corrected close handler: deletes the entry only when it still maps to the closing sink |
| Controller.AdapterFor | backend/src/discussionController.ts:159-160 | the chat-completions adapter is chosen exactly when the provider is `openai` |
| Controller.Consumed | backend/src/discussionController.ts:170-182 | the fragments turned into tokens are all of them, unless a stop lands before one is checked, in which case it is fewer |
| Controller.ErrorText | backend/src/discussionController.ts:206 | the error event carries the exception's message, or `Unknown error` for a thrown value that is not an `Error` |
| Controller.AfterTurn | backend/src/discussionController.ts:170-200 | a turn changes only the status and the messages: the status only to `stopped` and only after a stop, the messages by at most one appended reply, under the turn's message id and from the speaker, appended exactly when the stream's exception did not reach the turn |
| Controller.FlagAfterTurn | backend/src/discussionController.ts:170-210 | the loop flag survives a turn exactly when nobody stopped it and the stream did not throw, and then every fragment was consumed |
| Controller.FindRole | backend/src/discussionController.ts:56-57 | finds a participant with the role, and finds none only when no participant has it |
| Controller.NextSpeaker | backend/src/discussionController.ts:84-85 | the critic when the primary sent the last message, otherwise the primary; always one of the two |
| Controller.NextSpeakerDiffersFromLast | backend/src/discussionController.ts:84-85 | with distinct ids, the next speaker is never the last sender, and after a human message it is the primary |
| Controller.DiscussionController.constructor | backend/src/discussionController.ts:14-22 | both tables empty, publishing through the given stream manager |
| Controller.DiscussionController.CreateDiscussion | backend/src/discussionController.ts:24-36 | stores a discussion with the topic, the participants, no messages and status `running`, sets its flag, and returns its id |
| Controller.DiscussionController.GetDiscussion | backend/src/discussionController.ts:38-40 | returns the stored discussion, or none for an unknown id |
| Controller.DiscussionController.StopDiscussion | backend/src/discussionController.ts:42-48 | a known id becomes `stopped` with its flag false; an unknown id changes nothing; stopping again changes nothing |
| Controller.DiscussionController.GenerateResponse | backend/src/discussionController.ts:142-211 | unknown id or flag false: no adapter call, nothing appended, published or written to any sink; otherwise calls the provider's adapter with the history and prompt, the tables become `AfterTurn` and `FlagAfterTurn`, the events published are `TurnEvents`, and the id's sink, and no other, receives their frames |
| Controller.DiscussionController.StreamFragments | backend/src/discussionController.ts:170-182 | publishes one `token` per consumed fragment, in order, writes their frames to the id's sink only, and accumulates their concatenation; breaks when the flag is false |
| Controller.DiscussionController.FinishTurn | backend/src/discussionController.ts:184-210 | appends the reply and publishes `complete`; when the stream threw, publishes `error` and clears the flag; the terminal event's frame goes to the id's sink only |
| Controller.DiscussionController.StartDiscussionLoop | backend/src/discussionController.ts:50-68 | throws for an unknown id or a missing role, changing nothing and writing to no sink; otherwise the primary takes a turn on the topic, whose events reach the id's sink only, and which leaves a message whenever the loop may go on |
| Controller.DiscussionController.ContinueStep | backend/src/discussionController.ts:70-104 | returns at once for an unknown id, a false flag or a missing role; fails on an empty transcript; a stop during the pause leaves it stopped without a turn; in all these no sink is written; otherwise the next speaker answers the last message and the turn's frames reach the id's sink only |
| Controller.DiscussionController.AnswerLast | backend/src/discussionController.ts:87-103 | after the pause: a stop during the pause leaves the discussion stopped with its flag false and nothing published or written; otherwise the speaker answers the last message's content with the transcript as history, the discussion and flag end as that turn leaves them, and its events are published and written to the id's sink |
| Controller.DiscussionController.CheckFlag | backend/src/discussionController.ts:171-174 | the streaming loop goes on exactly when no stop lands before this fragment; a stop marks the discussion stopped and clears its flag, and nothing is published or written either way |
| Controller.DiscussionController.AddHumanMessage | backend/src/discussionController.ts:112-126 | appends the human's message and publishes `message_start` carrying it; its frame reaches the id's sink only |
| Controller.DiscussionController.AnswerHuman | backend/src/discussionController.ts:128-137 | when there is a primary and the flag is set, the primary answers the prompt over the transcript, as `PrimaryAnswer` states, with its frames reaching the id's sink only; otherwise nothing changes; says whether the loop goes on |
| Controller.DiscussionController.HandleIntervention | backend/src/discussionController.ts:106-140 | an unknown id fails with no change to the tables, the published events or any sink; otherwise the state becomes `Intervention`'s: the human message appended and announced, then the primary's answer when the flag is set, every frame reaching the id's sink only; returns the human message's id |
| Controller.InterventionAnnouncesHuman | backend/src/discussionController.ts:106-140 | an intervention keeps the transcript and appends the human message right after it, announces it first, changes nothing more when the flag is false, and changes the status only after a stop |
| Controller.StopMidStreamStillCompletes | backend/src/discussionController.ts:170-200 | a stop before fragment k: tokens for fragments 0..k-1 only, the partial reply appended, `complete` published, status `stopped` |
| Controller.ErrorLeavesStatus | backend/src/discussionController.ts:201-210 | an adapter failure: the discussion unchanged (status included), tokens then one `error`, the flag cleared |
| Controller.TurnEventsOrdered | backend/src/discussionController.ts:170-210 | a turn publishes one token per consumed fragment in order, then exactly one terminal event, which is `complete` exactly when the stream did not fail |
| Controller.TokensSpellReply | backend/src/discussionController.ts:175-193 | the tokens of a turn, concatenated, are the content of the message it appends |
| Controller.ReplyIsPrefixOfResponse | backend/src/discussionController.ts:170-193 | the appended reply is a prefix of everything the adapter would have yielded |
| Server.TrimEmptyIffBlank | backend/src/index.ts:98 | `trim()` gives the empty string exactly when every character is white space or a line terminator |
| Server.Trim | backend/src/index.ts:98 | `trim()` returns a stretch of the text with only trimmable characters before and after it, and starting and ending with characters it keeps |
| Server.StartGuard | backend/src/index.ts:41-44 | refuses with 400 exactly when the topic is missing or empty, the participants are missing, or there are not exactly two |
| Server.ContentGuard | backend/src/index.ts:98-101 | refuses with 400 exactly when the content is missing or only white space |
| Server.Start | backend/src/index.ts:37-58 | refused: 400 and nothing created; otherwise exactly one discussion created, `running` with its flag set, and its id returned, roles unchecked |
| Server.Subscribe | backend/src/index.ts:61-90 | an unknown id: 404, no sink attached and no close listener registered; otherwise the response becomes the id's only sink and its close listener is registered |
| Server.Intervene | backend/src/index.ts:93-120 | 400 for blank content before the lookup, then 404 for an unknown id, then 400 when stopped, each changing no table, published event or sink; otherwise the state becomes `Intervention`'s for the content as sent, and the human message's id is answered |
| Server.Stop | backend/src/index.ts:123-139 | 404 for an unknown id, changing neither table; otherwise the discussion is stopped, its flag cleared, and `{status: 'stopped'}` answered |
| Server.StopThenIntervene | backend/src/index.ts:109-112 | after a stop, an intervention with content is refused with "Discussion has been stopped" |
| AdapterStreams.Drain | backend/src/adapters/openai.ts:32-37 | the `for await` loop yields exactly the picked texts, in arrival order |
| AdapterStreams.YieldsAppend | backend/src/adapters/openai.ts:32-37 | the fragments of two stretches of a stream are the fragments of each, one after the other |
| AdapterStreams.YieldsMembers | backend/src/adapters/anthropic.ts:40-44 | a text is yielded exactly when some event's picked text is that text |
| OpenAIAdapter.RequestMessages | backend/src/adapters/openai.ts:17-24 | the history's length + 2 entries: the system prompt first, each history entry in order with its content and the role its sender calls for, the prompt as `user` last |
| OpenAIAdapter.DeltaText | backend/src/adapters/openai.ts:33-34 | a chunk yields only a non-empty text |
| OpenAIAdapter.StreamResponse | backend/src/adapters/openai.ts:11-38 | the request has the model, the message list above and `stream: true`; the fragments are the chunks' non-empty delta contents |
| OpenAIAdapter.FragmentsAreDeltaContents | backend/src/adapters/openai.ts:32-37 | a text is yielded exactly when it is non-empty and some chunk's `choices[0].delta.content` is that text |
| OpenAIAdapter.DeltaTextIsNonEmptyText | backend/src/adapters/openai.ts:33-34 | a chunk yields its delta content exactly when that content is not empty |
| OpenAIAdapter.FragmentsSpellResponse | backend/src/adapters/openai.ts:32-37 | dropping empty contents loses no text: the fragments concatenate to all the chunks' contents |
| OpenAIAdapter.PromptRepeatsLastEntry | backend/src/adapters/openai.ts:19-23 | when the prompt is the last message's content, as in a continuing turn, it is sent twice: once as history and once as the final `user` entry |
| AnthropicAdapter.Messages | backend/src/adapters/anthropic.ts:18-30 | the history's length + 1 messages: each history entry in order with its content and the role its sender calls for, then the prompt as `user`, and no `system` entry |
| AnthropicAdapter.BuildMessages | backend/src/adapters/anthropic.ts:18-30 | the loop builds exactly `Messages` of the history and the prompt |
| AnthropicAdapter.DeltaText | backend/src/adapters/anthropic.ts:41 | an event yields text exactly when it is a `content_block_delta` with a `text_delta` |
| AnthropicAdapter.StreamResponse | backend/src/adapters/anthropic.ts:11-45 | the request has the model, `max_tokens` 4096, the system prompt apart from the messages, the message list `Messages`, and `stream: true`; the fragments are the text deltas |
| AnthropicAdapter.FragmentsAreTextDeltas | backend/src/adapters/anthropic.ts:40-44 | a text is yielded exactly when some event is a `text_delta` carrying it |
| AnthropicAdapter.SameConversationAsChatCompletions | backend/src/adapters/anthropic.ts:18-30 | the messages protocol sends the same conversation as the chat-completions one, without its leading system entry |
| BedrockAdapter.Messages | backend/src/adapters/bedrock.ts:22-43 | the history's length + 1 messages: each history entry in order as a single text block with the role its sender calls for, then the prompt as a `user` text block, and no `system` entry |
| BedrockAdapter.BuildMessages | backend/src/adapters/bedrock.ts:22-43 | the loop builds exactly `Messages` of the history and the prompt |
| BedrockAdapter.DeltaText | backend/src/adapters/bedrock.ts:59 | an event yields only a non-empty text |
| BedrockAdapter.StreamResponse | backend/src/adapters/bedrock.ts:15-64 | the request has the model, the system prompt as one text block, the message list `Messages`, `maxTokens` 4096 and `temperature` 1.0; no stream yields nothing, otherwise the truthy delta texts |
| BedrockAdapter.FragmentsAreNonEmpty | backend/src/adapters/bedrock.ts:57-63 | every fragment yielded is non-empty |
| BedrockAdapter.SameConversationAsMessages | backend/src/adapters/bedrock.ts:22-43 | the Converse conversation is the messages protocol's, each text wrapped in a single text block |
| App.FindMessage | frontend/src/App.tsx:137 | finds a message with the id, and finds none only when no message has it |
| App.TokenArrived | frontend/src/App.tsx:129-148 | a `token` event appends the token to its id's buffered text and leaves every other buffered id as it was; an id no message has gets a new streaming message holding the token, and otherwise the store is unchanged |
| App.Flushed | frontend/src/App.tsx:109-116 | flushing keeps the number, ids and senders of the messages, and leaves unbuffered ones untouched |
| App.Flush | frontend/src/App.tsx:105-119 | an empty buffer changes nothing; otherwise the buffer is emptied, only the messages change, their number, ids and senders are kept, messages with no buffered text are untouched, and buffered ones are marked streaming |
| App.Completed | frontend/src/App.tsx:159-163 | `complete` empties the buffer, keeps the number, ids and senders of the messages and every other field, and marks every message with the id not streaming |
| App.Receive | frontend/src/App.tsx:125-182 | a `token` leaves a message with its id and adds the id to the buffer; `complete` empties the buffer; `message_start` appends the human's message without a streaming flag; `error` leaves the messages and the buffer and shows a non-empty error |
| App.DiscussionApp.constructor | frontend/src/store.ts:25-32 | the page starts with the initial store, an empty buffer and no open stream |
| App.DiscussionApp.OnToken | frontend/src/App.tsx:129-157 | the state becomes that of the `token` reducer |
| App.DiscussionApp.FlushTokenBuffer | frontend/src/App.tsx:105-119 | visiting the buffered ids in any order yields the flush: each buffered id with a message shows that message's content followed by its buffered text, ids with no message are skipped, and the buffer is cleared |
| App.DiscussionApp.OnMessage | frontend/src/App.tsx:125-182 | the state becomes that of the `onmessage` reducer for the event |
| App.DiscussionApp.HandleStart | frontend/src/App.tsx:45-102 | sends exactly the two participants; on success stores the id and shows `running`; on failure shows the error and `idle` |
| App.DiscussionApp.HandleIntervention | frontend/src/App.tsx:190-202 | without a discussion id nothing is sent and nothing changes; otherwise the message is sent and only a failure changes the page |
| App.DiscussionApp.HandleStop | frontend/src/App.tsx:204-221 | without a discussion id nothing is sent and nothing changes; otherwise the page shows `stopped` and closes its stream, or shows the failure |
| App.StartParticipants | frontend/src/App.tsx:57-76 | exactly `[primary, critic]`, with those roles, and the provider and name of each model's table entry |
| App.StartParticipantsAccepted | frontend/src/App.tsx:57-76 | with a non-empty topic the list passes the start route's guard, and the loop finds the primary and the critic where they were put |
| App.AdapterFollowsModelId | frontend/src/types.ts:30-36 | a model is served by the chat-completions adapter exactly when its id starts with `gpt-`; the `eu.anthropic.` models go to the Anthropic adapter |
| App.TokenExtendsPending | frontend/src/App.tsx:131-133 | a token for a message already shown adds exactly that token to what it will show |
| App.FirstTokenPendingTwice | frontend/src/App.tsx:131-148 | the first token of a new message is both its content and the start of its buffer |
| App.FlushKeepsPending | frontend/src/App.tsx:109-116 | a flush shows exactly the text that was pending for a message |
| App.CompleteShowsPending | frontend/src/App.tsx:159-163 | `complete` flushes and then marks the message no longer streaming, showing exactly what was pending |
| App.TokensPending | frontend/src/App.tsx:129-148 | after the tokens of a new message, what it will show is the first token followed by all the tokens |
| App.TokenLeavesMessage | frontend/src/App.tsx:136-148 | after a `token` event a message with its id exists |
| App.FirstTokenShownTwice | frontend/src/App.tsx:129-163 | as written, a completed reply shows its first token twice: the tokens "a", "b" show "aab" |
| App.IntendedTokensPending | frontend/src/App.tsx:129-148 | without the double buffering, what a new message will show is exactly its tokens |
| App.TokenArrivedIntended | frontend/src/App.tsx:129-148 | the corrected handler: the first token of a new id creates its message and is not buffered; a later token only extends the id's buffer |
| App.IntendedTokenExtendsPending | frontend/src/App.tsx:131-133 | without the double buffering, a later token leaves the store alone and adds exactly itself to what will be shown |
| App.IntendedTokensSpellReply | frontend/src/App.tsx:129-163 | without the double buffering, a completed reply shows exactly the concatenation of its tokens |
| App.ErrorAlwaysShown | frontend/src/App.tsx:177-180 | an `error` event always leaves a non-empty error, its own text when that is non-empty |
| Transcript.GetParticipant | frontend/src/components/DiscussionView.tsx:22-25 | none for `human`; otherwise a participant with that id, and none only when no participant has it |
| Transcript.SenderLabel | frontend/src/components/DiscussionView.tsx:31 | `You` for the human; otherwise the participant's display name, or `LLM` when it is missing or empty |
| Transcript.Block | frontend/src/components/DiscussionView.tsx:33 | a block is `### `, the name, ` (`, the stamp, `)` and a blank line, then the content verbatim, then a newline |
| Transcript.JoinLength | frontend/src/components/DiscussionView.tsx:35 | n parts joined give their lengths plus n-1 separators |
| Transcript.JoinPlacesPart | frontend/src/components/DiscussionView.tsx:35 | part i sits verbatim at its offset, with the separator right before it |
| Transcript.OffsetsIncrease | frontend/src/components/DiscussionView.tsx:35 | each part ends, and a separator follows, before any later part starts |
| Transcript.Blocks | frontend/src/components/DiscussionView.tsx:28-34 | one block per message |
| Transcript.CopyAsMarkdown | frontend/src/components/DiscussionView.tsx:27-35 | the export is empty exactly when the transcript is, and otherwise starts with the first block's `### ` |
| Transcript.ExportLength | frontend/src/components/DiscussionView.tsx:27-35 | an empty transcript exports `""`; otherwise the length is the blocks' plus n-1 separators |
| Transcript.ExportShowsContent | frontend/src/components/DiscussionView.tsx:27-35 | every message's content appears verbatim in the export, at its place |
| Transcript.ExportKeepsOrder | frontend/src/components/DiscussionView.tsx:27-35 | earlier messages' contents come before later ones' in the export |

## Left out

- Express wiring is not modelled: middleware, environment checks, SSE headers, socket timeouts and the 15 s keep-alive. It is I/O plumbing.
- The 500 answers of the `catch` blocks in backend/src/index.ts are not modelled. None of the modelled paths throws into them.
- The SDK clients and the network are not modelled. Each adapter takes the SDK's stream as a given sequence of event records, and a turn takes the adapter's output as an `AdapterRun`.
- Concurrency is not modelled: the detached async recursion, the 2000 ms pause, and a second loop started by an intervention. `Controller.DiscussionController.ContinueStep` is one invocation of `continueDiscussionLoop`, returning whether it would schedule itself again. A stop during the pause is its `stopWhileWaiting` input. A stop during streaming is the run's `stopAt`.
- The pause is awaited, so the recursion in `continueDiscussionLoop` becomes a sequence of `ContinueStep` calls made by the caller. The model does not iterate them itself.
- uuid generation, `Date` and `console` are not modelled. Ids and timestamps are parameters.
- `JSON.stringify` is the stream manager's opaque `encode` function.
- The backend's `Discussion` objects are shared by reference: the transcript passed to an adapter is the array later pushed to. The model passes values. Every adapter builds its request before the first fragment, so nothing observable changes.
- An exception value is modelled only as its message, or none when the thrown value is not an `Error`.
- The Bedrock adapter's request shaping and filtering are modelled, but the controller never calls that adapter, as the code has it.
- `EventSource`, `fetch` and the 50 ms flush timer are not modelled. A flush is an explicit step (`App.DiscussionApp.FlushTokenBuffer`). A request's outcome is a parameter of the action that sends it.
- `App.Receive`: a `message_start` event without a message is not modelled, since the backend always sends one.
- `navigator.clipboard` and `toLocaleString` are not modelled. The timestamp's text is a `stamp` function parameter of `Transcript.CopyAsMarkdown`.
- JSX and the presentation components are not modelled: ConfigurationForm.tsx, InterventionInput.tsx, MessageBubble.tsx and tailwind.config.js. Their only logic is a `trim()` guard and styling.
- Strings are sequences of characters. `String.prototype.trim` is modelled by the ECMA-262 white-space and line-terminator set.

## Findings

| source | as written | input that shows it | evidently intended | confidence | as-written member | corrected member |
|---|---|---|---|---|---|---|
| frontend/src/App.tsx:129-148 | the first `token` of a new message becomes its content and is also buffered; the flush then appends the buffer to the content | tokens "a", "b" for a new message, then `complete`: the page shows "aab" | the reply shows "ab", the concatenation of its tokens | not executed | App.FirstTokenShownTwice | App.IntendedTokensSpellReply |
| backend/src/streamManager.ts:17-19 | the close handler deletes the id's entry whichever response is attached now | attach sink A, attach sink B for the same id (a reconnect), then A's close fires: B is detached and gets no events | a closing response removes the entry only if it is still the attached one | not executed | Streams.StaleCloseDetachesReplacement | Streams.GuardedCloseKeepsReplacement |

The frontend's event handler (`App.Receive`) keeps the behaviour as written,
since it is the page's actual behaviour. The corrected token handler,
`App.TokenArrivedIntended`, is what the corrected lemmas are proved about.
`Streams.StreamManager.OnCloseGuarded` is the corrected close handler.
