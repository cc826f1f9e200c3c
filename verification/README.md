# Jethalal chat-bot core in Dafny

A model of the message path of the Jethalal group-chat assistant. A bot
(Discord, Telegram or WhatsApp) posts a chat message. The TypeScript server
does the following:

- it validates and normalizes the message;
- it takes a per-group turn lock;
- it loads context, retrieves past messages and builds a prompt;
- it calls a chat-completions model and reduces the answer to a fail-closed
  reply decision;
- it updates memory and releases the lock.

The Python bridges turn platform updates into payloads and server answers
into replies.

The model is functional:

- immutable datatypes and pure functions for the normalizer, the decision
  engine, the prompt builder, the model-client post-processing and the
  bridge helpers;
- a registry state machine over traces of lock events;
- the two turn handlers as functions over abstract services. Each service
  either returns a value or fails.

JSON, JavaScript and Python values share one `Values.Value` type. JavaScript
and Python truthiness are two separate predicates, and so are the two
languages' whitespace sets for `trim()` and `strip()`.

Modules, in dependency order:

- `Strings` (strings.dfy): whitespace and trimming for both runtimes,
  slicing, joining, integer rendering.
- `Values` (values.dfy): dynamic values, truthiness, `||` / `??` / `or`,
  property and `dict.get` lookup, `str()`, Python attribute errors.
- `Types` (types.dfy): the shared records of `src/types/index.ts`.
- `Lock` and `LockUse` (lock.dfy): the lock registry, its invariants, and the
  call sites' use of it.
- `DecisionEngine` (decision.dfy), `Normalizer` (normalizer.dfy), `Prompt`
  (prompt.dfy), `ModelClient` (model_client.dfy).
- `Turn` (turn.dfy): the stages run under the lock.
- `Server` (server.dfy): the `POST /api/message` handler.
- `DiscordBot` (discord.dfy).
- `TelegramBridge` (telegram_bridge.dfy), `TelegramBot` (telegram_bot.dfy),
  `WhatsAppBridge` (whatsapp.dfy).

Facts about the code that the model follows and that are easy to miss:

- `decisionEngine` throws when `should_respond` is truthy and
  `response.content` is neither `null`, `undefined` nor a string, because
  `content?.trim()` then calls a missing method (src/decision-engine.ts:27). A
  falsy flag returns before that line (src/decision-engine.ts:16-22), and `?.`
  stops at a `null` content. `DecisionEngine.Decide` returns `Err` exactly in
  that case, and the turn fails with a 500.
- The handlers catch failures of the context, retrieval and memory services
  (src/index.ts:67, src/discord.ts:71), so the model lets every service fail. A
  failing memory update fails the turn, although the decision already exists.
- `Platform` is declared at src/types/index.ts:5 as three names, but
  src/normalizer.ts:12 keeps any non-nullish `platform` and src/discord.ts:46
  sends `"discord"`. A normalized platform is therefore a `Value`, not a
  `Platform`.
- The WhatsApp bridge's default endpoint is `/process` on another port
  (whatsapp_bridge.py:16-19), not the server's `/api/message`.
  `WhatsAppBridge.ServerRefusesPayload` says what the server answers when the
  bridge is pointed at it.

## Model

| member | source | states |
|---|---|---|
| Types.ParsePlatform | src/types/index.ts:5 | only `slack`, `telegram` and `whatsapp` read back as platforms, each to the platform whose name it is |
| Types.PlatformNameRoundTrip | src/types/index.ts:5 | reading back a platform's name gives that platform |
| Types.DiscordOutsidePlatforms | src/discord.ts:46 | the name the Discord bot sends is not a declared platform |
| Types.ParseType | src/types/index.ts:24 | only the four strings `text`, `poll`, `reaction`, `dm` are reply kinds; no other value (not even a coercible one) is |
| Types.TypeNameRoundTrip | src/types/index.ts:24 | reading back a reply kind's name gives that kind |
| Types.NormalizedFields | src/types/index.ts:32-35 | a normalized message carries exactly the incoming fields plus `normalized_at` and `content_trimmed` |
| Lock.GetMutex | src/lock.ts:13-20 | an existing entry is returned untouched; a missing one is created unlocked with an empty queue, as a new mutex object |
| Lock.Acquire | src/lock.ts:22-35 | the caller is granted at once exactly when the group has no entry or its mutex is unlocked, otherwise appended at the tail of the queue and not granted; other mutexes are untouched |
| Lock.Release | src/lock.ts:37-42 | the captured mutex is handed to the head of its queue (still locked, entry kept), or, with nobody waiting, unlocked and the group's entry deleted |
| Lock.HandOffSound | src/lock.ts:38-40 | handing a mutex to its first waiter keeps every waiter in one queue once and every granted caller out of the queues |
| Lock.Drop | src/lock.ts:45-47 | `releaseGroupLock` deletes the group's entry whether or not its mutex is held, and changes nothing else |
| Lock.TryAcquireSound | src/lock.ts:26-33 | granting or queueing a fresh caller keeps the registry well formed |
| Lock.InvMutualExclusion | src/lock.ts:1-4 | when every holder's mutex is locked, is its group's current entry, and no two holders share one, each group has at most one holder |
| Lock.AcquireInv | src/lock.ts:22-35 | acquiring keeps that invariant |
| Lock.ReleaseInv | src/lock.ts:37-42 | a holder's release keeps that invariant |
| Lock.DisciplinedInv | src/lock.ts:22-42 | a trace of acquisitions and once-per-holder closure calls keeps that invariant |
| Lock.DisciplinedExclusion | src/lock.ts:1-4 | with acquire and the release closure alone, every group has at most one holder after any trace |
| Lock.StepKeepsOrder | src/lock.ts:31 | no operation lets a later waiter overtake an earlier one on the same mutex |
| Lock.AcquireKeepsOrder | src/lock.ts:30-31 | a new acquirer is queued behind every waiter |
| Lock.ReleaseKeepsOrder | src/lock.ts:38-40 | a release grants only the head of the queue |
| Lock.FifoGrant | src/lock.ts:31-40 | along any trace, a waiter behind another is never granted before it |
| Lock.RunKeepsOrder | src/lock.ts:31-40 | the order between two waiters survives any trace |
| Lock.NoIdleEntryFromInit | src/lock.ts:37-42 | after any trace of acquisitions, closure calls and group releases, every registry entry names a locked mutex: an idle entry is never kept |
| Lock.RunKeepsNoIdleEntry | src/lock.ts:22-47 | every trace keeps that property |
| Lock.OtherGroupsUntouched | src/lock.ts:11-47 | an operation on one group never changes another group's entry or mutex |
| LockUse.FinallyTraceRun | src/index.ts:75-77 | the registry after two overlapping turns where the first ends with the closure and then `releaseGroupLock` |
| LockUse.FinallyBreaksExclusion | src/index.ts:75-77 | after that trace and one more acquisition, two callers hold the same group |
| LockUse.TwiceTraceRun | src/lock.ts:37-42 | the registry after a holder calls its closure a second time once the lock was handed on |
| LockUse.SecondReleaseBreaksExclusion | src/lock.ts:37-42 | a second call of a closure unlocks the mutex under the new holder, and the next acquirer is granted as well |
| LockUse.FreshGrant | src/lock.ts:13-20 | in every registry where a group has no entry but a caller still holds it, the next acquirer is granted a fresh mutex and both callers hold the group |
| LockUse.ReleaseOnce | src/lock.ts:37-42 | the corrected closure acts only for a caller that still holds the lock |
| LockUse.DropIdle | src/lock.ts:45-47 | the corrected group release deletes only an entry whose mutex is unlocked and has nobody waiting |
| LockUse.GuardedRunInv | src/lock.ts:37-47 | with the corrected closure and group release, every trace keeps the holder invariant |
| LockUse.GuardedExclusion | src/lock.ts:1-4 | with the corrected closure and group release, every trace leaves at most one holder per group, the handlers' release-then-delete included |
| Server.Handle | src/index.ts:16-78 | missing `group_id` or `content` gives 400 and nothing else; a failed acquisition gives 503 with no stage and no release; otherwise the stages, then both releases, and 200 with the decision exactly when every stage succeeded, else 500 with the failure body |
| Server.ProcessingFailed | src/index.ts:67-74 | the 500 body declines to respond and names the normalized platform and group |
| Server.ReleasedOnEveryExit | src/index.ts:75-78 | the closure is called exactly on the 200 and 500 exits, and then the two releases are the last steps and occur once each |
| Server.ReleasesClose | src/index.ts:38-78 | an acquisition, some stages, then the two releases: each release occurs once, at the end |
| Server.RegistryCalls | src/index.ts:32-77 | a request that got the lock makes exactly the registry calls acquire, closure, `releaseGroupLock`, in that order |
| Server.BlankContentPassesValidation | src/index.ts:20-27 | whitespace-only content passes validation and reaches the pipeline as the empty string |
| Turn.RunStages | src/index.ts:38-66 | stages start in the order context, retrieval, prompt, model, decision, memory, each after the previous one succeeded; a failed run stops at the stage that threw; a decision comes out exactly when all succeeded, and it is a canonical engine decision |
| Turn.AllSucceedIffNoFailure | src/index.ts:38-66 | a turn succeeds exactly when no stage throws, and a throwing stage is where the run stops |
| Turn.FailsAtMostOnce | src/index.ts:38-66 | at most one stage throws in a turn, since a throw ends it |
| Turn.Conclude | src/index.ts:60-63 | the decision stage and then the memory update; a throwing engine stops the run before the memory update; a decision comes out only when both succeed |
| Turn.ModelStageNeverFails | src/aiml-client.ts:62-69 | with the model client as the model stage, no turn fails at that stage |
| Turn.MemoryFailureFailsTurn | src/index.ts:63 | a failing memory update fails the turn after all six stages ran |
| Turn.LockCallsOfStages | src/index.ts:38-66 | the pipeline stages make no registry calls |
| Turn.PipelineHasNoLockSteps | src/index.ts:38-66 | no pipeline stage is a lock step |
| Turn.LockCallsOfTurn | src/index.ts:32-77 | a turn's registry calls are acquire, closure, `releaseGroupLock` |
| Turn.LockCallsAppend | src/index.ts:32-77 | the registry calls of two step sequences are the calls of each, in order |
| DecisionEngine.ReplyText | src/decision-engine.ts:27 | the content, trimmed, `""` when nullish, and an error exactly when it is present but not a string |
| DecisionEngine.Decide | src/decision-engine.ts:8-48 | falsy `should_respond` declines; it fails only on non-string content; a reply is kept exactly when the kind is in the enum and the content is non-blank text, with the trimmed content and the two pass-through fields; `platform` and `group_id` are always copied |
| DecisionEngine.BlankContentDeclines | src/decision-engine.ts:27-35 | blank content declines whatever the kind |
| DecisionEngine.UnknownKindDeclines | src/decision-engine.ts:25-35 | a kind outside the enum declines whatever the content |
| DecisionEngine.CanonicalFixedPoint | src/decision-engine.ts:12-47 | a canonical decision, fed back as an object, comes out unchanged |
| DecisionEngine.DecideIdempotent | src/decision-engine.ts:12-47 | applying the engine to its own output returns the same output |
| Normalizer.CoerceText | src/normalizer.ts:13-14 | the stringified field, trimmed, `""` when falsy |
| Normalizer.DisplayName | src/normalizer.ts:15 | the first truthy of `user_name`, `user_id`, `"Unknown"`, stringified and trimmed |
| Normalizer.Normalize | src/normalizer.ts:6-22 | content is the stringified field, trimmed, for every kind of value (`""` when falsy); `content_trimmed` its prefix of length min(length, 2000); platform defaulted only when nullish; ids trimmed; timestamp kept when truthy; other fields passed through unchanged |
| Normalizer.Content | src/normalizer.ts:7-8 | the coerced, trimmed content of any value and its first 2000 characters |
| Normalizer.Extra | src/normalizer.ts:11 | the fields the normalizer does not set, exactly as they came |
| Normalizer.CoerceTextOfString | src/normalizer.ts:13 | on a string field the coercion is the trim |
| Normalizer.CoerceTextStable | src/normalizer.ts:13-14 | coercing an already trimmed string returns it |
| Normalizer.NormalizedObjectFields | src/normalizer.ts:10-21 | a normalized message read back as an object yields its own fields |
| Normalizer.NormalizeTwice | src/normalizer.ts:7-20 | normalizing twice keeps content, capped content, ids, platform and extra fields |
| Normalizer.StableText | src/normalizer.ts:7-20 | the trimmed text fields are fixed by a second pass |
| Normalizer.StableExtra | src/normalizer.ts:11-12 | the platform and the carried-over fields are fixed by a second pass |
| Normalizer.NormalizeTwiceTimestamp | src/normalizer.ts:19 | a timestamp survives a second pass when the first clock reading was not empty |
| Normalizer.UserNameNotStable | src/normalizer.ts:15 | a whitespace-only name becomes `""` and a second pass then shows the user id instead |
| Normalizer.BlankUserNameBecomesEmpty | src/normalizer.ts:15 | a whitespace-only name is chosen (it is truthy) and trims to `""` |
| Normalizer.NormalizeDeclared | src/normalizer.ts:6-22 | a message of the declared shape keeps its fields trimmed and carries nothing extra |
| Prompt.RecentLines | src/prompt.ts:26 | one `[name]: content` line per recent message, in order |
| Prompt.RetrievedLines | src/prompt.ts:33 | one `- content` line per retrieved message, in order |
| Prompt.UserPromptFrame | src/prompt.ts:42-50 | the user prompt starts with the group line, quotes the message, and ends with the hint and the instruction |
| Prompt.BuildPrompt | src/prompt.ts:18-53 | the user prompt starts with the group line, the recent section, the retrieval section and the quoted sender and capped content, in that order, and ends with the hint (if any) and the JSON instruction |
| Prompt.RecentIsLastTen | src/prompt.ts:24-27 | only the last ten recent messages appear, oldest first |
| Prompt.RetrievedIsFirstFive | src/prompt.ts:29-36 | the retrieval section is empty exactly when nothing was retrieved, else a header and the first five lines |
| Prompt.JoinHead | src/prompt.ts:27 | joined lines that all start with a character start with it |
| Prompt.PlaceholderIffNoRecent | src/prompt.ts:44 | `(no recent messages)` appears exactly when the group has none |
| Prompt.HintIffDirectMention | src/prompt.ts:38-48 | the prompt ends with the mention hint exactly when `isDirectMention` is truthy |
| Prompt.HintlessEnding | src/prompt.ts:47-50 | without the hint, the prompt does not end with it |
| Prompt.PromptIgnoresFullContent | src/prompt.ts:42-47 | messages that differ only in the full content get the same prompts |
| Prompt.CallersNeverHint | src/index.ts:49 | without options no hint is shown |
| ModelClient.StripSlash | src/aiml-client.ts:14 | at most one trailing slash is removed, and only a trailing one |
| ModelClient.ApiUrl | src/aiml-client.ts:13-14 | the base as is when it contains `/chat/completions`, otherwise the base without one trailing slash followed by it |
| ModelClient.ApiUrlIdempotent | src/aiml-client.ts:14 | deriving the endpoint from a derived endpoint changes nothing |
| ModelClient.ModelText | src/aiml-client.ts:50 | the trimmed content, `{}` when missing or blank, and an error when the data is null or the content is not a string |
| ModelClient.Find | src/aiml-client.ts:53 | the first `{` at or after a position |
| ModelClient.FindLast | src/aiml-client.ts:53 | the last `}` before a position |
| ModelClient.JsonSpan | src/aiml-client.ts:53 | a span exists exactly when some `{` precedes some `}`, and it starts with `{` and ends with `}` |
| ModelClient.JsonSpanIsLeftmostLongest | src/aiml-client.ts:53-54 | the span runs from the first `{` to the last `}` |
| ModelClient.Merge | src/aiml-client.ts:55-61 | every parsed key overrides the coerced fields; the coerced flag's truthiness is the parsed flag's |
| ModelClient.Interpret | src/aiml-client.ts:43-69 | a failed call, a non-ok status, an unreadable body, bad content or unparsable JSON give the safe object; no span gives `{}` merged; otherwise the parsed object merged |
| ModelClient.CallModel | src/aiml-client.ts:13-69 | no token: no request and the safe object; otherwise one request to the derived endpoint with the bearer token, the model name and both prompts |
| ModelClient.CallModelShape | src/aiml-client.ts:17-69 | the result always carries `should_respond`, `platform` and `group_id` |
| ModelClient.InterpretShape | src/aiml-client.ts:43-69 | so does every interpreted answer |
| ModelClient.ParsedGroupIdOverrides | src/aiml-client.ts:55-61 | the model's own `group_id` replaces the caller's |
| ModelClient.BlankContentIsEmptyObject | src/aiml-client.ts:50-54 | missing and blank content both read as `{}` |
| DiscordBot.Text | src/discord.ts:38 | the content trimmed, `""` when absent |
| DiscordBot.Incoming | src/discord.ts:41-53 | the object handed to the normalizer has exactly the seven incoming fields; their values come from the helpers `GroupId`, `UserId`, `UserName`, `Timestamp` and `MessageId`, whose fallbacks `DiscordBot.Fallbacks` and the `Normalized*` lemmas state |
| DiscordBot.ReplyFor | src/discord.ts:67 | a reply exactly when the decision says to respond, its content is non-empty and the message has a channel; it is the content |
| DiscordBot.OnMessage | src/discord.ts:36-78 | bot authors and blank messages are ignored; everything else is normalized and served |
| DiscordBot.Serve | src/discord.ts:55-77 | a failed acquisition is caught and the group entry still released; otherwise the stages, the reply step when replying, and both releases |
| DiscordBot.IncomingFields | src/discord.ts:45-53 | the incoming fields looked up one by one |
| DiscordBot.NormalizedContent | src/discord.ts:45-53 | the normalized platform is `discord`, the content the trimmed text, and nothing extra |
| DiscordBot.NormalizedIds | src/discord.ts:42-47 | the ids are the Discord ones or `unknown`, trimmed |
| DiscordBot.NormalizedUserName | src/discord.ts:43-49 | the display name is the Discord one or its fallback, trimmed |
| DiscordBot.Fallbacks | src/discord.ts:42-47 | no channel gives group `unknown`; no author gives user `unknown` named `User`; `globalName` when there is no user name |
| DiscordBot.ReplyForCanonical | src/discord.ts:67 | on an engine decision the content test adds nothing, and the reply is never empty |
| DiscordBot.ReplyIffRespondInChannel | src/discord.ts:58-70 | a reply goes out exactly when every stage succeeded, the decision says to respond and there is a channel |
| DiscordBot.SendReplyIffReply | src/discord.ts:67-70 | the reply step is taken exactly when a reply goes out |
| DiscordBot.GroupAlwaysReleased | src/discord.ts:71-76 | every turn ends by releasing the group entry, and calls the closure exactly when it got the lock |
| DiscordBot.TurnShape | src/discord.ts:57-76 | the steps of a turn that got the lock: acquisition first, reply only when replying, the two releases last |
| TelegramBridge.Placeholder | Telegram.py:33-44 | every placeholder is non-empty and has no surrounding whitespace |
| TelegramBridge.FirstMedia | Telegram.py:33-44 | the first medium present in the order photo, video, document, voice, sticker, animation |
| TelegramBridge.ExtractContent | Telegram.py:25-45 | the stripped text or caption when non-empty, else the first medium's placeholder, else nothing |
| TelegramBridge.BlankTextShadowsCaption | Telegram.py:29-33 | whitespace-only text hides the caption: the message is handled as if it had neither |
| TelegramBridge.SameMedia | Telegram.py:33-44 | messages with the same media have the same first medium |
| TelegramBridge.SenderName | Telegram.py:66-71 | user name, first name, last name, `User`; without a user the chat title or `Channel`; never empty |
| TelegramBridge.Timestamp | Telegram.py:74-81 | the ISO date with `Z` appended when naive; the current time without a date |
| TelegramBridge.BuildPayload | Telegram.py:48-91 | no payload exactly when there is no message or no content; otherwise the chat id, the user id or the chat id, the sender name, the content and the timestamp |
| TelegramBridge.ReplyGate | Telegram.py:131-147 | a reply exactly when the flag is truthy, the reply is a non-empty dict and its content is truthy and non-blank; the text is the stripped content; a truthy non-dict answer raises |
| TelegramBridge.ServerReadsPayload | Telegram.py:83-91 | the server accepts every payload the bridge builds and reads back its platform, ids and timestamp unchanged, its name and content up to JavaScript's trim, with nothing extra |
| TelegramBridge.DecisionGate | Telegram.py:136-147 | on every engine decision the bridge sends the decision's content, stripped by Python's rules, exactly when the decision responds and something is left |
| TelegramBridge.SeparatorReplyDropped | Telegram.py:142-143 | a reply of U+001C is kept by the server but dropped by the bridge, whose `strip` treats it as whitespace |
| TelegramBridge.FailureBodyIsSilent | Telegram.py:136-137 | the gate declines the server's 500 body; in the code that body does not even reach it, since `urlopen` raises on a 500 and `call_jethalal` returns `None` (Telegram.py:104-113) |
| TelegramBot.UserLabel | telegram_bot.py:26 | the user name, else the first name, else the id |
| TelegramBot.SelectText | telegram_bot.py:42-44 | the `response` key by presence, else `message`; a dict's truthy content, else the value's string form when truthy |
| TelegramBot.HandleMessage | telegram_bot.py:19-49 | edited messages and channel posts have no `message` and nothing happens; no message or no text: the same; a missing user or date raises out of the handler; otherwise the payload's fields, and exactly the reply `Reply` calls for given the answer to that payload |
| TelegramBot.Reply | telegram_bot.py:34-49 | a failed request, an unreadable JSON body and a body that is not a dict each become an `Error: ` reply; no reply on a non-200 status; a dict body gives the selected text when `should_respond` is truthy and no reply otherwise |
| TelegramBot.PresenceBeatsTruthiness | telegram_bot.py:42 | an empty `response` hides a non-empty `message`, and nothing is sent |
| TelegramBot.EmptyContentSendsDict | telegram_bot.py:43-45 | a dict reply with empty content is sent as the dict's string form |
| TelegramBot.DecisionReply | telegram_bot.py:39-45 | on every engine decision the reply is the decision's content exactly when it responds |
| TelegramBot.ServerReply | telegram_bot.py:34-45 | whatever is posted, a reply comes back exactly when the server answers 200 with a decision to respond, and it is that decision's content |
| TelegramBot.ServerSeesNoSender | telegram_bot.py:23-29 | the bot's `user` key is not one the server reads: the server names every sender `Unknown` and carries the label as an extra field |
| TelegramBot.DecisionBodyReply | telegram_bot.py:42-45 | on the server's decision body the reply is the decision's content |
| WhatsAppBridge.BuildPayload | whatsapp_bridge.py:30-38 | the sender is both group and user, the body is the message |
| WhatsAppBridge.ServerRefusesPayload | whatsapp_bridge.py:30-38 | the payload carries the text as `message`, not `content`, so the server's message handler refuses every one with 400 before taking a lock |
| WhatsAppBridge.CallAi | whatsapp_bridge.py:41-51 | a JSON answer gives `response` if present, else `message`, else the object's string form; other answers their text; a non-200 status `AI error (status): text`; a non-object JSON body, an unreadable JSON body and an unreadable error text each raise |
| WhatsAppBridge.EscapeChar | whatsapp_bridge.py:56 | only `&`, `<` and `>` become entities |
| WhatsAppBridge.EscapeIsOnePass | whatsapp_bridge.py:56 | the three sequential replacements equal escaping each character once |
| WhatsAppBridge.NoRawAngles | whatsapp_bridge.py:56 | the escaped text holds no raw `<` or `>` |
| WhatsAppBridge.AmpersandsBeginEntities | whatsapp_bridge.py:56 | every `&` in the escaped text begins `&amp;`, `&lt;` or `&gt;` |
| WhatsAppBridge.EntityHead | whatsapp_bridge.py:56 | an escaped character starts with `&` only as an entity, and holds no other `&` |
| WhatsAppBridge.UnescapeStep | whatsapp_bridge.py:56 | a left-to-right decoder undoes one escaped character |
| WhatsAppBridge.UnescapeEscape | whatsapp_bridge.py:56 | the decoder recovers the original text from the escaped text |
| WhatsAppBridge.AmpersandLastBreaksRoundTrip | whatsapp_bridge.py:56 | escaping `&` last would turn `<` into text that decodes to `&lt;` |
| WhatsAppBridge.Twiml | whatsapp_bridge.py:54-57 | the XML prolog, `<Response><Message>`, the escaped text, `</Message></Response>` |
| WhatsAppBridge.TwimlCarriesText | whatsapp_bridge.py:54-57 | the message element holds no markup and decodes back to the text |
| WhatsAppBridge.Respond | whatsapp_bridge.py:79-84 | a string reply is answered with its TwiML message; any other reply, or a failed call, has no `replace` or raised, and gets the apology |
| WhatsAppBridge.Webhook | whatsapp_bridge.py:60-84 | other methods get an empty 405; a blank body gets an empty document and no AI call; an unreadable form gets the apology; otherwise the stripped body is posted for the sender and the reply answered |
| WhatsAppBridge.WebhookAnswersTwiml | whatsapp_bridge.py:60-84 | every 200 answer is the empty document, the apology, or a message holding a string the AI sent |
| WhatsAppBridge.DecisionAnswer | whatsapp_bridge.py:41-84 | on every engine decision the sender never reads the decision's text: a decision to respond gets the apology, a refusal is sent as the string form of the whole body |
| WhatsAppBridge.ObjectReplyGetsApology | whatsapp_bridge.py:49-84 | an object under `response` is returned as is, and the sender gets the apology |

## Left out

- HTTP serving and routing: express, aiohttp, JSON body parsing. Handlers take the parsed body or form as a value.
- Discord and Telegram client setup, login and polling. Also `message.reply` / `reply_text`, and failures while sending: the model says what text a handler sends, not whether delivery succeeds.
- `fetch`, `urlopen`, `requests`, aiohttp calls, `response.json()` and `JSON.parse`. These are parameters returning a value or an error.
- Asynchronous scheduling and promise microtasks. Every lock operation is one atomic step, and the lock is a state machine over event traces.
- Wall-clock time. The clock readings are parameters (`Normalizer.Clock`, `DiscordBot.Clock`, the Telegram and WhatsApp `now` strings).
- Logging: `console.log`, `print`, and the WhatsApp log file. A failure of that log inside the webhook's `try` would also give the apology. This is not modelled.
- The model's temperature 0.7, a floating-point request field. Retrieval relevance scores are floating point too; they are carried as an optional `real` and never read.
- The database, vector store, embeddings, context loader, retrieval and memory writer. They are the services of `Turn.Services`, each returning a value or failing.
- The decision engine's context argument. It is never read, so `DecisionEngine.Decide` has no such parameter.
- JavaScript strings are UTF-16 code-unit sequences. The model uses code points, so `slice(0, 2000)` and `trim()` are exact only for text without surrogate pairs.
- Python's `repr` of dicts and lists, as used by `str()`, is a parameter. Its escaping rules are not modelled.
- Numbers are integers (`Values.Num(int)`). Non-integer JSON numbers (a `should_respond` of `0.5`, say) cannot be written down, and `JSON.parse` rounding integers beyond 2^53 is not modelled.
- `Values.JsString`: a number renders as its decimal digits. JavaScript writes large and small magnitudes in exponent form (`String(1e21)` is `"1e+21"`), so a `group_id` of 10^21 names a different group in the code than in the model.
- `Values.JsString`: an object renders as `[object Object]`. `String()` on an object whose own `toString` is not callable throws a TypeError; at src/normalizer.ts:7 that happens outside the handler's `try` (src/index.ts:27), so no response is sent. The model's normalizer does not throw.
- `TelegramBridge.BuildPayload`: `update.effective_chat` is assumed present. Python would raise on a missing chat.
- `TelegramBridge.BuildPayload`: the `user_name or "Unknown"` fallback is unreachable, since the name is never empty. The model keeps the branch.
- `Prompt.BuildPrompt`: the system prompt is a constant that never depends on the inputs. The model states this by making it a member of `Prompts` with no data of its own, rather than as a contract.
- `WhatsAppBridge.Webhook`: the form is given as a map of single values. Twilio's multi-valued form fields are not modelled.
- `WhatsAppBridge.CallAi`: the content-type test is `Contains` on the header string, as in the code. A missing header is modelled as `""`.

## Findings

| source | as written | input that shows it | evidently intended | confidence | as-written member | corrected member |
|---|---|---|---|---|---|---|
| src/index.ts:75-77 | the `finally` block calls the release closure and then `releaseGroupLock`. After the closure handed the mutex to a waiter, the delete removes the entry of a lock that is still held | group g: request A acquires, request B waits, A ends (closure hands g to B, then the entry is deleted), request C acquires a fresh, unlocked mutex: B and C both hold g | at most one turn per group at a time (src/lock.ts:1-4) | not executed | LockUse.FinallyBreaksExclusion | LockUse.GuardedExclusion |
| src/lock.ts:37-42 | the release closure has no once-guard, and it works on the mutex it captured, whatever the registry now holds | group g: A acquires, B waits, A's closure runs (B holds), A's closure runs again (unlocks under B, deletes the entry), C acquires: B and C both hold g | a closure releases only the lock its caller holds | not executed | LockUse.SecondReleaseBreaksExclusion | LockUse.GuardedExclusion |
