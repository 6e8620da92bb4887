# OneBot 11 bot event feed, modelled in Dafny

This project models the event-feed core of the OneBot 11 bot in simbot's OneBot component (`OneBotBotImpl`):
- how the bot connects to the OneBot implementation's event WebSocket with retry;
- how it reads frames and decodes each one into a raw OneBot event;
- how it maps each raw event to a simbot domain event class and hands it to the event processor;
- how it reconnects after a connection drops;
- how `start` replaces the current event session;
- login identity: `queryLoginInfo`, the `loginInfoResult` getter, `userId`, `name` and `isMe`;
- the construction-time check that a client is not given both an engine and an engine factory.

Modules, following the structure of the source:

- `Wrappers`: `Option` and `Result`.
- `Json`: the three kinds of JSON element the decoder distinguishes: primitive, `null` and structured.
- `RawEvents`: the raw OneBot event classes the dispatch tells apart, with their subtype constants.
- `FrameDecoder`: `resolveRawEvent`. The JSON library is a parameter (`Codec`), and so are the serializer registry and typed deserialization. Every branch of the decoder is modelled against them, including the unknown-event fallback and its defaults (`time` -1, `self_id` 0).
- `EventMapper`: `resolveRawEventToEvent`, which maps each raw event class to its domain event class.
- `ConnectRetry`: the retry loop of `createSessionWithRetry` in closed form (`Expected`), with its boundary behaviour proved:
  - a negative maximum makes no attempt;
  - a maximum of 0 makes one attempt and never connects;
  - with a maximum N > 0, success after exactly N failures still returns null;
  - with a maximum N > 0, N + 1 failures throw, after N delays.
- `EventFeed`: the specification of the receive loop (`Receive`) and of the reconnect loop (`Launch`). Each has a form that follows its method's loop (`ReceiveFrom`, `LaunchFrom`), and a lemma proves the two forms agree. It also gives an independent characterization of what is pushed: the dispatched payloads of the frames before the first close or cancellation, up to the first payload that fails to decode.
- `Bot`: the classes `OneBotBot` and `WsEventSession`, whose methods change the bot's login info, session, started flag, job state and event queue. Each method is proved against the functions above.

The transport is a parameter. Each connection's attempt outcomes come as a `seq<bool>`, and the frame results each connection delivers come as a `seq<FrameResult>`. The event processor is modelled as the bot's queue `pushed`, where events are appended in push order.

## Model

| member | source | states |
|---|---|---|
| ConnectRetry.ClampDelay | simbot-component-onebot-v11/simbot-component-onebot-v11-core/src/commonMain/kotlin/love/forte/simbot/component/onebot/v11/core/bot/internal/OneBotBotImpl.kt:128 | the retry delay is the configured milliseconds clamped at zero: never below the input, and either the input or 0 |
| ConnectRetry.FirstSuccess | simbot-component-onebot-v11/simbot-component-onebot-v11-core/src/commonMain/kotlin/love/forte/simbot/component/onebot/v11/core/bot/internal/OneBotBotImpl.kt:295-300 | the first connect attempt that succeeds: it succeeds and every earlier one fails; None exactly when no attempt succeeds |
| ConnectRetry.Expected | simbot-component-onebot-v11/simbot-component-onebot-v11-core/src/commonMain/kotlin/love/forte/simbot/component/onebot/v11/core/bot/internal/OneBotBotImpl.kt:291-336 | the retry loop in closed form, by first success and maximum N: no attempt for a negative maximum, null after one attempt for 0, the session of the first success below N, null for a first success at exactly N, a throw after N + 1 failures; its contract: at most N + 1 attempts, no more delays than attempts, a returned session is a successful attempt below N after exactly that many failures, and a throw comes only after all N + 1 attempts fail |
| ConnectRetry.AlwaysFailingExhausts | simbot-component-onebot-v11/simbot-component-onebot-v11-core/src/commonMain/kotlin/love/forte/simbot/component/onebot/v11/core/bot/internal/OneBotBotImpl.kt:295-323 | with a maximum N > 0 and every attempt failing, the loop makes N + 1 attempts, waits the delay after each of the first N failures, and then throws with retryTimes N + 1 |
| ConnectRetry.ConnectsAfterFailures | simbot-component-onebot-v11/simbot-component-onebot-v11-core/src/commonMain/kotlin/love/forte/simbot/component/onebot/v11/core/bot/internal/OneBotBotImpl.kt:295-335 | if attempt k < N is the first success, the session of attempt k is returned after k failures and k delays |
| ConnectRetry.SuccessAtLastRetryIsNull | simbot-component-onebot-v11/simbot-component-onebot-v11-core/src/commonMain/kotlin/love/forte/simbot/component/onebot/v11/core/bot/internal/OneBotBotImpl.kt:327-333 | a first success at attempt N (after exactly N failures) still returns null, because retryTimes >= N |
| ConnectRetry.ZeroMaximumNeverConnects | simbot-component-onebot-v11/simbot-component-onebot-v11-core/src/commonMain/kotlin/love/forte/simbot/component/onebot/v11/core/bot/internal/OneBotBotImpl.kt:295-335 | a maximum of 0 makes exactly one attempt and returns null whether it succeeds or not; the delay is waited only after a failure |
| ConnectRetry.NegativeMaximumMakesNoAttempt | simbot-component-onebot-v11/simbot-component-onebot-v11-core/src/commonMain/kotlin/love/forte/simbot/component/onebot/v11/core/bot/internal/OneBotBotImpl.kt:295 | a negative maximum makes no attempt, waits no delay and returns null |
| ConnectRetry.ConnectedIff | simbot-component-onebot-v11/simbot-component-onebot-v11-core/src/commonMain/kotlin/love/forte/simbot/component/onebot/v11/core/bot/internal/OneBotBotImpl.kt:291-336 | a session is returned if and only if some attempt with index below the maximum succeeds |
| ConnectRetry.DelaysAreTheClampedDelay | simbot-component-onebot-v11/simbot-component-onebot-v11-core/src/commonMain/kotlin/love/forte/simbot/component/onebot/v11/core/bot/internal/OneBotBotImpl.kt:128 | every delay the loop waits is the configured delay clamped at zero, with at most one delay per attempt |
| FrameDecoder.PrimitiveField | simbot-component-onebot-v11/simbot-component-onebot-v11-core/src/commonMain/kotlin/love/forte/simbot/component/onebot/v11/core/bot/internal/OneBotBotImpl.kt:485-490 | reading a field's primitive content: an absent field gives nothing, a present primitive gives its content, and a structured value is a failure (and only it is) |
| FrameDecoder.LongFieldOr | simbot-component-onebot-v11/simbot-component-onebot-v11-core/src/commonMain/kotlin/love/forte/simbot/component/onebot/v11/core/bot/internal/OneBotBotImpl.kt:493-494 | an absent field gives the default; a present primitive gives its long value when it parses and fails when it does not; a structured value fails |
| FrameDecoder.SubTypeFieldName | simbot-component-onebot-v11/simbot-component-onebot-v11-core/src/commonMain/kotlin/love/forte/simbot/component/onebot/v11/core/bot/internal/OneBotBotImpl.kt:489 | the subtype field is the registry's name for the post type when it has one, else the post type followed by `_type` |
| FrameDecoder.ToUnknown | simbot-component-onebot-v11/simbot-component-onebot-v11-core/src/commonMain/kotlin/love/forte/simbot/component/onebot/v11/core/bot/internal/OneBotBotImpl.kt:492-496 | the fallback is an unknown event carrying the post type and the whole raw text; `time` and `self_id` are their parsed longs when present and -1 and 0 when absent; it fails exactly when one of them is present but not a long |
| FrameDecoder.ResolveRawEvent | simbot-component-onebot-v11/simbot-component-onebot-v11-core/src/commonMain/kotlin/love/forte/simbot/component/onebot/v11/core/bot/internal/OneBotBotImpl.kt:479-508 | malformed JSON and a missing `post_type` fail; only a primitive `post_type` can succeed; an absent or unregistered subtype gives the unknown-event fallback; a structured subtype fails; otherwise the result is the typed decode of the object, succeeding exactly when it does |
| EventMapper.ResolveRawEventToEvent | simbot-component-onebot-v11/simbot-component-onebot-v11-core/src/commonMain/kotlin/love/forte/simbot/component/onebot/v11/core/bot/internal/OneBotBotImpl.kt:605-676 | every event carries the raw text and raw event, and every domain class is built from its own raw class; unknown and unsupported each follow their raw condition in both directions; a supported event keeps its post type; group and private messages map to message classes of their own kind and never to unsupported; self poke exactly when the target is the bot, otherwise member poke |
| EventMapper.GroupMessageDispatch | simbot-component-onebot-v11/simbot-component-onebot-v11-core/src/commonMain/kotlin/love/forte/simbot/component/onebot/v11/core/bot/internal/OneBotBotImpl.kt:614-625 | normal, anonymous and notice group messages map to their own classes, in both directions |
| EventMapper.PrivateMessageDispatch | simbot-component-onebot-v11/simbot-component-onebot-v11-core/src/commonMain/kotlin/love/forte/simbot/component/onebot/v11/core/bot/internal/OneBotBotImpl.kt:628-636 | friend and group private messages map to their own classes, in both directions |
| EventMapper.NotifyDispatch | simbot-component-onebot-v11/simbot-component-onebot-v11-core/src/commonMain/kotlin/love/forte/simbot/component/onebot/v11/core/bot/internal/OneBotBotImpl.kt:658-670 | honor and lucky king map to their classes in both directions; a poke without a target is a member poke |
| EventMapper.MemberChangeDispatch | simbot-component-onebot-v11/simbot-component-onebot-v11-event/src/commonMain/kotlin/love/forte/simbot/component/onebot/v11/event/notice/RawGroupIncreaseEvent.kt:41-57 | group increase and decrease notices map to the member increase and decrease classes and keep the raw event whole, the optional operator id included |
| EventFeed.Dispatch | simbot-component-onebot-v11/simbot-component-onebot-v11-core/src/commonMain/kotlin/love/forte/simbot/component/onebot/v11/core/bot/internal/OneBotBotImpl.kt:451-470 | a payload that is not a JSON object, or has no `post_type`, is never pushed and gives that error; whatever is pushed is a mapped event carrying the payload as its raw text; a payload with a post type but no subtype, time or self id is pushed as an unknown event with time -1 and self id 0; it succeeds exactly when the decode does |
| EventFeed.Receive | simbot-component-onebot-v11/simbot-component-onebot-v11-core/src/commonMain/kotlin/love/forte/simbot/component/onebot/v11/core/bot/internal/OneBotBotImpl.kt:409-473 | the receive loop pushes at most one event per frame result and always ends for a reason other than an inactive job |
| EventFeed.Feed | simbot-component-onebot-v11/simbot-component-onebot-v11-core/src/commonMain/kotlin/love/forte/simbot/component/onebot/v11/core/bot/internal/OneBotBotImpl.kt:451-470 | a payload is resolved and mapped; when that succeeds its event is pushed before anything that follows and the loop goes on with the remaining frames; when it fails the loop stops at that payload with that error and nothing pushed for it |
| EventFeed.ReceiveFromIsReceive | simbot-component-onebot-v11/simbot-component-onebot-v11-core/src/commonMain/kotlin/love/forte/simbot/component/onebot/v11/core/bot/internal/OneBotBotImpl.kt:409-473 | the receive loop read one frame result at a time onto a queue appends to it exactly what the recursive specification pushes, and ends the same way |
| EventFeed.Live | simbot-component-onebot-v11/simbot-component-onebot-v11-core/src/commonMain/kotlin/love/forte/simbot/component/onebot/v11/core/bot/internal/OneBotBotImpl.kt:414-433 | the frame results the loop reads: the longest prefix holding no close or cancellation, followed (if anything follows) by one that ends the loop |
| EventFeed.DecodedPrefix | simbot-component-onebot-v11/simbot-component-onebot-v11-core/src/commonMain/kotlin/love/forte/simbot/component/onebot/v11/core/bot/internal/OneBotBotImpl.kt:451-468 | the number of leading payloads that decode: all of them decode, and the next one, if any, does not |
| EventFeed.ReceivePushesDispatchedPayloads | simbot-component-onebot-v11/simbot-component-onebot-v11-core/src/commonMain/kotlin/love/forte/simbot/component/onebot/v11/core/bot/internal/OneBotBotImpl.kt:411-471 | the pushed events are exactly the dispatched payloads of the text and binary frames before the first close or cancellation, in wire order, up to the first payload that fails to decode; the loop ends with a decode failure exactly when there is one, at that payload |
| EventFeed.ReceiveEndsWhereLiveEnds | simbot-component-onebot-v11/simbot-component-onebot-v11-core/src/commonMain/kotlin/love/forte/simbot/component/onebot/v11/core/bot/internal/OneBotBotImpl.kt:411-433 | when no payload fails to decode, the loop ends with the frames exhausted exactly when no Closed or cancellation occurs, with the remote close exactly when the first such frame is Closed, and cancelled exactly when it is a cancellation |
| EventFeed.SkippedFramesChangeNothing | simbot-component-onebot-v11/simbot-component-onebot-v11-core/src/commonMain/kotlin/love/forte/simbot/component/onebot/v11/core/bot/internal/OneBotBotImpl.kt:428-449 | a non-cancellation failure or a frame that is neither text nor binary is skipped without any effect |
| EventFeed.MalformedFrameIsFatal | simbot-component-onebot-v11/simbot-component-onebot-v11-core/src/commonMain/kotlin/love/forte/simbot/component/onebot/v11/core/bot/internal/OneBotBotImpl.kt:451-468 | a text frame that is not a JSON object stops the loop with a decode failure; the events before it stay pushed and nothing after it is read |
| EventFeed.ReceiveAppend | simbot-component-onebot-v11/simbot-component-onebot-v11-core/src/commonMain/kotlin/love/forte/simbot/component/onebot/v11/core/bot/internal/OneBotBotImpl.kt:411-471 | over two stretches of frames, the second is read only when the first runs out, and its events follow the first's |
| EventFeed.LaunchFromIsLaunch | simbot-component-onebot-v11/simbot-component-onebot-v11-core/src/commonMain/kotlin/love/forte/simbot/component/onebot/v11/core/bot/internal/OneBotBotImpl.kt:349-406 | the reconnect loop run one pass at a time onto a queue appends to it exactly what the recursive specification pushes, and ends the same way |
| EventFeed.Launch | simbot-component-onebot-v11/simbot-component-onebot-v11-core/src/commonMain/kotlin/love/forte/simbot/component/onebot/v11/core/bot/internal/OneBotBotImpl.kt:349-406 | the reconnect loop over the modelled connections: passes follow each other until one stops the loop or the rounds run out; it never ends as if the job were inactive, and a receive failure ends it at a payload that fails to decode |
| EventFeed.RoundStep | simbot-component-onebot-v11/simbot-component-onebot-v11-core/src/commonMain/kotlin/love/forte/simbot/component/onebot/v11/core/bot/internal/OneBotBotImpl.kt:352-372 | one pass: reconnect with retry only when no connection is held; a pass stops the loop only on a retry loop that threw or returned null, or on a decode failure; with a connection held only a decode failure can stop it; a pass that gets no connection pushes nothing |
| EventFeed.LaunchRound | simbot-component-onebot-v11/simbot-component-onebot-v11-core/src/commonMain/kotlin/love/forte/simbot/component/onebot/v11/core/bot/internal/OneBotBotImpl.kt:349-399 | one pass, then the later passes, each of which reconnects; what the pass pushes comes first; the loop never ends as if the job were inactive, and a receive failure names a payload that fails to decode |
| EventFeed.RoundConnection | simbot-component-onebot-v11/simbot-component-onebot-v11-core/src/commonMain/kotlin/love/forte/simbot/component/onebot/v11/core/bot/internal/OneBotBotImpl.kt:353-361 | a pass receives on the held connection when there is one; otherwise on the connection the retry loop returns, and on none exactly when it returns none |
| EventFeed.LaunchHoldsLastConnection | simbot-component-onebot-v11/simbot-component-onebot-v11-core/src/commonMain/kotlin/love/forte/simbot/component/onebot/v11/core/bot/internal/OneBotBotImpl.kt:364 | once a pass has reached its receive loop (the loop ran out of rounds or a payload failed to decode), the session holds a connection |
| EventFeed.ReconnectsAfterEveryDrop | simbot-component-onebot-v11/simbot-component-onebot-v11-core/src/commonMain/kotlin/love/forte/simbot/component/onebot/v11/core/bot/internal/OneBotBotImpl.kt:349-399 | when every reconnect connects and no payload fails to decode, every dropped connection is followed by a reconnect, and the loop pushes what each connection received, in connection order |
| EventFeed.NoReconnectWithoutPositiveMaximum | simbot-component-onebot-v11/simbot-component-onebot-v11-core/src/commonMain/kotlin/love/forte/simbot/component/onebot/v11/core/bot/internal/OneBotBotImpl.kt:351-361 | with a maximum of zero or less, a reconnect never yields a connection, so the loop ends there with nothing pushed |
| Bot.ConfigConflict | simbot-component-onebot-v11/simbot-component-onebot-v11-core/src/commonMain/kotlin/love/forte/simbot/component/onebot/v11/core/bot/internal/OneBotBotImpl.kt:130-170 | construction is refused exactly when the API client or the WebSocket client has both an engine and an engine factory; the API client is checked first |
| Bot.OneBotBot.Create | simbot-component-onebot-v11/simbot-component-onebot-v11-core/src/commonMain/kotlin/love/forte/simbot/component/onebot/v11/core/bot/internal/OneBotBotImpl.kt:105-109 | construction fails exactly on an engine conflict, with that conflict; otherwise a new bot with the given codec, the configured maximum retry count and the clamped retry delay, no login info, no session, not started, an active job and nothing pushed |
| Bot.OneBotBot.constructor | simbot-component-onebot-v11/simbot-component-onebot-v11-core/src/commonMain/kotlin/love/forte/simbot/component/onebot/v11/core/bot/internal/OneBotBotImpl.kt:93-128 | the bot keeps the configured maximum retry count and the clamped retry delay, and starts with no login info, no session, not started and an active job |
| Bot.OneBotBot.QueryLoginInfo | simbot-component-onebot-v11/simbot-component-onebot-v11-core/src/commonMain/kotlin/love/forte/simbot/component/onebot/v11/core/bot/internal/OneBotBotImpl.kt:208-212 | the remote call's result is returned, and it is stored only when the call succeeds |
| Bot.OneBotBot.LoginInfoResult | simbot-component-onebot-v11/simbot-component-onebot-v11-core/src/commonMain/kotlin/love/forte/simbot/component/onebot/v11/core/bot/internal/OneBotBotImpl.kt:214-218 | fails with "not initialised" exactly until a login query has succeeded; then it is the stored login info |
| Bot.OneBotBot.UserId | simbot-component-onebot-v11/simbot-component-onebot-v11-core/src/commonMain/kotlin/love/forte/simbot/component/onebot/v11/core/bot/internal/OneBotBotImpl.kt:220-221 | the stored login info's user id, failing exactly when there is none |
| Bot.OneBotBot.Name | simbot-component-onebot-v11/simbot-component-onebot-v11-core/src/commonMain/kotlin/love/forte/simbot/component/onebot/v11/core/bot/internal/OneBotBotImpl.kt:223-224 | the stored login info's nickname, failing exactly when there is none |
| Bot.OneBotBot.IsMe | simbot-component-onebot-v11/simbot-component-onebot-v11-core/src/commonMain/kotlin/love/forte/simbot/component/onebot/v11/core/bot/internal/OneBotBotImpl.kt:226-230 | the bot's own id is always "me"; before login every id is "me"; after login any other id is "me" exactly when it equals the login user id |
| Bot.OneBotBot.CreateEventSession | simbot-component-onebot-v11/simbot-component-onebot-v11-core/src/commonMain/kotlin/love/forte/simbot/component/onebot/v11/core/bot/internal/OneBotBotImpl.kt:266-275 | the current session is cleared and its job cancelled (unless already completed); the new session is fresh, active and holds no connection |
| Bot.OneBotBot.Start | simbot-component-onebot-v11/simbot-component-onebot-v11-core/src/commonMain/kotlin/love/forte/simbot/component/onebot/v11/core/bot/internal/OneBotBotImpl.kt:242-264 | an inactive bot or a failed login query throws, and the bot and its current session are left unchanged; otherwise the login info is stored and the old session cancelled, keeping the connection it holds; if the retry loop throws, no session is installed and nothing is pushed; else the new session is installed (failed when the loop returned null), the bot is started, and the started event is pushed on the first start only |
| Bot.WsEventSession.constructor | simbot-component-onebot-v11/simbot-component-onebot-v11-core/src/commonMain/kotlin/love/forte/simbot/component/onebot/v11/core/bot/internal/OneBotBotImpl.kt:278-280 | a new session has an active job, a child of the bot's, and holds no connection |
| Bot.WsEventSession.Cancel | simbot-component-onebot-v11/simbot-component-onebot-v11-core/src/commonMain/kotlin/love/forte/simbot/component/onebot/v11/core/bot/internal/OneBotBotImpl.kt:517-519 | cancelling makes an active session job cancelled and leaves a completed one as it was |
| Bot.WsEventSession.CompleteExceptionally | simbot-component-onebot-v11/simbot-component-onebot-v11-core/src/commonMain/kotlin/love/forte/simbot/component/onebot/v11/core/bot/internal/OneBotBotImpl.kt:305-309 | completing exceptionally fails an active session job with its cause and leaves a completed one as it was |
| Bot.WsEventSession.CreateSessionWithRetry | simbot-component-onebot-v11/simbot-component-onebot-v11-core/src/commonMain/kotlin/love/forte/simbot/component/onebot/v11/core/bot/internal/OneBotBotImpl.kt:291-336 | the loop's outcome, retry count, attempts and delays are those of the closed form `Expected`; the session job is failed exactly when the loop throws or returns null, with the matching cause |
| Bot.WsEventSession.ReceiveEvent | simbot-component-onebot-v11/simbot-component-onebot-v11-core/src/commonMain/kotlin/love/forte/simbot/component/onebot/v11/core/bot/internal/OneBotBotImpl.kt:409-473 | on an active session, the bot's queue grows by exactly the events of `Receive`, the loop ends as `Receive` says, and the bot's job is cancelled exactly on a decode failure; on an inactive session nothing happens |
| Bot.WsEventSession.LaunchPass | simbot-component-onebot-v11/simbot-component-onebot-v11-core/src/commonMain/kotlin/love/forte/simbot/component/onebot/v11/core/bot/internal/OneBotBotImpl.kt:351-373 | one pass of the reconnect loop pushes and stops as `RoundStep` says; the session records the connection it receives on; the session job is failed with the retry loop's cause when the reconnect throws or returns null, and active otherwise; the bot job is cancelled exactly on a decode failure; the session stays active exactly when the loop goes on |
| Bot.WsEventSession.Launch | simbot-component-onebot-v11/simbot-component-onebot-v11-core/src/commonMain/kotlin/love/forte/simbot/component/onebot/v11/core/bot/internal/OneBotBotImpl.kt:349-406 | on an active session, the bot's queue grows by exactly the events of `EventFeed.Launch` and the loop ends as it says; the session holds the connection last received on; the session job is failed exactly when a reconnect throws or returns null, with that cause; the bot job is cancelled exactly on a decode failure; on an inactive session nothing changes |

## Left out

- The HTTP and WebSocket clients (Ktor), `webSocketSession`, bearer authentication and the event server URL are I/O. Connect outcomes and frame results are inputs instead.
- The start `Mutex`, the fire-and-forget coroutine launches, `invokeOnCompletion` handlers, the 5-second graceful close in `GlobalScope` and waiting on `closeReason` are concurrency. Their effect on the loop is only that the connection is finished with before the next pass.
- JSON parsing, the long parse of a primitive, the event serializer registry, the subtype field name resolver, typed deserialization and UTF-8 decoding of binary frames are library code. They are the function fields of `Codec`.
- `Bot.WsEventSession.Launch` and `Bot.WsEventSession.LaunchPass`: the propagation of a failed session job to the bot's job (source lines 344-345) is not modelled, so their contracts say the bot's job is cancelled exactly on a decode failure. The propagation depends on the kind of `Job` passed to the constructor, which is not part of this model. The session job's own state is modelled. For the same reason, when the retry loop in `Bot.OneBotBot.Start` returns null, `jobCancelled` stays unchanged.
- `Bot.WsEventSession.CreateSessionWithRetry`: does not model the Kotlin `Int` wrap-around of `retryTimes`, because it needs more than 2^31 failed attempts.
- `Bot.WsEventSession.ReceiveEvent`: a connection counts as no longer active once its modelled frame results are exhausted. The loop then ends with `FramesExhausted`.
- `Bot.WsEventSession.Launch`: the loop also stops when the modelled rounds run out (`RoundsExhausted`). It treats each connection as finished after its receive loop ends, so every later pass reconnects.
- A connection is identified only by the index of the attempt that made it (the `session` field of `Bot.WsEventSession`, the held connection of `EventFeed.LaunchState`). Two reconnects that both succeed at the same attempt index give equal values, so the contracts that name the held connection do not tell those connections apart.
- simbot `ID` equality is modelled as structural equality of string and numeric ids.
- The subtype strings of group messages, private messages and notify events are written out as constants from the OneBot 11 protocol. The Kotlin definitions of `RawGroupMessageEvent`, `RawPrivateMessageEvent` and `RawNotifyEvent`, which declare them, are outside the modelled files; the classes themselves are modelled as `RawEvent` constructors.
- The friend and group relations, stranger/group/member lookups, and the cookies, credentials, CSRF token and message-content API calls are not modelled. They are remote API calls outside the event feed.
- An unparseable `time` or `self_id` in the unknown-event fallback is a decode failure in the code, because `.long` throws. The model follows the code rather than treating it as an absent field.
- Logging is not modelled.
