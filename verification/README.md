# Verified models of the EDIN backend

This project models the stateful cores of the EDIN backend and proves what
holds over whole runs of them. Code that works step by step is a class or a
method with a loop, proved against a specification function; code that several
goroutines or requests run side by side is a state machine over its atomic
operations, where every run is a list of steps chosen by an adversary.

| file | models |
|---|---|
| Basics | option and result values |
| AnthropicContext | provider messages, compaction checkpoints, the part of a conversation the provider reads, usage totals |
| ContextCodec | the stored provider context and the messages a turn starts from |
| AssistantRunner | one assistant turn: the iteration loop, tool calls, the final text |
| AssistantTurns | plain and streaming turns told exchange by exchange: what was sent, called, charged and answered |
| AssistantConversation | many turns with storing and reloading: the checkpoint cut is unobservable, tool calls stay answered |
| AssistantStreaming | the streaming turn and its agreement with the plain one |
| StreamingConversation | the copilot's conversations, whose turns stream: the same two results whatever the deltas are |
| ChatStore, RedisChatScripts | the chat session store in memory, and the lifetimes of its Redis keys |
| CopilotTurn | any number of websocket connections, their readers and turn goroutines, over one store |
| CopilotContexts | the provider context a turn gets, and what each step does |
| CopilotReplies | which messages are never answered, and which replies directly follow their message |
| RedisSets | a Redis set with one deadline for the whole key |
| CommanderSessions | RevokeJTI, Validate and the mass revocation loop with failing calls |
| CommanderTracking | login, refresh, logout and mass revocation as interleaved Redis calls that may fail or stop anywhere |
| CommanderDeliveries | the same runs with each delivery judged by the calls of its handler |
| CommanderAccess | the login decision and the administrators' actions on rows, groups and sessions |
| CommanderHandlers | the same handlers run to their end: what each leaves in the sets |
| CommanderApproval | runs of whole actions: exactly when every token that can be accepted belongs to an approved commander |
| CommanderLinking | linking a commander to its shadow user, with failures before and after each effect |
| DesktopLogin | the poll-based desktop login over Redis records |
| SurveyRoute | the stalest-first cut, the greedy route in place, the rounded total |
| Ordering, BuyerScores, BuyerRanking | comparators and sorting, scores and ranks, the buyer pipelines |
| BoomStations | one entry per station from repeated rows |
| Migration | the paged migration with aborts and restarts |
| NonceStore, PkceStore | single-use nonces, pending PKCE logins |
| LikePrefix | the escaped LIKE prefix search |

What the code does not do, although its comments say so, is stated with the
exact condition under which it does:

- `anthropic_context.go:162-166` says the cut does not change semantics. It does
  not, for a provider that reads from the latest valid compaction on
  (`CuttingIsUnobservable`). What that provider reads has every tool result next to
  its call exactly when no call precedes the compaction block in its own response
  (`ReadPairsExactly`).
- `copilot_chat.go` asks the client to retry after a failed load, and reports an
  append that failed. A message starts a turn exactly when its session is live and
  has not stored its id (`SendStartsExactly`); one that is stored, has no reply and
  no turn is never answered (`AbandonedForGood`). A step of a turn leads there
  exactly when it fails, an append exactly when the store reports an error after
  storing (`TurnAbandonsExactly`, `AppendAbandonsExactly`); both happen
  (`ResendAfterFailedTurn`, `ResendAfterLateError`).
- Replies directly follow their messages exactly when each is stored while nothing
  has been appended to the session since its message (`RepliesFollowExactly`). That
  is so while one connection at a time has a message in hand
  (`ReplyFollowsItsMessage`), and two break it (`TwoConnectionsInterleave`).
- The script that commits a reply in Redis renews the session but not the set of
  message ids, so the set can end first; a later append starts a new set and the ids
  before it are lost. Each id is stored once, and each message gets one turn, exactly
  while nobody resends a lost id or a stored one in that gap (`StoredOnceExactly`,
  `TurnsOnceExactly`). Both happen (`LateResendIsStoredAgain`,
  `WipedResendIsStoredAgain`).
- `commander_auth.go:749-757` relies on every active jti being enumerable. Over runs
  of calls that may fail or stop it is so exactly when each token is delivered after a
  SADD that succeeded and an EXPIRE that found the key and leaves it long enough, each
  EXPIREAT on the revoked set outlives every untracked token, and each SREM and DEL
  removes revoked tokens only (`SafeByCallsExactly`, `UntrackedLoginIsAccepted`). A
  desktop login hands its token out after a failed SADD too
  (`ReturnedIsTrackedExactly`, `FailedTrackingIsReturned`).
- A token that can be accepted belongs to an approved commander exactly when no
  logout or refresh sets a deadline before the end of an unapproved commander's token
  and every mass revocation finds all there is (`GateHoldsExactly`). The code does not
  see to the former: a logout lets a denied commander back in (`LogoutReopensDenied`).
- `commander_session.go:61-84` deletes the tracking set even when a revocation
  failed; `LostExactly` says which tokens are then out of reach.
- `commander_linking.go:13-19` calls linking self-healing. It is, exactly unless an
  administrator has given the user to another commander (`HealsExactly`).
- `commander_client_auth.go:172` calls a completed session single-use. Its read and
  its delete are two calls, and a failed delete is ignored: no token is returned twice
  exactly when no poll reads one that another holds or has returned
  (`SingleUseExactly`). Polls that overlap and a failed delete both break it
  (`OverlappingPollsShareToken`, `FailedDeleteSharesToken`).
- The sweeper of the PKCE store deletes without testing, so the counter drifts
  (`ExactWhenIdle`, `RaceMiscounts`).
- The comment above `calculateLTDScore` promises 60 points to industrial economies;
  the code gives 40 to every station without demand and never 0
  (`LtdScoresAlways`). The model follows the code.
- A higher demand for the same metal can lower a score, because the steps are tried in
  order: `PlatinumLowersExactly`, `OsmiumLowersExactly` and `LtdDemandLowersExactly` say
  exactly where. Everything else in a rank only ever raises it
  (`LargerPadRanksHigher`, `FresherRanksHigher`, `HigherPriceRanksHigher`).
- A batch size of zero migrates nothing and reports success (`RunLive`).

## Model

| member | source | states |
|---|---|---|
| AnthropicContext.CompactionContent | internal/assistant/anthropic_context.go:192-211 | a summary is found exactly when the wire form or the union field is not empty, the wire form wins, and it is never empty |
| AnthropicContext.BetaCompactionState | internal/assistant/anthropic_context.go:178-190 | valid exactly when some block is a compaction with a summary, none exactly when there is no compaction block |
| AnthropicContext.AppendBetaResponse | internal/assistant/anthropic_context.go:142-168 | every block of the response stands in the last message with what it said, summaries included; the list before it is kept, or cut exactly when the response carries a valid compaction |
| AnthropicContext.AppendedStands | internal/assistant/anthropic_context.go:142-168 | by the fields: a text keeps its text, a call its id, name and input, a compaction its wire content, else the accumulated one, else null; the list is cut exactly where a block has a summary |
| AnthropicContext.CheckpointIsValidCompaction | internal/assistant/anthropic_context.go:148-164 | the request form of a response carries a checkpoint exactly when the response is valid |
| AnthropicContext.ViewFromLatestCheckpoint | internal/assistant/anthropic_context.go:163-165 | the recursive view is the latest checkpoint's message from the checkpoint on, then every later message |
| AnthropicContext.ViewWithoutCheckpoint | internal/assistant/anthropic_context.go:163-165 | without a checkpoint the view is everything |
| AnthropicContext.TrimKeepsView | internal/assistant/anthropic_context.go:162-166 | cutting and keeping give the provider the same view |
| AnthropicContext.BoundedIsMinimal | internal/assistant/anthropic_context.go:163-165 | a list with no checkpoint behind its first message holds as many messages as are read |
| AnthropicContext.TurnUsage.Add | internal/assistant/anthropic_context.go:36-56 | the totals grow by the iterations' figures if there are any, by the top-level figures otherwise |
| AnthropicContext.UsageAddsUp | internal/assistant/anthropic_context.go:36-56 | each figure grows by the sum over the iterations, each counted as a message or as a compaction, or by the top-level figure alone |
| ContextCodec.BlockRoundTrip | internal/assistant/anthropic_context.go:213-227 | every block, null compactions included, decodes from its own encoding |
| ContextCodec.MessageRoundTrip | internal/assistant/anthropic_context.go:213-227 | every message decodes from its own encoding |
| ContextCodec.EncodeProviderContext | internal/assistant/anthropic_context.go:213-227 | provider, version and one encoded message per message, in order |
| ContextCodec.ContextRoundTrip | internal/assistant/anthropic_context.go:100-113 | what is stored reads back as the same messages |
| ContextCodec.BuildBetaMessageParams | internal/assistant/runner.go:261-300 | the transcript without system lines, then the current message |
| ContextCodec.BuildTurnMessages | internal/assistant/anthropic_context.go:95-120 | the stored context when usable, the transcript otherwise, then the current message; the error names the first message that does not decode |
| ContextCodec.SeededExactly | internal/assistant/runner.go:261-275 | one message per line that is not a system line, in order, from the assistant where the role says so in any case |
| ContextCodec.CurrentExactly | internal/assistant/anthropic_context.go:122-140 | the picture first with a supported media type, then the text if there is one; the text alone without a picture |
| ContextCodec.TurnMessagesExactly | internal/assistant/anthropic_context.go:95-120 | which of the two a turn starts from, told by provider, version and length, and where it fails |
| AssistantRunner.TrimSpaceKeepsInk | internal/assistant/runner.go:216-218 | trimming empties exactly the white strings and is idempotent |
| AssistantRunner.DisplayTextInked | internal/assistant/runner.go:303-337 | a display text is empty or shows something |
| AssistantRunner.TrimSpaceExactly | internal/assistant/runner.go:310 | trimming takes white space off both ends and nothing else |
| AssistantRunner.DisplayTextGrows | internal/assistant/runner.go:303-337 | each block adds its trimmed text or its search summary on a line below what was there, or nothing |
| AssistantRunner.ToolCallsGrow | internal/assistant/runner.go:317-322 | each call is taken with its id, name and input, behind those before it |
| AssistantRunner.ExtractBetaContent | internal/assistant/runner.go:303-337 | the display text and the tool calls of a response, in order |
| AssistantRunner.InvokeBetaTools | internal/assistant/runner.go:345-417 | one result per call, in order, tool errors included |
| AssistantRunner.InvokeGrows | internal/assistant/runner.go:345-417 | a call is made in the state the calls before it left; its result carries its id and the payload and error flag the tool gave |
| AssistantRunner.Runner.constructor | internal/assistant/runner.go:65-78 | the iteration limit is the given one, five if that is not positive |
| AssistantRunner.Runner.RunIteration | internal/assistant/runner.go:162-209 | one round of the loop is one iteration: the provider failed, answered, or called tools |
| AssistantRunner.Runner.RunIterations | internal/assistant/runner.go:159-210 | the loop with its in-place variables computes the iterated turn, with the requests and calls it made |
| AssistantRunner.Runner.RunWithProgressContext | internal/assistant/runner.go:138-237 | the turn returns the same state, trace, text, context and usage as its specification, or nothing on failure |
| AssistantTurns.IterateTells | internal/assistant/runner.go:162-209 | an iteration sends the messages, is charged for the reply, shows its text, and goes on with reply and results exactly when a block calls a tool |
| AssistantTurns.OnlyLastIsSilent | internal/assistant/runner.go:159-210 | at most the allowed exchanges are made, at least one if one is allowed, and only the last may call no tool |
| AssistantTurns.LoopIsTold | internal/assistant/runner.go:159-210 | the loop ends with the messages and text of its last exchange, the trace of all, and the cost of all |
| AssistantTurns.TurnIsTold | internal/assistant/runner.go:138-237 | for every turn: all requests and calls are those of its exchanges, every reply is charged, the stored context is the last request with its reply and results, the text is that of the last reply or the apology, and there is no result exactly where the provider failed |
| AssistantTurns.StreamingTurnIsTold | internal/assistant/runner_streaming.go:31-168 | the same for every streaming turn, whose replies show their deltas where their blocks show nothing |
| AssistantConversation.IterateSimulates | internal/assistant/runner.go:162-209 | one iteration of the cutting loop and of the keeping loop, from states with equal views, end in states with equal views |
| AssistantConversation.LoopSimulates | internal/assistant/runner.go:162-209 | so do any number of iterations |
| AssistantConversation.TurnSimulates | internal/assistant/runner.go:138-237 | one turn from stored contexts that look alike gives alike requests, the same calls, text and usage, and contexts that look alike |
| AssistantConversation.CuttingIsUnobservable | internal/assistant/anthropic_context.go:162-166 | over any number of turns with storing and reloading, the cutting and the keeping conversation show the same requests as read, calls, replies, usage and transcript |
| AssistantConversation.TalkGrows | internal/httpapi/copilot_chat.go:678-692 | a message adds its line and, where the turn succeeds, that of the answer, whose context replaces the stored one; a failed turn leaves it |
| AssistantConversation.TurnsExactly | internal/httpapi/copilot_chat.go:507-516 | a turn gets the latest lines up to the limit, the stored context and the message |
| AssistantConversation.CallsAreUses | internal/assistant/runner.go:303-337 | the calls taken from a response are those of the message appended for it |
| AssistantConversation.ResultsAnswerCalls | internal/assistant/runner.go:345-417 | the results answer exactly the calls, in order |
| AssistantConversation.IterateKeeps | internal/assistant/runner.go:162-209 | every request and the next message list keep tool calls answered at once, completely and in order |
| AssistantConversation.ConversationStaysPaired | internal/assistant/runner.go:162-209 | over any number of turns every request and every stored context does, through cuts, tool errors, exhausted turns and reloads; a cutting conversation has no checkpoint behind its first message |
| AssistantConversation.ReadPairsExactly | internal/assistant/anthropic_context.go:162-166 | what the provider reads of a paired list is paired exactly when no call precedes the checkpoint in its message |
| AssistantStreaming.StreamingRunner.Collect | internal/assistant/runner_streaming.go:69-100 | the deltas in one string |
| AssistantStreaming.ConcatGrows | internal/assistant/runner_streaming.go:69-100 | each delta is appended whole |
| AssistantStreaming.StreamingRunner.RunIteration | internal/assistant/runner_streaming.go:65-150 | one round of the streaming loop is one streaming iteration |
| AssistantStreaming.StreamingRunner.RunIterations | internal/assistant/runner_streaming.go:65-150 | the streaming loop computes the iterated streaming turn |
| AssistantStreaming.StreamingRunner.RunWithStreamingContext | internal/assistant/runner_streaming.go:31-168 | the streaming turn returns what its specification says |
| AssistantStreaming.StreamedTextAgrees | internal/assistant/runner_streaming.go:113-121 | the two readings of a reply agree exactly when its blocks show something or its deltas show nothing |
| StreamingConversation.StreamedCuttingIsUnobservable | internal/assistant/runner_streaming.go:65-168 | the cut is unobservable over any number of streaming turns, as over plain ones |
| StreamingConversation.StreamTurnsExactly | internal/httpapi/copilot_chat.go:507-516 | a streaming turn gets the latest lines, the stored context and the message too |
| StreamingConversation.StreamedConversationStaysPaired | internal/assistant/runner_streaming.go:65-168 | every request and stored context of a streaming conversation has its tool calls answered at once, whatever the deltas are |
| AssistantStreaming.StreamingAgrees | internal/assistant/runner_streaming.go:65-168 | for replies whose deltas make up their text, both turns return the same text, context and usage after the same requests and calls, including when exhausted |
| ChatStore.InMemoryStore.AppendMessageOnce | internal/llm/session_store.go:149-185 | refused and dropped without a live session, a duplicate for a known id, otherwise stored, remembered and trimmed |
| ChatStore.AppendOnceExactly | internal/llm/session_store.go:149-185 | refused exactly when the session is missing or past its lifetime, a duplicate exactly when its id is stored; an added message stands last behind the latest others, dated, its id remembered, and no other session changes |
| ChatStore.InMemoryStore.CommitAssistantTurn | internal/llm/session_store.go:203-232 | message and provider context change together or not at all |
| ChatStore.CommitExactly | internal/llm/session_store.go:203-232 | a commit succeeds exactly for a live session and a named, versioned context; then message and context are stored, and otherwise neither is |
| ChatStore.InMemoryStore.GetProviderContext | internal/llm/session_store.go:187-201 | the stored context of a live session, none otherwise |
| ChatStore.CommittedContextLoads | internal/llm/session_store.go:187-232 | while the session lives, loading gives exactly what was committed last; other providers and other sessions load what they did |
| ChatStore.InMemoryStore.CreateSession | internal/llm/session_store.go:109-120 | a session with its initial messages stamped and trimmed, and the ids of those it keeps |
| ChatStore.CreatedExactly | internal/llm/session_store.go:109-120 | by the fields: the latest initial messages up to the limit, dated, their ids known exactly, nobody else touched |
| ChatStore.InitialMessagesAreKnown | internal/llm/session_store.go:109-120 | a message a session keeps from its start is a duplicate when sent again |
| ChatStore.InMemoryStore.Get | internal/llm/session_store.go:243-254 | a live session, or none and an expired one dropped |
| ChatStore.FetchedExactly | internal/llm/session_store.go:243-254 | found exactly in time; an expired session goes with its ids and contexts |
| ChatStore.InMemoryStore.Delete | internal/llm/session_store.go:256-263 | session, ids and contexts go together |
| ChatStore.InMemoryStore.Cleanup | internal/llm/session_store.go:265-276 | exactly the expired sessions go |
| ChatStore.CleanedExactly | internal/llm/session_store.go:265-276 | a session stays as it was exactly when it is in time |
| RedisChatScripts.StoredOnceExactly | internal/llm/redis_store.go:22-61 | over every run each id is stored at most once exactly while no lost id, and no stored one in the gap, is sent to the live session |
| RedisChatScripts.ScriptsExactly | internal/llm/redis_store.go:22-61 | each verdict under its guard, and which keys an append and a commit give a new lifetime |
| RedisChatScripts.LostExactly | internal/llm/redis_store.go:22-43 | an id is lost exactly when it was stored before some append in the gap and not since |
| RedisChatScripts.TurnsOnceExactly | internal/llm/redis_store.go:233-262 | each message starts at most one turn exactly while none that had its turn is sent again in that way and loads |
| RedisChatScripts.StoredOnce | internal/llm/redis_store.go:22-61 | so it is over runs without a message in the gap, and every stored id is still in the set |
| RedisChatScripts.LateResendIsStoredAgain | internal/llm/redis_store.go:45-61 | a run in which the commit opens the gap and a resend is stored and answered again |
| RedisChatScripts.WipedResendIsStoredAgain | internal/llm/redis_store.go:22-43 | a run in which another message in the gap wipes the ids and a resend after the gap is stored again |
| CopilotTurn.StepKeeps | internal/httpapi/copilot_chat.go:262-389 | every atomic step keeps the flag with exactly one holder, turns on their session and accepted messages remembered |
| CopilotTurn.AtMostOneTurn | internal/httpapi/copilot_chat.go:47-67 | under every interleaving a connection has at most one turn, flagged, and no session switch under way beside it |
| CopilotTurn.TurnsStayInTheirSession | internal/httpapi/copilot_chat.go:495-697 | every load and every commit of a turn is on the session its message was appended to |
| CopilotContexts.TurnsGetTheLastContext | internal/httpapi/copilot_chat.go:515-524 | in every run a running turn has the context of a load made for it in its session, and every load gave the context of the last reply committed there before it, none exactly where there is none or the session was not live |
| CopilotContexts.StepKeepsContexts | internal/httpapi/copilot_chat.go:515-706 | every step keeps this: the store holds for each session and provider what was committed last |
| CopilotContexts.CommittedIsLast | internal/llm/session_store.go:225-230 | the last committed context is that of a reply behind which none commits for the same session and provider |
| CopilotContexts.LoadsAreHonest | internal/httpapi/copilot_chat.go:515-524 | a load counts the replies made so far and asks whether the session is in time |
| CopilotContexts.RunsExactly | internal/httpapi/copilot_chat.go:668-692 | a run that succeeds goes on to store its text as the answer to its message, with the new context; one that fails ends the turn |
| CopilotContexts.StoresExactly | internal/httpapi/copilot_chat.go:691-706 | storing ends the turn and counts as a reply exactly when the commit takes effect |
| CopilotContexts.EndsExactly | internal/httpapi/copilot_chat.go:57-61 | the end of a turn clears the flag |
| CopilotContexts.MessagesAreReadExactly | internal/httpapi/copilot_chat.go:304-334 | a message is taken up exactly when it has content and an id and no turn is active; an image alone is stored under a fixed text |
| CopilotContexts.AppendsExactly | internal/httpapi/copilot_chat.go:345-388 | a turn starts exactly when the message was added without an error, with the lines before it |
| CopilotContexts.SwitchesAreReadExactly | internal/httpapi/copilot_chat.go:262-290 | new chats and switches wait for no turn to be active; a sync drops only an expired session |
| CopilotContexts.ReaderMovesExactly | internal/httpapi/copilot_chat.go:393-451 | the remaining steps of the reader, the ownership test of a switch included |
| CopilotContexts.ConnectsExactly | internal/httpapi/kaine_chat.go:284-296 | a connection takes up the commander's live active session and gets a new one otherwise |
| CopilotContexts.StepsExactly | internal/httpapi/copilot_chat.go:262-389 | a step moves one connection, and its reader takes a frame only when it waits for one |
| CopilotTurn.OncePerMessage | internal/httpapi/copilot_chat.go:296-389 | over the in-memory store, for any connections and retries, each message of a session starts at most one turn and gets at most one reply |
| CopilotReplies.SendStartsExactly | internal/httpapi/copilot_chat.go:296-389 | on an idle connection a message starts a turn exactly when the session is live and its id is not stored |
| CopilotReplies.AbandonedForGood | internal/httpapi/copilot_chat.go:296-389 | a stored message without reply and without turn stays so in every continuation |
| CopilotReplies.TurnAbandonsExactly | internal/httpapi/copilot_chat.go:515-706 | a step of a turn leaves its message so exactly when the load, the run or the commit fails |
| CopilotReplies.AppendAbandonsExactly | internal/httpapi/copilot_chat.go:346-357 | an append of a new message does exactly when the store fails after storing |
| CopilotReplies.ResendAfterFailedTurn | internal/httpapi/copilot_chat.go:515-524 | a run from the start in which the context cannot be loaded and the resent message is a duplicate for good |
| CopilotReplies.ResendAfterLateError | internal/llm/redis_store.go:233-256 | a run from the start in which the append fails late and there never is a turn |
| CopilotReplies.RepliesFollowExactly | internal/httpapi/copilot_chat.go:691-706 | on any number of connections every reply directly follows its message exactly when each is stored while nothing was appended since that message |
| CopilotReplies.ReplyFollowsItsMessage | internal/httpapi/copilot_chat.go:691-706 | while one connection at a time has a message in hand they do, through reloads and idle tabs, and a turn's history is the lines before its message |
| CopilotReplies.TwoConnectionsInterleave | internal/httpapi/copilot_chat.go:691-706 | a run of two connections in which they do not |
| CopilotTurn.CopilotChatSession.BeginTurn | internal/httpapi/copilot_chat.go:47-55 | succeeds exactly when the flag was clear, and sets it |
| CopilotTurn.CopilotChatSession.AcceptCopilotMessage | internal/httpapi/copilot_chat.go:296-389 | flag, store and launched turn are those of the machine's steps run through |
| CopilotTurn.CopilotChatSession.HandleCopilotNewChat | internal/httpapi/copilot_chat.go:393-404 | a new stored session, an empty history, the flag untouched |
| CopilotTurn.CopilotChatSession.ReceiveNewChat | internal/httpapi/copilot_chat.go:268-277 | the frame is refused during a turn, otherwise flag, session and store are those of the machine's steps run through |
| CopilotTurn.CopilotChatSession.ReceiveSwitchSession | internal/httpapi/copilot_chat.go:278-289 | the same for a switch, granted or not |
| CopilotTurn.CopilotChatSession.HandleCopilotSwitchSession | internal/httpapi/copilot_chat.go:410-451 | moves exactly to an owned live session, otherwise stays |
| CommanderSessions.SessionRedis.RevokeJTI | internal/auth/commander_jwt.go:144-152 | the revoked set after the two calls, either of which may fail |
| CommanderSessions.RevokedExactly | internal/auth/commander_jwt.go:144-152 | by the fields: the jti is in the set unless its SADD failed, and the deadline of the whole set is the new one or what it was |
| RedisSets.SetCallsExactly | internal/auth/commander_jwt.go:144-152 | what SADD, SREM and EXPIREAT leave of members and deadline, keys that are gone included |
| CommanderSessions.SessionRedis.Validate | internal/auth/commander_jwt.go:107-140 | accepted exactly when the algorithm is RS256, the signature verifies, the expected issuer is empty or equal, the expiry is ahead and, for a token with a jti, Redis answers and has not revoked it |
| CommanderTracking.WithCommanderAuth | internal/httpapi/commander_middleware.go:25-70 | a token the server issued and a client holds is let through exactly when Redis answers and the state of the machine accepts it |
| CommanderSessions.SessionRedis.RevokeAllSessions | internal/httpapi/commander_session.go:61-84 | every member is tried, the set deleted, the first error reported |
| CommanderSessions.AllRevokedExactly | internal/httpapi/commander_session.go:61-84 | nothing changes without a reading; otherwise exactly the members whose SADD succeeded join the revoked, the set goes unless its DEL fails, and nobody else's does |
| CommanderSessions.FirstFailureExactly | internal/httpapi/commander_session.go:68-83 | the error reported is that of the first member that failed |
| CommanderSessions.LostExactly | internal/httpapi/commander_session.go:68-83 | a member is neither tracked nor revoked afterwards exactly when the set was deleted, its SADD failed and nothing had revoked it |
| CommanderSessions.NoErrorRevokesAll | internal/httpapi/commander_session.go:61-84 | without an error every member is revoked for a day |
| CommanderTracking.StepKeepsExactly | internal/httpapi/commander_auth.go:400-428 | every call of every handler, failing or not and a stop included, keeps unexpired delivered tokens tracked or revoked for good exactly under a condition on the state before it |
| CommanderTracking.BeginsExactly | internal/httpapi/commander_auth.go:614-765 | what each handler begins with: a new jti, an accepted token of the commander's own, the members of the set |
| CommanderTracking.FailedCallsGoOn | internal/httpapi/commander_auth.go:400-428 | a failing call leaves the sets alone and the handler goes on |
| CommanderTracking.SafeHoldsExactly | internal/httpapi/commander_auth.go:749-765 | so does a whole run, exactly when every step meets its condition |
| CommanderDeliveries.SafeByCallsExactly | internal/httpapi/commander_auth.go:400-409 | the same from the start on, with each delivery told by its handler's own SADD and EXPIRE |
| CommanderTracking.AcceptedIsTracked | internal/httpapi/commander_auth.go:749-765 | then a token Validate accepts is in its commander's set, which outlives it |
| CommanderTracking.SoundRunKeeps | internal/httpapi/commander_auth.go:749-765 | runs in which SADD, EXPIRE and EXPIREAT succeed and deadlines spare earlier revocations meet every condition, wherever handlers stop |
| CommanderTracking.UntrackedLoginIsAccepted | internal/httpapi/commander_auth.go:400-409 | a login whose SADD fails leaves an accepted token that no mass revocation finds |
| CommanderTracking.StepKeeps | internal/httpapi/commander_auth.go:732-765 | the invariant of such runs over every handler between any two calls |
| CommanderTracking.RevokeAllRevokesAll | internal/httpapi/commander_session.go:61-84 | a mass revocation that reaches its last call has revoked every delivered token of the commander |
| CommanderTracking.RevocationDeadlineExactly | internal/auth/commander_jwt.go:144-152 | an EXPIREAT keeps all tokens safe exactly when it does not precede the end of an untracked one |
| CommanderTracking.NeverBackwardsSpares | internal/auth/commander_jwt.go:148-150 | deadlines that never go backwards spare every earlier revocation |
| CommanderTracking.EarlyDeadlineRevives | internal/auth/commander_jwt.go:148-150 | once a too early deadline is reached, a revoked token with life left is accepted |
| CommanderTracking.TrackingDeadlineExactly | internal/httpapi/commander_auth.go:404-409 | a delivered token ends tracked exactly when EXPIRE found the key |
| CommanderAccess.AllowedExactly | internal/httpapi/commander_allowlist.go:142-238 | a login is let in exactly for an approved, linked commander whose user is found and in a group that grants something |
| CommanderAccess.DecidesExactly | internal/httpapi/commander_allowlist.go:142-238 | each refusal exactly under its own guard, and the scopes exactly those of the user's groups |
| CommanderAccess.ScopesByGroup | internal/authz/groups.go:26-65 | for each scope, which groups give it |
| CommanderAccess.ScopesUnion | internal/authz/groups.go:73-97 | the scopes are the union over the groups |
| CommanderAccess.AdminApi.Grant | internal/httpapi/kaine_admin_commanders.go:244-325 | status, group and approval for every failure, partial ones included, as the change below says |
| CommanderAccess.AdminApi.Revoke | internal/httpapi/kaine_admin_commanders.go:333-397 | approval gone, managed groups removed where possible, sessions revoked |
| CommanderAccess.AdminApi.Link | internal/httpapi/kaine_admin_commanders.go:405-472 | the link set and sessions revoked, or the conflict, missing row or user reported |
| CommanderAccess.AdminApi.Unlink | internal/httpapi/kaine_admin_commanders.go:480-513 | link and approval gone and sessions revoked; a failure in between leaves the approval |
| CommanderAccess.AdminApi.Approve | internal/httpapi/kaine_admin_commanders.go:521-546 | approval set, nothing revoked |
| CommanderAccess.AdminApi.Deny | internal/httpapi/kaine_admin_commanders.go:554-583 | approval gone and sessions revoked |
| CommanderAccess.GrantExactly | internal/httpapi/kaine_admin_commanders.go:244-325 | 200 exactly for a managed group, a linked row and a user that is found when no call fails; then approved and in the group, all else unchanged; every other status exactly under its guard, and what it leaves |
| CommanderAccess.RevokeExactly | internal/httpapi/kaine_admin_commanders.go:333-397 | 200 exactly when the row is there, read and written; then not approved, and exactly the managed groups whose removal succeeds are gone |
| CommanderAccess.LinkExactly | internal/httpapi/kaine_admin_commanders.go:405-472 | 200 exactly for a user that is found and that nobody else has; every other status under its guard, with nothing changed |
| CommanderAccess.UnlinkExactly | internal/httpapi/kaine_admin_commanders.go:480-513 | 200 exactly when both writes succeed; where the second fails the link is gone, the approval and the sessions are not |
| CommanderAccess.ApprovalExactly | internal/httpapi/kaine_admin_commanders.go:521-583 | 200 exactly when the row is there and can be written; only a denial revokes sessions |
| CommanderAccess.GrantAdmits | internal/httpapi/kaine_admin_commanders.go:283-301 | after a successful grant the commander is let in with the group's scopes |
| CommanderAccess.RevokeShutsOut | internal/httpapi/kaine_admin_commanders.go:349-376 | after a revocation the commander is shut out and exactly the managed groups that could be removed are gone |
| CommanderAccess.DenyIsUndone | internal/httpapi/kaine_admin_commanders.go:548-554 | approving after a denial brings back the same decision, approving after an unlinking does not |
| CommanderAccess.LinkKeepsUnique | internal/httpapi/kaine_admin_commanders.go:436-455 | no two commanders share a user; a link is refused only when somebody else has it |
| CommanderAccess.AdminApi.SetApproved | internal/store/commander_repository.go:543-565 | one row's approval, or not found |
| CommanderAccess.AdminApi.SetAuthentikLink | internal/store/commander_repository.go:507-535 | one row's link, not found, or refused because another row has it |
| CommanderHandlers.RevokeAllEffect | internal/httpapi/commander_session.go:61-84 | the interleaved handler run through leaves the sets as the loop of the code does |
| CommanderHandlers.RefreshEffect | internal/httpapi/commander_auth.go:732-765 | a refresh run through: the new jti tracked and delivered, the old one revoked and untracked, or nothing |
| CommanderApproval.UsableExactly | internal/auth/commander_jwt.go:107-140 | a token is usable exactly when Validate accepts it now or will after some wait |
| CommanderApproval.LoginUsable | internal/httpapi/commander_auth.go:400-428 | a login makes usable exactly its own token |
| CommanderApproval.RefreshUsable | internal/httpapi/commander_auth.go:732-765 | exactly the tokens a refresh leaves usable, the unrevoked ones included |
| CommanderApproval.RevokeAllUsable | internal/httpapi/commander_session.go:61-84 | a mass revocation takes exactly the members and what was in the revoked set |
| CommanderApproval.RevokeAllBarsExactly | internal/httpapi/commander_session.go:61-84 | a mass revocation leaves the commander no usable token exactly when it catches all of them, as it does where they are tracked |
| CommanderApproval.LogOutKeepsExactly | internal/auth/commander_jwt.go:144-152 | after a logout usable tokens are with approved commanders exactly when no unexpired token of another commander ends later than the one logged out |
| CommanderApproval.RefreshKeepsExactly | internal/httpapi/commander_auth.go:732-765 | the same for a refresh |
| CommanderApproval.ActionKeepsExactly | internal/httpapi/kaine_admin_commanders.go:244-583 | every action keeps usable tokens with approved commanders exactly under its condition, whatever database and directory calls fail |
| CommanderApproval.LogInExactly | internal/httpapi/commander_auth.go:322-428 | a login makes an unapproved row where there is none, keeps approval and link, and issues a token exactly where it is let in |
| CommanderApproval.GroupActionsExactly | internal/httpapi/kaine_admin_commanders.go:244-397 | a grant and a revocation leave rows, groups and sessions as the change says |
| CommanderApproval.LinkActionsExactly | internal/httpapi/kaine_admin_commanders.go:405-513 | so do a link and an unlinking |
| CommanderApproval.ApprovalActionsExactly | internal/httpapi/kaine_admin_commanders.go:521-583 | and an approval and a denial |
| CommanderApproval.OtherActionsExactly | internal/httpapi/commander_auth.go:614-817 | refreshes and logouts leave rows and groups alone |
| CommanderApproval.GateHoldsExactly | internal/httpapi/commander_auth.go:614-817 | so does a whole run, exactly when every action meets its condition |
| CommanderApproval.AcceptedIsApproved | internal/httpapi/commander_auth.go:614-817 | then a token Validate accepts belongs to an approved row, although refresh does not look at it |
| CommanderApproval.SparingRunKeeps | internal/httpapi/commander_auth.go:614-817 | runs whose logouts and refreshes spare earlier revocations meet every condition |
| CommanderApproval.LogoutReopensDenied | internal/auth/commander_jwt.go:148-150 | for any two enrolled commanders a run from the start: both log in, one is denied, the other logs out, and the denied one is accepted again |
| CommanderLinking.LinksAreStable | internal/httpapi/commander_linking.go:44-98 | a link is the id of the user named by the FID, never changes and is shared with nobody, under any failures and interleaving |
| CommanderLinking.CleanCallbackLinks | internal/httpapi/commander_linking.go:82-92 | a callback none of whose calls failed ends with its commander linked |
| CommanderLinking.HealsExactly | internal/httpapi/commander_linking.go:13-19 | from any state, a callback without failure links exactly unless somebody else holds the user |
| CommanderLinking.CallAdvances | internal/httpapi/commander_linking.go:44-98 | every call brings a callback nearer to its end |
| CommanderLinking.LinkServer.CreateShadowUser | internal/authentik/shadow.go:44-93 | the new user, or the one that has the name already |
| CommanderLinking.LinkServer.EnsureCommanderLink | internal/httpapi/commander_linking.go:44-98 | accounts and outcome are those of the machine run alone; created is reported from the row write on |
| CommanderLinking.EnsureExactly | internal/httpapi/commander_linking.go:44-98 | each outcome exactly under its guard, the user made where the name was free, the link set where nobody else held the user and the write took effect |
| CommanderLinking.UpsertExactly | internal/store/commander_repository.go:143-161 | the upsert makes a row without a link where there is none |
| CommanderLinking.StepsExactly | internal/httpapi/commander_linking.go:44-98 | a step is one call of one callback, which stays clean unless the call fails |
| DesktopLogin.PollsGetTheirOwn | internal/httpapi/commander_client_auth.go:384-407 | a poll returns only a token that was issued for the state made with its session, after the tracking call |
| DesktopLogin.InitiationLasts | internal/httpapi/commander_client_auth.go:57-128 | an initiated login can be completed for ten minutes and no longer |
| DesktopLogin.CallbackGoesOn | internal/httpapi/commander_client_auth.go:376-407 | a callback issues, tracks, stores and drops the index, whatever becomes of the tracking |
| DesktopLogin.CompletionLasts | internal/httpapi/commander_client_auth.go:130-187 | a completed session gives its token to polls for five minutes; the poll deletes the record where the delete succeeds |
| DesktopLogin.FailuresEnd | internal/httpapi/commander_client_auth.go:226-272 | a failing lookup, store or poll ends its request and leaves the records alone |
| DesktopLogin.StepsExactly | internal/httpapi/commander_client_auth.go:57-272 | a step moves one request, and time |
| DesktopLogin.ReturnedIsTrackedExactly | internal/httpapi/commander_client_auth.go:388-393 | a returned token is tracked exactly when its SADD did not fail |
| DesktopLogin.FailedTrackingIsReturned | internal/httpapi/commander_client_auth.go:388-393 | a run from the start in which the SADD fails and the poll returns the token all the same |
| DesktopLogin.SingleUseExactly | internal/httpapi/commander_client_auth.go:130-187 | when no poll is between its calls, no token has been returned twice exactly when no poll read one that another held or had returned |
| DesktopLogin.TokensAreSingleUse | internal/httpapi/commander_client_auth.go:130-187 | so it is while polls of a session stay apart and deletes succeed |
| DesktopLogin.OverlappingPollsShareToken | internal/httpapi/commander_client_auth.go:172-182 | a run from the start in which two polls overlap and return the same token |
| DesktopLogin.FailedDeleteSharesToken | internal/httpapi/commander_client_auth.go:173-176 | a run from the start in which a delete fails and the next poll returns the token again |
| SurveyRoute.Round10IsNear | internal/httpapi/survey_route.go:125 | rounding gives a whole number of tenths, the nearest one, of two equally near the one away from zero |
| SurveyRoute.FindFirst | internal/httpapi/survey_route.go:178-189 | the nearest system to the start, the lowest index on a tie |
| SurveyRoute.FindNext | internal/httpapi/survey_route.go:196-209 | the nearest unvisited system, the lowest index on a tie, none only if all are out of reach |
| SurveyRoute.NearestNeighbourRoute | internal/httpapi/survey_route.go:160-220 | a greedy route from the start, marked in place with order and hop, ending early only where nothing is near |
| SurveyRoute.GreedyIsUnique | internal/httpapi/survey_route.go:195-217 | the greedy order leaves no choice |
| SurveyRoute.RouteIsComplete | internal/httpapi/survey_route.go:211-213 | for finite distances the early exit is never taken and every system is visited once |
| SurveyRoute.CutIsStalest | internal/httpapi/survey_route.go:92-99 | whatever order a sort gives equals, nothing left out is staler than a kept candidate |
| SurveyRoute.HandleSurveyRoute | internal/httpapi/survey_route.go:92-127 | the stalest candidates, as many as the parameter between 1 and 500 or else 50, routed greedily, none lost, numbered with the rounded way to each; the total is the rounded sum, within 0.05 per stop and one more of the true length |
| Ordering.TopIsBest | internal/kaine/plasmium.go:275-286 | the first n of a sorted list are the best n |
| Ordering.LexLessExactly | internal/kaine/plasmium.go:338 | names are compared at the first place where they differ |
| BuyerScores.PlasmiumScoresExactly | internal/kaine/plasmium.go:632-665 | a score between 0 and 100, positive exactly with demand or a hidden-demand economy |
| BuyerScores.PlasmiumScoreIs | internal/kaine/plasmium.go:624-665 | full at the optimum of platinum, four fifths at that of osmium, in proportion below, 40 for hidden demand |
| BuyerScores.PlatinumLowersExactly | internal/kaine/plasmium.go:648-652 | more platinum in demand lowers the score exactly where a little of it takes the place of more osmium or of the hidden demand |
| BuyerScores.OsmiumLowersExactly | internal/kaine/plasmium.go:643-658 | more osmium does exactly where its optimum takes the place of nearly optimal platinum, or a little of it that of the hidden demand |
| BuyerScores.LtdScoresAlways | internal/kaine/ltd.go:464-479 | always positive; a demand below 516 scores less than none |
| BuyerScores.LtdScoreIs | internal/kaine/ltd.go:464-479 | full at the optimum, in proportion below, 40 without demand |
| BuyerScores.LtdDemandLowersExactly | internal/kaine/ltd.go:471-479 | more demand lowers the score exactly where it is the first and under 516 tons |
| BuyerScores.CalculateRankScore | internal/kaine/plasmium.go:674-724 | the accumulated rank is the rank the laws below are about |
| BuyerScores.CalculateLtdRankScore | internal/kaine/ltd.go:484-538 | so is that for LTD, the industrial bonus once |
| BuyerScores.LargerPadRanksHigher | internal/kaine/plasmium.go:695-703 | of stations alike but for the pad the larger ranks higher, by 25, 15 and 10 points, for both commodities |
| BuyerScores.FresherRanksHigher | internal/kaine/plasmium.go:677-693 | fresher market data never rank lower, with the documented steps at 6, 24, 48 and 168 hours, and any data rank higher than none |
| BuyerScores.HigherPriceRanksHigher | internal/kaine/plasmium.go:708-719 | a higher price never ranks lower, in proportion up to 50 points at 300000, 250000 for LTD, the better of two prices for plasmium |
| BuyerScores.OtherThingsRank | internal/kaine/ltd.go:515-537 | the points for progress, for the score itself and for an industrial economy |
| BuyerScores.RankBounds | internal/kaine/plasmium.go:667-673 | ranks stay within the documented 380 and 400 |
| BuyerScores.ProgressBonusFalls | internal/kaine/plasmium.go:824-844 | more progress never means a larger bonus |
| BuyerRanking.FindSources | internal/kaine/plasmium.go:184-210 | located maps in a Fortified or Stronghold system, with their radius |
| BuyerRanking.SourcesGrow | internal/kaine/plasmium.go:184-210 | a map counts exactly when it is located and Fortified, with 20 light years, or Stronghold, with 30 |
| BuyerRanking.MapBuyers | internal/kaine/plasmium.go:233-286 | the first ten of the sorted valid buyers of one map |
| BuyerRanking.ValidExactly | internal/kaine/plasmium.go:236-273 | a buyer is valid exactly when it stands for a station in range, with its score, rank and distance, scores, and has no known price under 100000; for LTD the first in range of its name |
| BuyerRanking.ListsGrowByOne | internal/kaine/plasmium.go:236-273 | no station is listed and no buyer kept twice |
| BuyerRanking.OutranksIsWeak | internal/kaine/plasmium.go:275-281 | the buyer comparator is a strict weak order |
| BuyerRanking.ResultIsBest | internal/kaine/plasmium.go:275-286 | a map's list is sorted and nothing left out outranks a kept buyer |
| BuyerRanking.MapOrderIsWeak | internal/kaine/plasmium.go:316-340 | the map comparator is a strict weak order where at most one state is not Stronghold |
| BuyerRanking.StatesExactly | internal/kaine/plasmium.go:334-337 | for a set of states it orders every list exactly under that condition |
| BuyerRanking.SourcesHaveOneOther | internal/kaine/plasmium.go:191-200 | the power state filter establishes it |
| BuyerRanking.SumPermutes | internal/kaine/plasmium.go:288 | the total does not depend on the order of the maps |
| BuyerRanking.FindBuyers | internal/kaine/ltd.go:155-301 | the results are the maps' lists in the comparator's order, each the ten best of all that is valid for its map by rank and then distance, the total their lengths together |
| BuyerRanking.MapsOrdered | internal/kaine/plasmium.go:316-340 | maps come by their best buyer, then by how many they show, for plasmium Stronghold first, then by name |
| BoomStations.GetAllBoomStations | internal/kaine/plasmium.go:538-622 | first rows in order, each marked controlling by any row of its station |
| BoomStations.EntriesMeanStations | internal/kaine/plasmium.go:538-622 | no station twice, and controlling exactly when some row of the station is |
| BoomStations.EntriesCopyFirstRows | internal/kaine/plasmium.go:538-622 | the entries are the first rows of the keys, in order, with everything but the mark from them |
| BoomStations.PresentExactly | internal/kaine/plasmium.go:538-622 | every station has an entry exactly when the keys tell stations apart |
| BoomStations.NoSeparatorIsInjective | internal/kaine/plasmium.go:559 | system names without the separator are enough for that |
| BoomStations.SeparatorCollides | internal/kaine/plasmium.go:559 | two stations that share a key |
| Migration.Target.InsertEvents | internal/store/commander_repository.go:163-196 | all of a batch or none of it, counted |
| Migration.MergedExactly | cmd/migrate-commander-data/main.go:69-127 | a merge keeps what was there and adds exactly the valid events, the first of each key winning |
| Migration.MigratePage | cmd/migrate-commander-data/main.go:97-122 | one page filtered, stored and counted, or not stored |
| Migration.MigrateEvents | cmd/migrate-commander-data/main.go:84-123 | every page of one commander once, in order |
| Migration.Migrate | cmd/migrate-commander-data/main.go:69-127 | whatever fails the target is a merge of some first events; a success has dealt with all, stored each commander under its last name, and the counts add up; a dry run writes nothing |
| Migration.MigrateAgain | cmd/migrate-commander-data/main.go:69-127 | over any attempts, each aborted or not, the table is a merge of some first events, and from the first success on that of one full run |
| Migration.FullRunAfterAborts | cmd/migrate-commander-data/main.go:69-127 | merging everything after merging any first parts gives what merging everything gives |
| Migration.RunLive | cmd/migrate-commander-data/main.go:85-123 | a run without failure is complete exactly when the batch size is positive or there is nothing to add |
| NonceStore.CommanderChatNonceStore.Consume | internal/httpapi/commander_chat_user.go:99-118 | the user of an unexpired entry, which goes either way |
| NonceStore.CommanderChatNonceStore.Cleanup | internal/httpapi/commander_chat_user.go:120-134 | exactly the expired entries go |
| NonceStore.AnswersByHistory | internal/httpapi/commander_chat_user.go:82-134 | answers follow from issues and consumes alone; sweeps under a monotone clock change none |
| NonceStore.AnswerExactly | internal/httpapi/commander_chat_user.go:99-118 | a user comes back exactly when the nonce was issued to that user, is not expired and was not consumed since |
| NonceStore.RedeemedOnce | internal/httpapi/commander_chat_user.go:99-118 | no nonce is redeemed twice |
| NonceStore.EarlySweepLosesNonce | internal/httpapi/commander_chat_user.go:120-134 | a sweep with a clock ahead loses a valid nonce |
| PkceStore.CommanderPkceStore.Store | internal/httpapi/commander_auth.go:51-64 | run alone, stored exactly below the limit, counter exact |
| PkceStore.CommanderPkceStore.Consume | internal/httpapi/commander_auth.go:68-79 | run alone, the unexpired entry, removed either way, counter exact |
| PkceStore.CommanderPkceStore.Cleanup | internal/httpapi/commander_auth.go:81-94 | run alone, exactly the expired entries go, counter exact |
| PkceStore.AloneExactly | internal/httpapi/commander_auth.go:51-94 | the atomic operations of a store, a consume and a sweep, run without interruption, do what the calls above do |
| PkceStore.LawHolds | internal/httpapi/commander_auth.go:51-94 | in every interleaving the counter is the entries less stores not yet counted plus removals not yet uncounted less blind deletes |
| PkceStore.ExactWhenIdle | internal/httpapi/commander_auth.go:51-94 | when idle the counter is exact if and only if no delete was blind |
| PkceStore.EntriesBounded | internal/httpapi/commander_auth.go:51-64 | with k overlapping stores entries stay within maxPend + k - 1, one more per blind delete |
| PkceStore.RaceMiscounts | internal/httpapi/commander_auth.go:81-94 | a run that leaves no entry and a counter of -1 |
| LikePrefix.LikeIsPrefix | internal/galaxystore/search.go:9-11 | the escaped query and a percent sign match exactly the strings that start with the query, never with an error |
| LikePrefix.EscapesExactly | internal/galaxystore/search.go:9-11 | exactly the backslash, the percent sign and the underscore get a backslash in front |
| LikePrefix.SearchFindsPrefixes | internal/galaxystore/search.go:55 | the search finds exactly the names that start with the query, letter case aside |
| LikePrefix.UnescapedFindsMore | internal/galaxystore/search.go:9-11 | without the escape it finds others |

## Left out

- AnthropicContext.TurnUsage.Add: the counters are unbounded; the wrap-around of 64-bit sums is not modelled.
- CommanderTracking.AcceptedIsTracked: one handler per commander runs at a time.
- CommanderApproval.AcceptedIsApproved: takes each handler as one step, Redis calls as succeeding and token lives as at most a day; database and directory failures are included.
- CopilotTurn.OncePerMessage: the machine runs over the in-memory store; over Redis RedisChatScripts.TurnsOnceExactly says when it holds.
- RedisChatScripts.StoredOnceExactly: the trimming of the message list is left out; the set of ids is never trimmed.
- Migration.Migrate: pages are cut from one fixed order of events; the query orders by timestamp only, which leaves the order of equal timestamps to the database.
- SurveyRoute.HandleSurveyRoute: distances are exact reals below the search's starting value; floating-point rounding is not modelled.
- LikePrefix.SearchFindsPrefixes: lower() is taken to work character by character and to spare the three special characters.
- PkceStore.LawHolds: states are taken to be new each time, as fresh UUIDs are.
- JSON text, the provider's SDK and its stream accumulator: a response is its list of blocks, a wire message a tree of values.
- The system prompt, the tool list of a request, beta headers and the choice of model: they do not depend on the messages.
- Progress events, audio, the speech tags of a reply and the text of error frames.
- Redis fallback to memory, the index of a user's sessions and the active-session pointer: the store answers whether a session is the commander's.
- Other writers to chat sessions, such as the Kaine chat.
- Sorting itself: a sort is any function that returns a permutation, ordered where the comparator is a strict weak order.
- SQL text, row-level security and the queries behind maps, stations and candidates.
- Key generation, signatures and the shape of tokens; identifiers and nonces are new values.
- HTTP routing, cookies, websocket framing, metrics and log lines.
- Frontier token refresh and the commander's profile lookup: a login or refresh that fails there changes nothing modelled.
