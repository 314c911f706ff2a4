# Scarlet agents: the protocols and what they guarantee

A Scarlet agent works by callbacks. One call of `run_skill` hops from thread to thread - dispatch, wait,
time out, check in, wait again or retry - and no stack owns it. This project models that protocol and the
layers around it as state machines over their smallest steps (a lock-protected block, a Redis command, a
thread start, a message sent), and proves what holds in every interleaving. Classes and loops that the
program updates in place are classes and loops here, proved against the functions the machines are made of.

| Files | What they model |
|---|---|
| `Router`, `RouterObjects`, `RouterRuns`, `RouterFrames`, `RouterStale`, `RouterLate` | `MessageRouter` and `TimeoutWatcher`: their blocks, the objects, any clients on any threads, stale deadlines and late messages |
| `RunSkill*` | one call of `run_skill` with its router, watcher, timers and dialogue |
| `ConverseCalls`, `Converse`, `ConverseTold`, `ConverseHeard`, `ConverseEnds`, `ConverseObjects` | the conversation loop over many calls, its joiner and store |
| `Conversations`, `NothingDropped`, `RoundTrip`, `Wire`, `Selection` | the reconstruction of conversations from the buses |
| `Inbox`, `Cancellation`, `Worker`, `WorkerLive`, `WorkerReports` | the Redis inbox, cancellation tokens, and a worker fed by the head |
| `Dialogue`, `DialogueWords`, `DialogueForget`, `DialogueObjects` | a conversation between two agents |
| `Storage`, `StorageObjects`, `StorageRace`, `Reduction` | the expiring key-value store under a Mapper, and Reduce |
| `Handshake`, `HandshakeLive`, `Pool`, `Median`, `Variance`, `SafeEval` | the distributed computations |

How the layers use each other: `Worker` runs the head of `RunSkill`, the inbox of `Inbox` and a worker side by
side. `ConverseCalls` shows that a call of `run_skill` is what `Converse` assumes of a tool call, `ConverseTold`
that the events of a finished conversation are a report in the sense of `RoundTrip`, and `RoundTrip` that the
page of `Conversations` shows it. `Median` and `Variance` rest on `Handshake`, which rests on `Storage`.

## Where the documentation promises more than the code keeps

For each of these there is a run or an input that breaks the promise, and a lemma that says exactly when it is kept - or,
for `Aggregate`, a contract by which it never is.

- `max_check_ins` caps nothing once a check-in is possible: `wait_for_reply` always starts again at 0 (head.py:531, against head.py:395-398). See `CheckInLimitIff`.
- A follow-up question of a check-in may never be asked: `conv_id` is assigned only when `dialogue.start` has returned, and the coordinator may have answered by then (head.py:594-604 and 619-627, against head.py:36-38). See `FollowUpIsLost`; by `FollowUpIff` it is asked exactly when `start` has returned, and else it counts as asked, nobody speaks in the check-in any more, and only its timer ends it.
- A timeout and a callback of the same key do not exclude each other when the key is registered again: `on_key` schedules its deadline after releasing the lock (router.py:193-203, against router.py:184-188). See `StaleDeadlineStrikes` and `SafeToRegisterIff`; `run_skill` is not affected, see `StaleDeadlineHarmless`.
- A message that arrives after a timeout is not ignored but queued (router.py:284-286, against router.py:54-56), and a later `on_key` of the same key gets it. `LateMessageGetsThrough` is such a run. `LateMessageIff`: a callback gets it exactly when the key is registered more often than messages waited before it; `LateMessageIgnored`: never, as long as the key is not registered at all.
- `Map` may report success for a key that no `AllGather` will find (Mapper.py:150-160). See `MapLosesItsKey`; by `MapKeepsIff` a call that may take d seconds keeps its key, whatever other readers and writers do, exactly when the key had before it a chunk with more than d seconds to live and no cleanup under way had found it without one. So the first `Map` of a key is never safe beside a reader.
- `Aggregate` does not post its argument, it only folds onto it (Federator.py:43-63): by the contract of `Federator.Aggregate` every call leaves the reducer as a cleanup leaves it.
- `forget` in the middle of a dialogue is not cleanup (dialogue.py:286-300). By the initiator, with its question out, it makes the two agents answer each other without end: `ForgetRunsAway` is such a run, and `ForgetSafeIff` says when it is safe. By the responder it lets the conversation go on and end, but the transcript is no longer the exchange, unless there was none yet or the responder was just thinking: see `ForgottenExchange` and `ResponderForgets`.
- `safe_eval` does not reject before any arithmetic is done, and a division by zero is not a `SafeEvalError`, so it leaves `coordinate` (safe_eval.py:50-56, combine.py:103-106). `NotRejectedFirst` is such an input; by `RejectedIff` an expression outside the allow-list is rejected exactly when nothing divides by zero before the evaluation gets to the offending node, and by `CoordinateEscapesIff` coordinate raises exactly when one does. The worker still reports it, see `CombineIsReported`.
- A coordinator's answer may be lost on the way. `combine` answers with a complex number for a negative base and a fractional exponent (safe_eval.py:110-114); `Send` takes its number and then cannot encode the message (Messenger.py:177-194), which stops the head's inbox. `ComplexIsLost` is such an expression, and `CombineIsHeardIff` says when the head hears.
- A request may be shown twice by the reconstruction (conversations.py:233-246, 323-345). See `NothingIsDropped` and `ShownTwice`.

## Model

| member | source | states |
|---|---|---|
| RunSkillTheorems.ExactlyOnce | harness/scarlet_agentic_harness/head.py:439-631 | In every run, on_result is called at most once; before it exactly one continuation (thread, parked callback or open check-in) is live, after it none |
| RunSkillTheorems.NeverStuck | harness/scarlet_agentic_harness/head.py:523-620 | A call that nothing can move any more - no thread, no deadline - has reported its result |
| RunSkillTheorems.StaleDeadlineHarmless | harness/scarlet_agentic_harness/router.py:193-254 | In run_skill a timeout handler that finds a callback finds that of its own registration |
| RunSkillTheorems.Bounded | harness/scarlet_agentic_harness/head.py:481-499 | At most max(1, max_attempts) attempts, and at most max(1, check_in_max_turns) questions in every check-in |
| RunSkillClock.FinalResult | harness/scarlet_agentic_harness/head.py:481-532 | The result reported came for the last attempt, word for word, or is an error a call may end with, a retryable one only when the attempts are used up; a timeout only when coordinate_timeout + reply_slack has passed since the last attempt was last armed |
| RunSkillClock.TimeIsKept | harness/scarlet_agentic_harness/head.py:523-571 | In every run a deadline lies reply_timeout after the moment it was set, which is not before the arming; a timeout handler, an on_timeout, an open check-in, a superseding and a reported timeout exist only when that time has passed since the latest arming; and a check-in's timer runs for check_in_timeout |
| RunSkillClock.NumbersAreNew | harness/scarlet_agentic_harness/router.py:192-203 | A callback is parked under a registration number that no earlier one had, so that StaleDeadlineHarmless tells registrations apart |
| RunSkillResults.AllGiven | harness/scarlet_agentic_harness/head.py:439-522 | Every result that arrives was received or computed in the run, and every attempt goes to workers of a survey |
| RunSkillDecision.DecisionIs | harness/scarlet_agentic_harness/head.py:235-243 | Whatever blanks are around the model's answer and whatever its case: a follow-up exactly if it begins with ASK:, asks something and may ask; else waiting exactly if it begins with WAIT |
| RunSkillRuns.AnswerIsReported | harness/scarlet_agentic_harness/head.py:481-496 | There is a run in which a given final answer is reported, whether it comes before the wait is armed or after |
| RunSkillRuns.RetryHappens | harness/scarlet_agentic_harness/head.py:490-499 | There is a run in which a retryable failure leads to a second attempt with whatever workers there are then |
| RunSkillRuns.SilenceIsReported | harness/scarlet_agentic_harness/head.py:533-538 | There is a run in which nothing comes and the timeout is reported |
| RunSkillRuns.AttemptsAreUsed | harness/scarlet_agentic_harness/head.py:481-499 | The bound on attempts is exact: some run makes max(1, max_attempts) of them |
| RunSkillRuns.QuestionsAreUsed | harness/scarlet_agentic_harness/head.py:586-604 | So is the bound on the questions of a check-in, wherever check-ins are possible |
| RunSkillRuns.NoThreadHangs | harness/scarlet_agentic_harness/head.py:481-628 | In every reachable state every thread of the call has a step, at once or when its time comes |
| RunSkillRuns.OthersMayWait | harness/scarlet_agentic_harness/router.py:192-203 | Other calls on the same router can register and set deadlines at any moment |
| RunSkillRuns.OthersMayBeServed | harness/scarlet_agentic_harness/router.py:249-289 | They can get messages and time out at any moment |
| RunSkillRuns.OthersMayForget | harness/scarlet_agentic_harness/router.py:205-221 | They can forget their keys at any moment |
| RunSkillBinding.FollowUpIff | harness/scarlet_agentic_harness/head.py:594-627 | A follow-up is asked and its answer awaited if and only if start has returned; else it counts, and nobody speaks in that check-in any more |
| RunSkillBinding.FollowUpIsLost | harness/scarlet_agentic_harness/head.py:594-627 | A run in which the coordinator answers before start has returned, and the follow-up is lost |
| RunSkillBinding.BoundIffOpened | harness/scarlet_agentic_harness/head.py:619-627 | In every reachable state conv_id is assigned exactly when no thread has still to open the check-in |
| RunSkillTheorems.RetryJustified | harness/scarlet_agentic_harness/head.py:481-499 | Every attempt but the last ended in a retryable failure of its own |
| RunSkillTheorems.OneSpeaker | harness/scarlet_agentic_harness/head.py:572-620 | A check-in has at most one outstanding question, reply or deliberation |
| RunSkillTheorems.TrafficInOrder | harness/scarlet_agentic_harness/head.py:497-507 | The bus log is, attempt by attempt, the dispatch to the surveyed workers and the cancels to exactly those; no attempt begins before the earlier ones were cancelled in full |
| RunSkillTheorems.DispatchEach | harness/scarlet_agentic_harness/head.py:505-507 | A dispatch has one message for each worker in order, and tells the coordinator alone to coordinate |
| RunSkillTheorems.CancelEach | harness/scarlet_agentic_harness/head.py:497-498 | A cancellation has one message for each worker of the attempt, in order |
| RunSkillTermination.RunIsBounded | harness/scarlet_agentic_harness/head.py:481-618 | With at most b workers per survey and w answers of the model that say WAIT, responsibility changes hands at most max(1, max_attempts) * (2b + 12) + 4w times |
| RunSkillTermination.StepProgress | harness/scarlet_agentic_harness/head.py:481-618 | Until the result is out, every step that moves responsibility lowers the number of moves left, and no other step raises it |
| RunSkillCheckInLimit.CheckInLimitIff | harness/scarlet_agentic_harness/head.py:528-538 | max_check_ins bounds the check-ins of every attempt in every run if and only if no check-in can happen at all |
| RunSkillCheckInLimit.CheckInLimitFails | harness/scarlet_agentic_harness/head.py:528-538 | A run with max_check_ins 1 and two check-ins in its one attempt |
| RouterObjects.MessageRouter.OnKey | harness/scarlet_agentic_harness/router.py:192-203 | Drains the oldest queued message into the callback, or parks the callback and then schedules its deadline |
| RouterObjects.MessageRouter.ReceiveFor | harness/scarlet_agentic_harness/router.py:136-158 | Waits for the oldest message of the key that is there or comes before the time is up, whatever else is delivered or forgotten meanwhile, or creates its queue and returns nothing; once its own key is forgotten nothing more comes |
| RouterObjects.MessageRouter.Forget | harness/scarlet_agentic_harness/router.py:205-221 | Drops queue, callback and deadline of the key |
| RouterObjects.MessageRouter.TimeoutFired | harness/scarlet_agentic_harness/router.py:229-254 | Runs on_timeout, if there is one, if and only if it popped a callback |
| RouterObjects.MessageRouter.Poll | harness/scarlet_agentic_harness/router.py:268-289 | Exactly the parked callbacks with a message are started, each once, with the first message of its key and in the order of these first messages, and lose their deadline; every other message of a key is queued in order; messages without a key go to the default handler in order |
| RouterObjects.TimeoutWatcher.Scan | harness/scarlet_agentic_harness/timeout_watcher.py:90-102 | A scan starts each due handler once, removes exactly the due deadlines and keeps the others |
| RouterObjects.Punctual | harness/scarlet_agentic_harness/timeout_watcher.py:90-102 | A deadline nobody cancels survives exactly the scans before it: never early, and at the first scan at or after it |
| RouterRuns.NoLostWakeupEver | harness/scarlet_agentic_harness/router.py:192-289 | For any clients, in every reachable state a parked callback means that no message of its key waits |
| RouterRuns.MessagesConserved | harness/scarlet_agentic_harness/router.py:192-289 | Every keyed message received is queued once under its own key or has gone to exactly one destination; queues keep the order of arrival |
| RouterRuns.RegistrationsConserved | harness/scarlet_agentic_harness/router.py:192-254 | Every registration is parked or has ended in exactly one way, and a callback ran with one message, which carries its key and went nowhere else |
| RouterRuns.NeverTooEarly | harness/scarlet_agentic_harness/router.py:193-254 | A registration is ended only by a timeout whose delay has passed since the on_key that asked for it |
| RouterRuns.SettledForGood | harness/scarlet_agentic_harness/router.py:192-289 | How a registration ended and where a message went never changes again |
| RouterFrames.OneKeyAtATime | harness/scarlet_agentic_harness/router.py:192-289 | A step changes queue, callback and deadline of no key but its own: the key of the call, of the message, or of the registration whose thread runs |
| RouterFrames.WinnerCancels | harness/scarlet_agentic_harness/router.py:287-289 | The thread that got a message before the timeout leaves no deadline of its key behind |
| RouterFrames.NeverRefuses | harness/scarlet_agentic_harness/router.py:136-221 | No call and no message is refused in any state, and a look takes the oldest message there is |
| RouterFrames.ThreadsRunOnce | harness/scarlet_agentic_harness/router.py:192-289 | A thread that has taken its step is gone in every continuation |
| RouterLate.LateMessageIff | harness/scarlet_agentic_harness/router.py:192-203 | With a key used through on_key alone, a callback gets a message that found none parked if and only if the key is registered again more often than messages waited before it |
| RouterLate.LateMessageIgnored | harness/scarlet_agentic_harness/router.py:268-289 | Without a registration no callback gets it, whatever else is done with the key |
| RouterLate.LateMessageGetsThrough | harness/scarlet_agentic_harness/router.py:192-289 | A run in which registration 0 has timed out and its late message goes to registration 1 |
| RouterStale.SafeToRegisterIff | harness/scarlet_agentic_harness/router.py:193-254 | A key can be registered without the risk that another registration's timeout ends the wait if and only if no timeout of an earlier registration is still on its way or a message is already queued |
| RouterStale.StaleDeadlineStrikes | harness/scarlet_agentic_harness/router.py:193-254 | A run in which registration 0 got its message and its timeout ends registration 1 |
| Inbox.Fifo | scarlets/messaging/Messenger.py:422-510 | For any number of concurrent senders and one reader, what was received is exactly sends 1..head in the order of their numbers |
| Inbox.NumbersStay | scarlets/messaging/Messenger.py:422-443 | A number belongs to one send for good, and a new send gets a new one |
| Inbox.StuckStays | scarlets/messaging/Messenger.py:470-487 | A send that lost its payload stops the cursor in front of its number until the hash expires |
| Inbox.ReachableIff | scarlets/messaging/Messenger.py:445-510 | The reader can get a number, short of an expiry, if and only if no send up to it has lost its payload |
| Inbox.ExpiryFrees | scarlets/messaging/Messenger.py:422-492 | From every state the hash can expire, and then a new message is received |
| Inbox.PerSenderFifo | scarlets/messaging/Messenger.py:161-196 | What the reader has from one sender is a prefix of what that sender sent, in its order |
| Inbox.InboxHash.PollInbox | scarlets/messaging/Messenger.py:445-492 | Returns the next send and moves the cursor by one, or returns nothing and leaves it, whatever the senders do meanwhile |
| Inbox.InboxHash.ReadPayload | scarlets/messaging/Messenger.py:470-486 | The retried read finds the payload of that very number, or it was not there at the start |
| Cancellation.StartedExactlyOnce | harness/scarlet_agentic_harness/cancellation.py:81-113 | For any interleaving of on_cancel and repeated cancel calls: no start without a cancel, and after one every callback is started as often as it was registered, never more |
| Cancellation.NeverBlocks | harness/scarlet_agentic_harness/cancellation.py:81-113 | on_cancel and cancel are never refused, in any state |
| Cancellation.CancelStartsAll | harness/scarlet_agentic_harness/cancellation.py:81-113 | After any run, a cancel can be followed by the start of every callback registered so far, each as often as registered |
| Cancellation.CancellationToken.CancelToken | harness/scarlet_agentic_harness/cancellation.py:105-113 | After cancel the event is set and everything registered so far has been started once |
| Cancellation.CancellationRegistry.CancelRequest | harness/scarlet_agentic_harness/cancellation.py:197-212 | Cancels the token of the request and no other one; an unknown request is ignored |
| Worker.CancelNeverMissed | harness/scarlet_agentic_harness/worker.py:261-286 | With the head, the inbox and the worker composed: when the worker turns to a cancel its token has been created, and afterwards the token is set or the handler had finished |
| Worker.HeadCausal | harness/scarlet_agentic_harness/head.py:497-507 | Every cancel the head sends comes after a dispatch of the same attempt to the same worker |
| WorkerLive.EveryNoteIsSent | harness/scarlet_agentic_harness/head.py:497-507 | In every run of the composed system the worker's inbox holds the head's dispatches and cancels to it, all of them and in order |
| WorkerLive.HeadIsFree | harness/scarlet_agentic_harness/head.py:505-507 | The worker never holds up the head |
| WorkerLive.HandlersEnd | harness/scarlet_agentic_harness/worker.py:261-286 | From every state the handlers can all end, and then no request is tracked any more |
| WorkerLive.CancelsTakeEffect | harness/scarlet_agentic_harness/worker.py:95-198 | Unless a payload is lost the worker can always work through its inbox by itself, and then every cancel sent to it has set its token or come after the handler had finished |
| WorkerReports.HandleMessage | harness/scarlet_agentic_harness/worker.py:95-198 | A coordinator always calls Send once, a contributor exactly when it fails; only what coordinate returned can ask for a retry |
| WorkerReports.CombineIsReported | harness/scarlet_agentic_harness/skills/combine.py:84-112 | Whatever the expression, the coordinator of a combine calls Send once: with the value if there is one, else with an error that is not retryable; and it raises exactly when the evaluation does |
| WorkerReports.CombineIsHeardIff | scarlets/messaging/Messenger.py:177-196 | The head can hear from it if and only if the value is not complex and nothing before it in the inbox was lost; a complex value stops the inbox for everything after it |
| WorkerReports.ComplexIsLost | harness/scarlet_agentic_harness/skills/combine.py:103-112 | The square root of minus one: coordinate answers, and the answer cannot be encoded |
| WorkerReports.CombineRetriedOnSilence | harness/scarlet_agentic_harness/head.py:481-499 | In every run of run_skill in which the results come from combine handlers, an attempt is followed by another only after a timeout |
| Dialogue.TurnTaking | harness/scarlet_agentic_harness/dialogue.py:149-284 | Without forget: one outstanding message or computation, a reply always finds its waiter, the initiator never answers itself, and the responder's transcript is the exchange, alternating, without a lost update |
| DialogueWords.EveryWordIsSaid | harness/scarlet_agentic_harness/dialogue.py:149-284 | The exchange, with what is on its way into it, is the opening message followed by everything the two sides have said, in order |
| Dialogue.ForgetSafeIff | harness/scarlet_agentic_harness/dialogue.py:286-300 | After the initiator forgets, the conversation can end if and only if it had no question out or about to go out |
| Dialogue.ForgetRunsAway | harness/scarlet_agentic_harness/dialogue.py:286-300 | A run in which the initiator forgets with its question out, and no continuation ends the conversation |
| DialogueForget.ResponderForgets | harness/scarlet_agentic_harness/dialogue.py:257-300 | After the responder forgets, the conversation can still end, and whenever the initiator is to speak the exchange is what was lost followed by the transcript; they are equal if and only if nothing was lost |
| DialogueForget.ForgottenExchange | harness/scarlet_agentic_harness/dialogue.py:286-300 | One question answered and then forgotten: the transcript is empty, the exchange is not |
| Dialogue.NeverEnds | harness/scarlet_agentic_harness/dialogue.py:241-284 | A conversation that has lost its waiter goes on for ever: in every continuation something is outstanding |
| DialogueObjects.AgentDialogue.Ask | harness/scarlet_agentic_harness/dialogue.py:184-224 | start and reply are the two steps of the protocol, and leave every other conversation alone |
| DialogueObjects.AgentDialogue.Handle | harness/scarlet_agentic_harness/dialogue.py:241-255 | Pops the waiter and starts it, or starts a response |
| DialogueObjects.AgentDialogue.Respond | harness/scarlet_agentic_harness/dialogue.py:257-284 | Extends the conversation's transcript by question and answer, sends the answer, and leaves every other conversation alone |
| ConverseCalls.CallRefines | harness/scarlet_agentic_harness/head.py:439-471 | Seen from the loop, every step of run_skill dispatches the next attempt in order, or returns the one result, or nothing; after the result nothing |
| Converse.DoneOnce | harness/scarlet_agentic_harness/head.py:813-884 | on_done is called at most once, and afterwards no thread of the conversation has a step |
| Converse.NeverStuck | harness/scarlet_agentic_harness/head.py:817-884 | Until on_done some thread has a step: no join is lost, the store is there, no result is missing |
| ConverseEnds.CanEnd | harness/scarlet_agentic_harness/head.py:813-884 | From every state of every run there is a way to on_done |
| ConverseTold.ChatsAreBounded | harness/scarlet_agentic_harness/head.py:817-826 | At most max_turns chat calls |
| ConverseTold.OutcomeIsTranscript | harness/scarlet_agentic_harness/head.py:817-851 | on_done gets the question, every turn with k calls followed by exactly k tool messages in call order, each with its call's own result when ids are distinct, then the model's closing message, whose text is the answer - the placeholder exactly if it has none - or no answer exactly when max_turns are used up |
| ConverseHeard.NothingIsMadeUp | harness/scarlet_agentic_harness/head.py:817-882 | The assistant messages of the transcript are the model's replies, one for each chat call and in order, and the answer is the text of the last; every call's attempts and result are those its run_skill reported |
| ConverseTold.EventsReportTheRun | harness/scarlet_agentic_harness/head.py:798-882 | The events of a finished conversation report its run |
| ConverseTold.ConversationIsReconstructed | composer-api/conversations.py:197-272 | From the loop to the page: the reconstruction shows every finished conversation as it was, and as its answer what the model said last |
| ConverseObjects.Joiner.Submit | harness/scarlet_agentic_harness/head.py:696-718 | The last submission, and no other, gets all results in call order |
| ConverseObjects.ConversationStore.Append | harness/scarlet_agentic_harness/conversation_store.py:102-121 | Appends to a tracked conversation, does nothing to an untracked one |
| ConverseObjects.ConversationStore.Collect | harness/scarlet_agentic_harness/head.py:845-851 | Appends one tool message per call in call order, and touches no other conversation |
| RoundTrip.ReconstructionIsFaithful | composer-api/conversations.py:197-272 | Any events a run may report, in any order its threads allow and with anything between them, give back its question, narrations, calls in order, attempts in order with their traffic, results and answer |
| RoundTrip.ShowTurn | composer-api/conversations.py:223-254 | Whatever the order of a turn's events, every call is shown with exactly its own events |
| Wire.EventRoundTrip | harness/scarlet_agentic_harness/reasoning.py:76-92 | An event published and read back is the same event of the same conversation |
| Wire.ClassifiedAs | composer-api/conversations.py:111-124 | What each type of message is read as: reasoning and dialogue by their one type, skill traffic by the beginning or the end of its type, anything else as other traffic; with its request and content |
| Wire.Untyped | composer-api/conversations.py:111-124 | A body without a type, or with one that is no string, is other traffic |
| Wire.SpreadLastIsLost | harness/scarlet_agentic_harness/reasoning.py:76-90 | With the dictionary spread last, no event at all would be read as reasoning |
| Conversations.Collect | composer-api/conversations.py:118-178 | The index holds the messages of every conversation and request in order, the requests of every call and the owner of every request |
| Conversations.InConvSelects | composer-api/conversations.py:160-162 | A conversation has exactly the messages that name it, each once, in the order of the log |
| Conversations.RequestsOfIs | composer-api/conversations.py:166-172 | The requests of a call are exactly those it was dispatched with, each once, in the order of their first dispatch |
| Conversations.OwnerIs | composer-api/conversations.py:166-174 | A request belongs to the conversation and call of the last dispatch that names all three, and to none if there is no such dispatch |
| Conversations.BuildConversation | composer-api/conversations.py:213-264 | Builds the view its conversation's events give one after the other, with orphan dispatches kept; its first and last time, which are the least and the greatest of its messages' times if any has one; and whether it is answered |
| Conversations.ThreadForRequest | composer-api/conversations.py:275-296 | All messages of the request that are not reasoning, in order |
| Conversations.ThreadSelects | composer-api/conversations.py:275-296 | A thread is exactly the messages with that request id that are not reasoning, each once, in the order of the log |
| Conversations.Unattributed | composer-api/conversations.py:323-345 | One group, with its whole thread, its first time and its message count, for each request that no visible call owns, and no other; newest first, ties in the order in which the requests were found |
| Conversations.UntimedLast | composer-api/conversations.py:337-345 | In that order a group without a time comes behind all that have one, and of two times the later comes first |
| NothingDropped.AppearancesExact | composer-api/conversations.py:158-345 | How often a request's traffic is shown: once per dispatch event in a conversation, and once more if no call owns it |
| NothingDropped.NothingIsDropped | composer-api/conversations.py:323-345 | It is shown at least once; exactly once if and only if no dispatch event names it, or exactly one does and it names its call |
| NothingDropped.ThreadIsComplete | composer-api/conversations.py:275-296 | What is shown contains every such message as often as the log does |
| NothingDropped.MessageOnPage | composer-api/conversations.py:158-345 | On the whole page a message is as often as in the log times the appearances of its request: never less, and exactly as often if and only if the request appears once |
| NothingDropped.ShownTwice | composer-api/conversations.py:233-246 | A log whose request is shown twice |
| Storage.StorageIsAnExpiringMap | scarlets/core/Mapper.py:140-295 | After any operations and waits the storage holds exactly the keys whose last write has not run out, with that value, and lists them all |
| Storage.CleanupForgetsTheDead | scarlets/contract/RedisContract.py:428-452 | Lazy cleanup leaves exactly the live keys listed and changes no value |
| Storage.DefinitionOutlivesData | scarlets/core/Mapper.py:50-84 | A live chunk implies a live definition, and the definition lives exactly the expiry after the last write, reads extending nothing |
| Storage.LeaseOfRun | scarlets/utils/ScarletUtils.py:151-168 | The lease of the definition after any run, and that no chunk outlasts it |
| StorageRace.MapLosesItsKey | scarlets/core/Mapper.py:150-160 | A Map with one cleanup between its SADD and its HSET: a live chunk that is not listed |
| StorageRace.KeptIff | scarlets/contract/RedisContract.py:154-246 | A live key stays listed in every interleaving, until the chunk it has then runs out, if and only if it is listed and no cleanup under way has found it dead |
| StorageRace.RemovedOnce | scarlets/contract/RedisContract.py:428-446 | A cleanup removes once: afterwards it condemns no key any more |
| StorageRace.MapKeepsIff | scarlets/core/Mapper.py:150-160 | A call of Map that takes at most d keeps its key, whatever readers and writers do during it and until the new chunk runs out, if and only if the key had a chunk that outlives the call and no cleanup under way had found it dead |
| StorageRace.AlwaysBounded | scarlets/contract/RedisContract.py:234-246 | In every run from an empty store no chunk has longer to live than the expiry, which MapKeepsIff and KeptIff rest on |
| StorageRace.SafeForLife | scarlets/contract/RedisContract.py:428-446 | A key that is safe stays listed until its chunk runs out, whatever other clients do |
| StorageRace.QuietMapKeeps | scarlets/core/Mapper.py:150-160 | Uninterrupted, and without a cleanup that has found the key dead, a Map makes its key safe |
| StorageObjects.RedisContract.GetMapperLength | scarlets/contract/RedisContract.py:428-452 | Keeps exactly the keys that exist, and caches each of them once |
| StorageObjects.RedisContract.ClearAll | scarlets/contract/RedisContract.py:285-316 | Deletes every chunk and the key list, in whatever batches SCAN returns |
| StorageObjects.Mapper.Map | scarlets/core/Mapper.py:103-160 | Writes and registers the key, or the time-stamped key of a series, and renews the definition; rejects reserved characters and then changes nothing |
| StorageObjects.SeriesKeysDiffer | scarlets/core/Mapper.py:144-146 | Two time series writes are under one key if and only if they are of the same series and made in the same second |
| StorageObjects.Mapper.AllGather | scarlets/core/Mapper.py:162-206 | Returns the live map at its start, with the fallback at most for keys that ran out while it was reading |
| StorageObjects.Mapper.Reduce | scarlets/core/Mapper.py:232-239 | The fold over every live key once; a chunk that runs out while it reads counts as the start value |
| StorageObjects.Mapper.ResetAll | scarlets/core/Mapper.py:257-270 | Overwrites exactly the live keys and renews the definition |
| StorageObjects.Mapper.ClearAll | scarlets/core/Mapper.py:284-295 | Leaves no chunk and no listed key, and the definition as it was |
| StorageObjects.Federator.Aggregate | scarlets/formulations/Federator.py:43-74 | The same total for every order of the keys, stored under "global"; a chunk that runs out while it reads counts as the start value, and the argument is not posted |
| Reduction.OrderDoesNotMatter | scarlets/core/Mapper.py:232-237 | Reduce with SUM, MUL, MAX or MIN gives one value for every order of the keys |
| Reduction.FoldColumn | scarlets/core/Mapper.py:208-239 | Place by place, SUM adds up, MUL multiplies, and MAX and MIN are one of the numbers and bound them all, the start value included |
| Reduction.GoneCountsNothing | harness/scarlet_agentic_harness/skills/sum.py:183-189 | A chunk that runs out during Aggregate([0, 0]) counts exactly as if its key were absent |
| Handshake.Await | harness/scarlet_agentic_harness/skills/median.py:117-148 | The first look that ends the wait decides it: cancelled, a failed Map it brings, or - with nobody left to wait for or no time - all ready or exactly the workers without good news; and without such a look it still waits |
| Handshake.CalledOnce | harness/scarlet_agentic_harness/skills/median.py:117-148 | What the passes see calls for one verdict and no other |
| Handshake.AllInTime | harness/scarlet_agentic_harness/skills/median.py:117-148 | If everybody's good news comes in time, uncancelled and without bad news, the wait ends with all ready |
| HandshakeLive.CanGather | harness/scarlet_agentic_harness/skills/median.py:117-152 | When every worker has reported its success, a coordinator that is not cancelled and in time gathers what is stored, by its own passes alone |
| HandshakeLive.CanSucceed | harness/scarlet_agentic_harness/skills/median.py:62-152 | For any workers with any values there is a run in which the coordinator gathers every worker's value |
| HandshakeLive.FailureIsHeard | harness/scarlet_agentic_harness/skills/median.py:128-141 | A worker's failed Map can end the wait with its name |
| HandshakeLive.StrayIsSkipped | harness/scarlet_agentic_harness/skills/median.py:131-133 | A message of another type is taken and changes nothing |
| HandshakeLive.CancelIsHeard | harness/scarlet_agentic_harness/skills/median.py:122-126 | A cancel, whenever it comes, ends the wait at the next pass |
| HandshakeLive.SilenceIsMissed | harness/scarlet_agentic_harness/skills/median.py:143-148 | Silence until the deadline ends the wait with the names of all workers |
| Handshake.GatherIsComplete | harness/scarlet_agentic_harness/skills/median.py:62-152 | If the coordinator gathers, every worker's Map had succeeded before, and it gets the values of exactly the workers whose Map has not run out |
| Handshake.NothingIsLost | harness/scarlet_agentic_harness/skills/median.py:62-152 | Within the expiry, it gathers every worker's value and nothing else |
| Handshake.ErrorIsJustified | harness/scarlet_agentic_harness/skills/median.py:121-148 | An error names a worker whose Map did fail, a cancelled call, or, at the deadline, exactly the workers whose readiness was not taken off the bus |
| Median.Merge | harness/scarlet_agentic_harness/skills/median.py:154-156 | The k-way merge of sorted partitions is sorted and contains exactly their numbers |
| Median.Pick | harness/scarlet_agentic_harness/skills/median.py:154-170 | The error for no data exactly when there is none, otherwise the median |
| Median.DistributedMedian | harness/scarlet_agentic_harness/skills/median.py:62-175 | In every run of the protocol that gathers, for any order of keys, the result is the median of all the workers' numbers |
| Median.MedianUnique | harness/scarlet_agentic_harness/skills/median.py:158-170 | The same numbers have one median, whatever their order and distribution |
| Median.KthOfOrdered | harness/scarlet_agentic_harness/skills/median.py:163-170 | In sorted numbers the one at index k is the k-th by count |
| Variance.AggregateIsTotal | harness/scarlet_agentic_harness/skills/sum.py:94-193 | Aggregate([0, 0]) is the total of the transformed numbers and their count, no contribution twice |
| Variance.DistributedSum | harness/scarlet_agentic_harness/skills/sum.py:92-200 | In every run that gathers, for any orders, result and n are those of the transform the request names over all the workers' numbers together |
| Variance.VarianceComposes | harness/scarlet_agentic_harness/skills/combine.py:48-70 | s2/n - (s1/n)**2 of the two sums is the mean squared deviation of all the numbers, never negative, for any distributions; without numbers it escapes |
| Variance.DeviationComposes | harness/scarlet_agentic_harness/skills/sum.py:55-66 | Raised to 0.5 it is answered with a real number: the standard deviation is never complex |
| Variance.PooledMeanComposes | harness/scarlet_agentic_harness/skills/combine.py:48-70 | Two means weighted by their counts, combined, are the mean of all the numbers together; without numbers it escapes |
| SafeEval.RejectedIff | harness/scarlet_agentic_harness/skills/safe_eval.py:83-120 | An expression is rejected if and only if it has a node outside the allow-list and nothing divides by zero before the evaluation gets there |
| SafeEval.HasValueIff | harness/scarlet_agentic_harness/skills/safe_eval.py:83-120 | An expression has a value, real or complex, if and only if it is allowed and nothing in it divides by zero |
| SafeEval.ComputeFailsIff | harness/scarlet_agentic_harness/skills/safe_eval.py:25-31 | An operator raises exactly for a quotient by zero or a power of zero to a negative or complex exponent |
| SafeEval.SumLaws | harness/scarlet_agentic_harness/skills/safe_eval.py:25-31 | Sums commute and associate, and 0 is neutral |
| SafeEval.DifferenceLaw | harness/scarlet_agentic_harness/skills/safe_eval.py:25-35 | A difference undoes the sum, and a number and its negation make 0 |
| SafeEval.DistributiveLaw | harness/scarlet_agentic_harness/skills/safe_eval.py:25-31 | Products distribute over sums, for real and complex values alike |
| SafeEval.ProductLaws | harness/scarlet_agentic_harness/skills/safe_eval.py:25-31 | Products commute, 1 is neutral, and the square of the imaginary unit is -1 |
| SafeEval.QuotientLaw | harness/scarlet_agentic_harness/skills/safe_eval.py:25-31 | A quotient undoes the product, for real and complex values alike |
| SafeEval.PowerLaw | harness/scarlet_agentic_harness/skills/safe_eval.py:25-31 | Whole powers are repeated products, and negative ones their reciprocals |
| SafeEval.PowerEdges | harness/scarlet_agentic_harness/skills/safe_eval.py:25-31 | Anything to the power of 0 is 1, and 0 to a positive real power is 0 |
| SafeEval.PowerElsewhere | harness/scarlet_agentic_harness/skills/safe_eval.py:25-31 | Every other power is as right as the powers it is given |
| SafeEval.CombineInSteps | harness/scarlet_agentic_harness/skills/safe_eval.py:99-120 | Evaluating with a variable bound to an earlier real result equals evaluating with that expression in its place |
| SafeEval.ComposesIff | harness/scarlet_agentic_harness/skills/safe_eval.py:99-120 | That holds for every later expression if and only if the earlier result is not complex |
| SafeEval.NotRejectedFirst | harness/scarlet_agentic_harness/skills/safe_eval.py:110-114 | An expression outside the allow-list that ends in a ZeroDivisionError |
| SafeEval.CoordinateEscapesIff | harness/scarlet_agentic_harness/skills/combine.py:96-112 | coordinate raises if and only if, in the order of evaluation, a division by zero comes before any node outside the allow-list |

## Left out

- Redis, pickling, compression and JSON: commands are atomic steps on maps with abstract values and succeed; `_nextSeq`'s timestamp fallback and the branches for an unreachable Redis are not modelled.
- Threads, sleeps and clocks: any interleaving, and an integer clock that moves on when it likes. The watcher's scan appears in the run_skill and router machines as one step per due deadline, in any order.
- Inbox expiry: the whole hash expires only when no send and no read is under way.
- Floating point: numbers are reals. Powers that real arithmetic does not define - roots, and powers of complex numbers - are arbitrary functions.
- SafeEval.CoordinateEscapesIff: numbers have no size limit, so the OverflowError of a float that is too large, and the limits on very large ints, are not modelled.
- Parsing: `ast.parse` is not modelled; an expression is a syntax tree, or unparsable.
- The model's answers, the worker survey and what skills compute are arbitrary. `_compose_checkin_question` has no effect beyond its text.
- run_skill: a coordinator equal to the calling agent runs in process; its `coordinate` is assumed to return. Exceptions of `on_dispatch` are swallowed and not modelled; scarlet registration before dispatch is left out.
- Converse: the first attempt of a call runs on the loop's own thread; the model lets the loop go on before it, which only adds interleavings. The same holds for the submission of an unknown skill. `ConversationStore.update` is unused and left out.
- Conversations.BuildConversation: the times of single steps, result summaries and the sorting of messages by (ts, seq) are left out; the log is taken as sorted. Where the program shares one dictionary between `calls` and the steps, the model keeps the step's index.
- Median.DistributedMedian: assumes, as the program does, that nobody else writes to or cleans the mapper of a request.
- StorageObjects.Mapper.Map: the object is one client at a time; interleavings are in `StorageRace`, which leaves out the deletions of clearAll.
- Worker.CancelNeverMissed: one worker and one call of run_skill at a time; other traffic is arbitrary.
- Dialogue.TurnTaking: one conversation between two different agents; conversations do not share state because their ids do not.
- CancellationRegistry's activity publishing, progress and snapshots: no effect on cancellation.
- User interface, broker, HTTP, authentication, data connectors, scarlet minting, query_feature, list_tags and create_scarlet: the last three repeat the handshake with less content.
