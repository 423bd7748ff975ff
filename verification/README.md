# NanoClaw: verified model of the core

A Dafny model of the parts of NanoClaw whose correctness depends on state that several functions
share, with proofs over every input or every run. `dafny verify dfyconfig.toml` checks all of it.

Code that the program writes as a loop or as an object with fields is written here as a method or a
class, and each such method is proved against a function of its inputs or of the old state. What the
program promises is then proved about those functions. Concurrent parts are transition systems with
one step per synchronous section between two awaits, or per SQL statement where two processes race.

| file | what it models |
|---|---|
| `AnthropicStream.dfy` | the inference proxy's streaming translator: OpenAI deltas in, Anthropic events out |
| `AnthropicMessage.dfy` | the event assembler and the buffered translator |
| `AnthropicRefinement.dfy` | how streaming relates to buffering and to the trace |
| `AnthropicRequest.dfy` | the request direction and its tool call/result pairing |
| `SessionDb.dfy`, `InsertRace.dfy` | a session's inbox table: sequence allocation, retries, acks, racing inserts |
| `HostSweep.dfy` | when a container is killed, and how stuck messages are retried |
| `ContainerRunner.dfy` | waking, spawning and exiting containers |
| `Delivery.dfy` | outbound delivery with retries, under three concurrent callers |
| `Router.dfy` | routing, session resolution and mention-sticky wirings |
| `StateSqlite.dfy` | the SQLite state adapter: locks with expiry, and a bounded queue on an indexed list |
| `Crc32.dfy`, `Png.dfy` | the table-driven CRC-32 and the PNG writer (RFC 2083 sections 3.2, 3.4 and 15) |
| `SplitForLimit.dfy`, `WrapLine.dfy`, `StatusStream.dfy` | message splitting, word wrap, status blocks |
| `JsText.dfy`, `Wrappers.dfy` | JavaScript `trim` and `join`; `Option` |

Conventions: a `char` is one UTF-16 code unit that is no surrogate; a clock is an integer of milliseconds that each
operation is given; JSON, compression, regular expressions, the access and command gates and other
unseen code are parameters, assumed to be functions of their arguments.

## What the proofs found

Places where the code does less than its description suggests, with the member that says when.

* **Streaming against buffering** (`StreamingRefinesBuffering`). For phase-ordered deltas the assembled
  content equals the buffered translation exactly when the response has content or a call, announced
  reasoning is not empty, and the response carries the same reasoning in `reasoning_content`: an empty
  response streams no block where buffering says "(no response)"; an empty reasoning fragment opens an
  empty thinking block; and the stream handler reads `reasoning` (line 925 of `tools/anthropic-shim.ts`)
  where the buffered translator reads `reasoning_content` (line 336), so a backend that uses one name
  for both loses its reasoning in one of the two. The stop reasons agree exactly when `finish_reason`
  is `tool_calls` just for responses with calls. Buffering throws exactly when a call's arguments do
  not parse, where streaming keeps them as text.
* **Block structure** (`WellFormedIffPhaseOrdered`). The event stream is well formed exactly for
  phase-ordered deltas. Reasoning after text, text after a tool call or a second tool call break it.
* **The retry budget** (`FullBudgetIffWholeSecond`). `process_after` keeps whole seconds, so a message
  can be given up earlier than 155 s after its first bump, by the part of a second at which that bump
  came. The full 155 s hold for all runs exactly when the first bump falls on a whole second.
* **failed is not final** (`CompletedIffAcked`). Whatever happened to a row before, it becomes completed
  exactly if some acknowledgement lists it, a row that was given up included.
* **The kill ceiling can be armed** (`LaterHeartbeat`, `LargerTimeout`). A first heartbeat, or a first
  declared Bash timeout when no ceiling is configured, can turn a healthy container into one past its
  ceiling. Otherwise a later heartbeat or a larger timeout never does.
* **Failing delivery writes** (`AtMostOnce`, `AtMostOnceIffRecorded`, `AtMostThriceIffGivenUp`). A message
  reaches the channel once for each time its record was lost and once more if it is recorded; it is
  attempted at most three times and once more for each time its given-up row could not be written. So
  all runs deliver it at most once exactly if the write of its own record cannot fail, and attempt it at
  most three times exactly if the write of its own given-up row cannot, whatever happens to others.
* **Empty thread ids** (`ResolvingTwice`). A lookup with thread id `""` searches for NULL but a per-thread
  session stores `""`, so that lookup never finds it again. Resolving twice keeps sessions unique exactly
  when one was found or the call can find what it stores.
* **What makes a thread sticky** (`StickyIffActivated`, `StickyUnderAccumulate`). The session is created
  before the command gate, so a filtered command mentioning the bot makes its thread sticky; and under
  the accumulate policy any earlier message does, a mention or not.
* **Word wrap** (`GivenBackIffNothingLost`, `IndentIsLost`). At every width, joining the rows by spaces gives
  a line back exactly if it fits, is empty, or the loop never replaces a row that so far shows nothing
  (its guard `curLen === 0`) and does not end on an empty one. In particular an indented line that does
  not fit loses its indentation; such lines exist for every width, those from 30 up that the one caller
  passes (lines 51 to 56 of `setup/lib/theme.ts`) included.
* **Message splitting** (`SpaceAndNewlineSeparate`, `ShortWordsStayWhole`). Only spaces and newlines are
  searched for; at each limit from 3 up every other whitespace character, a tab for one, lets a word
  within the limit be split. Where spaces and newlines are the only whitespace, one is split exactly if
  the text starts with one of them followed by a word of exactly the limit, as in `" abcdef"` with
  limit 6.
* **Splitting with limit 0** (`EndsAtZeroIffAllSpace`). The exported function loops for ever on any text that
  is not all whitespace. Its one caller, `deliver` (line 515 of `src/channels/chat-sdk-bridge.ts`), tests
  its limit for truth first and never passes 0.

## Model

| member | source | states |
|---|---|---|
| `AnthropicStream.StreamHandler.constructor` | tools/anthropic-shim.ts:849-875 | a new handler has sent `message_start` and nothing else |
| `AnthropicStream.StreamHandler.OnReasoning` | tools/anthropic-shim.ts:924-943 | the whole new state and the events sent for one reasoning fragment are those of the step specification |
| `AnthropicStream.StreamHandler.OnContent` | tools/anthropic-shim.ts:945-969 | the same for text, which first closes an open thinking block |
| `AnthropicStream.StreamHandler.OnToolStart` | tools/anthropic-shim.ts:975-1008 | the same for a tool call's start, which closes thinking and text but not an open tool block |
| `AnthropicStream.StreamHandler.OnToolArgs` | tools/anthropic-shim.ts:1009-1019 | the same for argument fragments; a call that never started throws |
| `AnthropicStream.StreamHandler.OnToolDelta` | tools/anthropic-shim.ts:973-1020 | one tool entry acts as its start followed by its arguments |
| `AnthropicStream.StreamHandler.OnToolDeltas` | tools/anthropic-shim.ts:971-1021 | the entries of a delta act one after the other, up to the first that throws |
| `AnthropicStream.StreamHandler.OnFinish` | tools/anthropic-shim.ts:1023-1028 | the last finish reason decides the stop reason |
| `AnthropicStream.StreamHandler.OnChunk` | tools/anthropic-shim.ts:909-1028 | a chunk changes state and events exactly as its parts do one by one, and not at all without a delta |
| `AnthropicStream.StreamHandler.Finished` | tools/anthropic-shim.ts:1032-1047 | one stop for an open block, then `message_delta` and `message_stop`; nothing after a throw |
| `AnthropicStream.StreamHandler.Run` | tools/anthropic-shim.ts:881-1047 | the read loop sends exactly the specified events for any chunks |
| `AnthropicStream.FollowPhases` | tools/anthropic-shim.ts:864-1030 | after every prefix of any stream: in phase order, the flags and block index name the one open block; out of it, the events are broken for good or the handler has thrown |
| `AnthropicStream.WellFormedIffPhaseOrdered` | tools/anthropic-shim.ts:849-1047 | the whole event sequence is well formed (blocks 0, 1, 2, …, each one start, own deltas, one stop) if and only if the deltas are phase-ordered |
| `AnthropicStream.AccumulatorsAreConcatenations` | tools/anthropic-shim.ts:864-1028 | in any order of deltas the trace text, thinking and per-call arguments are the concatenated fragments, and the stop reason that of the last finish reason |
| `AnthropicMessage.AssembleAnthropicSse` | tools/anthropic-shim.ts:581-630 | the loop computes the assembled message for any events, with holes dropped and unparseable inputs left as strings |
| `AnthropicMessage.BlocksAreApart` | tools/anthropic-shim.ts:594-613 | however the events of different blocks interleave, with holes and repeated starts, the block at an index is made of the events with that index alone |
| `AnthropicMessage.AssembledBlocks` | tools/anthropic-shim.ts:615-630 | the assembled content is those blocks in the order of their indices, none lost, with tool input parsed or kept as the string it is |
| `AnthropicMessage.LastStopReason` | tools/anthropic-shim.ts:606-607 | the stop reason is that of the last event that gives one |
| `AnthropicMessage.OpenAIToAnthropic` | tools/anthropic-shim.ts:331-379 | the translation block by block for any number of calls: it throws exactly if some call's arguments do not parse; otherwise reasoning, then the content or its stand-in, then every call in order with its name, its id or the fallback, and its parsed arguments, and nothing else; and the stop reason |
| `AnthropicMessage.TranslationIsUnique` | tools/anthropic-shim.ts:331-379 | that description leaves only one answer, the one that the comparison with streaming speaks about |
| `AnthropicMessage.PushToolUses` | tools/anthropic-shim.ts:344-351 | None exactly if some call's arguments do not parse; otherwise block i is the tool_use of call i, for any number of calls |
| `AnthropicRefinement.MirrorAll` | tools/anthropic-shim.ts:864-1030 | at every point of an ordered stream the assembler holds exactly the blocks of what was said so far, and the accumulator map the call in progress |
| `AnthropicRefinement.ChunksSay` | tools/anthropic-shim.ts:909-1028 | for any chunks, several tool entries to a chunk or one call over several: reasoning, content, calls, arguments by index and finish reason of the handler's steps are those read directly off the chunks |
| `AnthropicRefinement.AssemblyOfOrdered` | tools/anthropic-shim.ts:581-630 | assembling an ordered stream gives the blocks of the whole response, whatever the fragments |
| `AnthropicRefinement.StreamingRefinesBuffering` | tools/anthropic-shim.ts:849-1047 | for every ordered cut of a response into chunks, the response read off the chunks: when its buffered translation throws, and otherwise when the assembled content and the stop reason equal its own, each if and only if |
| `AnthropicRefinement.EveryResponseStreams` | tools/anthropic-shim.ts:331-379 | every response with at most one call is what some ordered stream spells out |
| `AnthropicRefinement.BuildTraceContent` | tools/anthropic-shim.ts:1055-1067 | the trace content built from the handler's accumulators |
| `AnthropicRefinement.TraceCallsAre` | tools/anthropic-shim.ts:1058-1066 | one block per accumulated call, in order, with parsed input or the string that does not parse |
| `AnthropicRefinement.TraceIsWhatClientsSee` | tools/anthropic-shim.ts:1055-1067 | for ordered streams the traced content is what a client assembles from the events, exactly when announced reasoning is not empty |
| `AnthropicRequest.AnthropicToOpenAI` | tools/anthropic-shim.ts:248-306 | for any request: the k-th call carries id, name and printed input of the k-th tool_use, the i-th tool message answers the i-th tool_result with exactly its text, and apart from tool messages the messages speak the system prompt and each turn's text in source order |
| `AnthropicRequest.PushTurn` | tools/anthropic-shim.ts:256-306 | one turn appends exactly its messages, whose calls, answers and texts `TurnsSay` reads off the source |
| `AnthropicRequest.TurnsSay` | tools/anthropic-shim.ts:256-306 | what is said is conserved over any turns: calls, answers and texts of the messages are those of the source, each read off the source parts |
| `AnthropicRequest.SystemSays` | tools/anthropic-shim.ts:251-254 | the system prompt is its text, or its texts on lines of their own, and none if the text is empty |
| `AnthropicRequest.AnsweredTurn` | tools/anthropic-shim.ts:262-305 | an asking turn and its answer become one message with calls directly followed by one tool message per id, then the rest |
| `AnthropicRequest.PairingIsPreserved` | tools/anthropic-shim.ts:256-306 | paired turns give paired messages, with and without stray answers |
| `AnthropicRequest.RequestPairing` | tools/anthropic-shim.ts:248-306 | the same for the whole request, system prompt included |
| `AnthropicRequest.IdsAreConserved` | tools/anthropic-shim.ts:256-306 | for any turns, paired or not, the call ids and the answer ids come out complete and in source order |
| `SessionDb.NextEvenSeqIsLeast` | src/db/session-db.ts:81-84 | the allocated number is the least even number from 2 up above every seq in the table |
| `SessionDb.AloneNeverCollides` | src/db/session-db.ts:105-131 | without interference the first attempt succeeds or finds the id taken |
| `SessionDb.InboundDb.InsertMessage` | src/db/session-db.ts:86-131 | with other writers committing between read and write: seq stays 2, 4, …, 2n, besides their rows exactly the one row of a success is added, with every column, every lost attempt had a commit in its gap, and giving up takes 32 of them |
| `SessionDb.InboundDb.RetryWithBackoff` | src/db/session-db.ts:150-154 | the rows with the id get one more try and a whole-second `process_after`, every other row is as it was |
| `SessionDb.InboundDb.MarkMessageFailed` | src/db/session-db.ts:146-148 | the rows with the id become failed, every other row is as it was |
| `SessionDb.PendingRowIs` | src/db/session-db.ts:156-164 | with unique ids the query returns exactly the row with that id, if it is pending |
| `SessionDb.CountDueCounts` | src/db/session-db.ts:133-144 | the due count is the number of rows that are pending, trigger, and have no time or one whose second has come |
| `SessionDb.BumpedIsDueIff` | src/db/session-db.ts:133-154 | a message put off counts as due exactly once its backoff has passed, in whole seconds |
| `SessionDb.InboundDb.SyncProcessingAcks` | src/db/session-db.ts:166-179 | row by row: completed if its id is acknowledged, otherwise as it was |
| `InsertRace.RacingInsertsAreDense` | src/db/session-db.ts:81-131 | any number of racing calls, in any order of reads and writes: seq is exactly 2, 4, …, 2n in commit order, and a call that failed on seq saw at least 32 commits |
| `InsertRace.CollidesIffOvertaken` | src/db/session-db.ts:109-130 | a write collides on seq if and only if another row was committed since its read |
| `InsertRace.RunKeepsInv` | src/db/session-db.ts:109-131 | what every step of the race keeps |
| `HostSweep.DecideStuckAction` | src/host-sweep.ts:90-137 | with the declared timeout of Bash extending both limits: past the ceiling exactly if the heartbeat is older, and otherwise ok exactly if every parseable claim is within tolerance or has a later heartbeat; or the first stuck claim, with its ages and limits |
| `HostSweep.KillsPersist` | src/host-sweep.ts:90-137 | a kill stays a kill as time passes |
| `HostSweep.LaterHeartbeat` | src/host-sweep.ts:116-133 | when a later heartbeat keeps a healthy container healthy, if and only if |
| `HostSweep.LargerTimeout` | src/host-sweep.ts:116-134 | when a larger declared timeout does, if and only if |
| `HostSweep.CeilingCanBeArmed` | src/host-sweep.ts:116-124 | both exceptions occur |
| `HostSweep.ResetStuckProcessingRows` | src/host-sweep.ts:281-317 | row by row with unique ids: a claimed pending row whose time has come gets one more try and 5, 10, 20, 40 or 80 seconds, or fails from the fifth try on; every other row is as it was |
| `HostSweep.ResetAllPointwise` | src/host-sweep.ts:281-317 | each row is bumped or failed at most once and by its own state, however often and in whatever order it is claimed |
| `HostSweep.ResetIsIdempotent` | src/host-sweep.ts:281-317 | a second reset at the same instant changes nothing, for any claims on rows claimed before |
| `HostSweep.EnforceRunningContainerSla` | src/host-sweep.ts:245-279 | a running container is killed exactly if it is not healthy, and then its claims are reset |
| `HostSweep.SyncPointwise` | src/db/session-db.ts:166-179 | syncing acks acts on each row by itself |
| `HostSweep.RowsRunAlone` | src/host-sweep.ts:281-317 | over every run of syncs, resets and arrivals a row's fate is that of its own history |
| `HostSweep.RetryBudget` | src/host-sweep.ts:298-308 | over every run tries counts the bumps and never passes 5, and a row fails only with 5 and after the 155th second boundary since its first bump |
| `HostSweep.RetryBudgetIsTight` | src/host-sweep.ts:298-308 | for every time of the first bump a run reaches that bound |
| `HostSweep.FullBudgetIffWholeSecond` | src/host-sweep.ts:296-308 | all runs wait the full 155 s if and only if the first bump is on a whole second |
| `HostSweep.CompletedIsAbsorbing` | src/db/session-db.ts:146-179 | over every run tries never shrinks, completed rows never change, and failed rows are never pending again |
| `HostSweep.CompletedIffAcked` | src/db/session-db.ts:166-179 | over every run a row becomes completed if and only if some acknowledgement lists it, a failed one included |
| `HostSweep.SweepSession` | src/host-sweep.ts:187-218 | a sweep with its own clock readings, with or without an outbound database: it wakes exactly for a row that acks leave due while nothing runs, a throwing wake ends it, a container is killed exactly if it is not healthy, and every row is completed if acknowledged, retried or failed if claimed where nothing runs any longer, and otherwise as it was |
| `HostSweep.FinishedWorkIsNotRetried` | src/host-sweep.ts:187-218 | because of that order a row acknowledged as finished is never bumped by the same sweep |
| `ContainerRunner.ContainerRunner.WakeContainer` | src/container-runner.ts:176-204 | which of the four outcomes a wake has, each exactly when, with the 5000 ms written out; and that only a start changes the maps |
| `ContainerRunner.ContainerRunner.ProcessStarted` | src/container-runner.ts:259-262 | a started process is recorded |
| `ContainerRunner.ContainerRunner.WakeSettled` | src/container-runner.ts:199-201 | a settled wake is forgotten |
| `ContainerRunner.ContainerRunner.ContainerExited` | src/container-runner.ts:279-285 | an exit clears the process and notes the time |
| `ContainerRunner.RunKeepsInv` | src/container-runner.ts:138-294 | what every wake, spawn, settling and exit keeps: the maps tell the truth about what runs |
| `ContainerRunner.WakeStartsIff` | src/container-runner.ts:176-204 | over every interleaving a wake begins a new spawn if and only if no container of the session runs, no wake of it is in flight, and its exits are at least 5000 ms old; otherwise it changes nothing |
| `ContainerRunner.NoDuplicateContainers` | src/container-runner.ts:138-294 | over every interleaving a session never has two containers, nor a container beside another spawn's wake |
| `ContainerRunner.StartsAreThrottled` | src/container-runner.ts:186-198 | every start is at least 5 s after the session's exit before it |
| `ContainerRunner.SpawnRate` | src/container-runner.ts:141-150 | any window of T ms holds at most T/5000 + 1 starts of a session |
| `Delivery.DeliveryHost.BeginDelivery` | src/delivery.ts:177-208 | the re-entry guard, and the list: the due messages without a delivered row, each once, of two always the one due first before the other |
| `Delivery.DeliveryHost.EndDelivery` | src/delivery.ts:185-187 | the session may be drained again |
| `Delivery.DeliveryHost.OnAttempt` | src/delivery.ts:216-258 | the tables after one attempt: recorded with the platform's id, counted, or given up from the third failure on; and exactly when the section itself throws |
| `Delivery.DeliveryHost.DrainLoop` | src/delivery.ts:216-259 | each message up to the end has had exactly its own attempt and is accounted for; the loop ends early only at one that could not be given up; no other message changes |
| `Delivery.UndeliveredIsFilter` | src/delivery.ts:207-209 | the list holds exactly the due messages that are not recorded, each once |
| `Delivery.UndeliveredKeepsOrder` | src/delivery.ts:207-209 | of two unrecorded messages the one due first stands first |
| `Delivery.RunKeepsInv` | src/delivery.ts:177-260 | what every poll, attempt, lost give-up and finish keeps while delivered records are written |
| `Delivery.RunSeenAs` | src/delivery.ts:216-236 | apart from success counts, a run with lost records is the run in which those deliveries threw |
| `Delivery.AtMostOnce` | src/delivery.ts:177-260 | over every interleaving of the callers, with any writes failing: at most three attempts and one more per lost give-up, none for a recorded message; exactly one delivery per lost record and one if recorded; given up after exactly as many attempts; what a drain handled is accounted for |
| `Delivery.AtMostOnceIffRecorded` | src/delivery.ts:217-236 | all runs deliver a message at most once if and only if its own record cannot be lost or was there already |
| `Delivery.AtMostThriceIffGivenUp` | src/delivery.ts:233-246 | all runs attempt a message at most three times if and only if its own given-up row cannot be lost or it was recorded already |
| `Delivery.FinishedDrainsAreComplete` | src/delivery.ts:207-260 | from a poll that starts a drain, through any run in which it is not aborted, to its finish: every message due and unrecorded at the poll is recorded or has one or two attempts |
| `Delivery.DrainKeepsItsList` | src/delivery.ts:207-216 | over any run up to its end a drain's list is the one taken at its poll |
| `Delivery.AttemptsComeInOrder` | src/delivery.ts:204-217 | over any run from a poll to the drain's end: once the drain has come to a message it is done with every unrecorded one that was due before it |
| `Delivery.RowsNeverChange` | src/db/session-db.ts:266-276 | a delivered row never changes, in any run, failing writes included |
| `Delivery.FailedWriteDeliversTwice` | src/delivery.ts:217-236 | for every message not yet recorded, one lost record of its own leads to a second delivery |
| `Delivery.LostGiveUpTriesAgain` | src/delivery.ts:233-246 | for every message not yet recorded, one lost give-up of its own leads to a fourth attempt |
| `Router.FindForAgent` | src/db/sessions.ts:36-53 | the first active session of the key, or none |
| `Router.FindByAgentGroup` | src/db/sessions.ts:56-60 | the latest active session of the agent group, or none |
| `Router.Router.ResolveSession` | src/session-manager.ts:85-126 | the latest session of the agent group, or the earliest one of messaging group and thread, if there is one, and then nothing changes; otherwise one new row, with the thread only if per-thread |
| `Router.Router.DeliverToAgent` | src/router.ts:390-467 | the sessions and inboxes after a delivery, with the command gate after session creation and repeated ids ignored |
| `Router.Router.RouteInbound` | src/router.ts:145-335 | an unknown group is created for a mention only; without wirings nothing changes; otherwise the sessions are those of the run of its turns, and the message is recorded as dropped exactly if no existing agent's wiring accumulates, or is addressed by its mode and lets the sender pass; a dropped message changes nothing |
| `Router.Router.FanOut` | src/router.ts:277-324 | the loop is the run of the wirings' turns and counts those that engage or accumulate |
| `Router.TurnIsLocal` | src/router.ts:277-322 | a turn adds at most one session, of its own agent, and writes to no other agent's inbox |
| `Router.OnlyEngagedIsDue` | src/router.ts:443-467 | a turn adds a due message exactly when it wakes the agent with a new message past the command gate; accumulated, repeated and gated messages add none |
| `Router.WhoIsWoken` | src/router.ts:277-467 | one routed message, per mode of each wiring: an agent without this id gets it as due work if and only if it exists, both gates and the command gate pass, and it is a mention (mention), the pattern is absent, ".", does not compile or matches (pattern), it is a mention or an active session for agent, group and thread exists in a group (mention-sticky), and in no other mode; as context if and only if it accumulates what it is not woken for; with this content and in a session for the right conversation |
| `Router.EngagesIffAddressed` | src/router.ts:345-388 | evaluating a wiring's mode is the same condition over message and table rows, without the lookup |
| `Router.NobodyTakesIt` | src/router.ts:277-335 | the loop counts nothing exactly if no wiring takes the message, and then it changes nothing |
| `Router.ResolvingTwice` | src/session-manager.ts:91-126 | resolving the same session twice keeps active keys unique if and only if one existed or the lookup can find what is stored |
| `Router.SessionsStayUnique` | src/session-manager.ts:85-126 | over every interleaving of turns and closings at most one active session per agent group, messaging group and thread, and no inbox with a repeated id |
| `Router.TurnSettles` | src/router.ts:390-467 | repeating a turn changes nothing, even if it now engages where it only accumulated before |
| `Router.SettledStays` | src/router.ts:513-516 | another agent's turn does not disturb that |
| `Router.RoutingIsIdempotent` | src/router.ts:145-335 | routing a message with an id twice leaves sessions and inboxes as after once |
| `Router.StickyIffActivated` | src/router.ts:357-408 | after any history without closings a message that is no mention engages a mention-sticky wiring if and only if an earlier one activated its thread |
| `Router.StickyIffMentioned` | src/router.ts:377-384 | with an adapter and the drop policy: if and only if an earlier mention in the same effective thread passed both gates |
| `Router.StickyUnderAccumulate` | src/router.ts:310-312 | with the accumulate policy any earlier message of the thread is enough |
| `StateSqlite.Lock.constructor` | src/state-sqlite.ts:96 | a handle carries thread, token and expiry |
| `StateSqlite.SqliteStateAdapter.AcquireLock` | src/state-sqlite.ts:87-97 | refused exactly while an unexpired row exists, and then nothing changes; otherwise a row and a handle with the new token, all other rows as they were |
| `StateSqlite.SqliteStateAdapter.ReleaseLock` | src/state-sqlite.ts:99-101 | removes the row only with its token |
| `StateSqlite.SqliteStateAdapter.ExtendLock` | src/state-sqlite.ts:103-113 | extends row and handle together, or neither |
| `StateSqlite.SqliteStateAdapter.ForceReleaseLock` | src/state-sqlite.ts:115-117 | removes the thread's row |
| `StateSqlite.SqliteStateAdapter.Cleanup` | src/state-sqlite.ts:176-181 | a lock or list row survives if and only if it has not expired; every queue is as it was |
| `StateSqlite.SqliteStateAdapter.AppendToList` | src/state-sqlite.ts:121-136 | the new row comes one behind the highest index of its list and exactly the rows up to the cutoff are gone; other lists are as they were |
| `StateSqlite.AppendRefines` | src/state-sqlite.ts:121-136 | indices without gaps stay so, and the contents are the last `maxLength` of contents plus value |
| `StateSqlite.SqliteStateAdapter.Enqueue` | src/state-sqlite.ts:150-154 | append and count, with any operations of other callers between them; the depth returned is the queue's length at the count; undisturbed, the queue becomes the last `maxSize` of queue plus entry and other lists are untouched |
| `StateSqlite.SqliteStateAdapter.Dequeue` | src/state-sqlite.ts:156-164 | returns and removes the oldest entry; other lists are untouched |
| `StateSqlite.SqliteStateAdapter.QueueDepth` | src/state-sqlite.ts:166-172 | the length of the queue's contents |
| `StateSqlite.StepRefines` | src/state-sqlite.ts:121-181 | one operation on the table is one operation on the queues |
| `StateSqlite.QueueRefinement` | src/state-sqlite.ts:121-181 | over every operation sequence, appends and counts of enqueues apart, the table answers exactly as drop-oldest FIFO queues, through emptying, cleanup and unrelated lists |
| `StateSqlite.LockRunKeepsInv` | src/state-sqlite.ts:87-117 | what every lock operation and cleanup keeps: live handles and rows correspond |
| `StateSqlite.MutualExclusion` | src/state-sqlite.ts:87-117 | over all runs two live handles for one thread are the same handle |
| `StateSqlite.RefusedIffHeld` | src/state-sqlite.ts:87-97 | over all runs a lock is refused if and only if somebody holds it live |
| `StateSqlite.StaleTokenIsHarmless` | src/state-sqlite.ts:99-113 | releasing or extending never changes another holder's row |
| `Crc32.MakeTable` | setup/lib/teams-manifest.ts:117-127 | entry n is byte n shifted through the register bit by bit |
| `Crc32.TableStep` | setup/lib/teams-manifest.ts:131-133 | one table step is eight bit steps of the register |
| `Crc32.ComputeCrc32` | setup/lib/teams-manifest.ts:129-135 | the table-driven loop computes the bit-serial CRC of RFC 2083 section 3.4 for every buffer |
| `Crc32.CheckValue` | setup/lib/teams-manifest.ts:117-135 | that CRC of the digits 1 to 9 is cbf43926, the check value of CRC-32 |
| `Crc32.FeedInjective` | setup/lib/teams-manifest.ts:129-135 | equal bytes never merge two different registers |
| `Crc32.FeedWord` | setup/lib/teams-manifest.ts:129-135 | up to four bytes act as one xor and one shift |
| `Crc32.BurstsAreDetected` | setup/lib/teams-manifest.ts:129-135 | buffers that differ only within four adjacent bytes have different CRCs |
| `Crc32.ByteErrorsAreDetected` | setup/lib/teams-manifest.ts:129-135 | buffers that differ in one byte have different CRCs |
| `Png.Be32RoundTrip` | setup/lib/teams-manifest.ts:139-142 | four big-endian bytes give the number back |
| `Png.Be32Bytes` | setup/lib/teams-manifest.ts:139-142 | the most significant byte comes first |
| `Png.WriteChunk` | setup/lib/teams-manifest.ts:137-144 | a chunk is length, type, data and the CRC of type and data |
| `Png.ReadWrittenChunk` | setup/lib/teams-manifest.ts:137-144 | a CRC-checking reader reads a written chunk back, whatever follows |
| `Png.DamagedChunkIsRefused` | setup/lib/teams-manifest.ts:137-144 | a chunk damaged within four adjacent bytes of type and data is refused |
| `Png.FillScanlines` | setup/lib/teams-manifest.ts:161-169 | the two loops lay the rows out in place, each behind a zero filter byte |
| `Png.ScanlinesAt` | setup/lib/teams-manifest.ts:161-169 | byte by byte: filter 0 before each row, then its pixel bytes, and 0 where the pixels end early |
| `Png.RowsRoundTrip` | setup/lib/teams-manifest.ts:161-169 | the pixels can be read back from the scanlines |
| `Png.EncodePng` | setup/lib/teams-manifest.ts:150-178 | exactly when the 32-bit writes refuse, and otherwise the file byte for byte, its CRCs and the constant end chunk included |
| `Png.PngRoundTrip` | setup/lib/teams-manifest.ts:150-178 | a reader that checks every CRC recovers width, height and all pixels |
| `SplitForLimit.FindCut` | src/channels/chat-sdk-bridge.ts:189-192 | the cut is at a paragraph, a line, a space or the limit, in that order |
| `SplitForLimit.CutIsLastBreak` | src/channels/chat-sdk-bridge.ts:189-192 | the cut is the last paragraph break from 1 to the limit, without one the last newline there, without one the last space there, and otherwise the limit |
| `SplitForLimit.Split` | src/channels/chat-sdk-bridge.ts:184-198 | the loop ends for every limit from 1 up and gives the specified pieces of the text |
| `SplitForLimit.Turn` | src/channels/chat-sdk-bridge.ts:188-195 | what one turn cuts off, and that it cuts on whitespace or at the limit, with plain whitespace the latter only if there is none after the first character |
| `SplitForLimit.SplitIsFaithful` | src/channels/chat-sdk-bridge.ts:184-198 | the pieces are in order, leave out only whitespace, fit the limit and are non-empty after the first |
| `SplitForLimit.ChunksAreTrimmed` | src/channels/chat-sdk-bridge.ts:193-194 | no chunk ends on whitespace before another one, and none starts on it after another one |
| `SplitForLimit.ShortWordsStayWhole` | src/channels/chat-sdk-bridge.ts:184-198 | with plain whitespace all words within the limit stay whole if and only if the text does not start with one whitespace character and a word of exactly the limit |
| `SplitForLimit.SpaceAndNewlineSeparate` | src/channels/chat-sdk-bridge.ts:189-192 | for each limit, a whitespace character separates short words in all texts if and only if it is a space or a newline or the limit is 1 or 2 |
| `SplitForLimit.OtherSpacesAreNotSeen` | src/channels/chat-sdk-bridge.ts:189-192 | for every other whitespace character and every limit from 3 up, a text in which a word of the limit's length is split |
| `SplitForLimit.NoProgressAtZero` | src/channels/chat-sdk-bridge.ts:188-195 | with limit 0 a turn changes nothing if and only if the text does not start with whitespace |
| `SplitForLimit.EndsAtZeroIffAllSpace` | src/channels/chat-sdk-bridge.ts:188-195 | with limit 0 the loop ends if and only if the text is all whitespace |
| `WrapLine.VisibleLengthAdds` | setup/lib/theme.ts:71-75 | visible lengths add up across a space, whatever escapes surround it |
| `WrapLine.EscapesTakeNone` | setup/lib/theme.ts:71-75 | ESC, [, any digits and semicolons, m: no width, whatever follows |
| `WrapLine.OthersTakeOne` | setup/lib/theme.ts:71-75 | any character that does not begin such an escape takes one |
| `WrapLine.WordsJoin` | setup/lib/theme.ts:101 | the words joined by spaces are the line |
| `WrapLine.WrapLine` | setup/lib/theme.ts:99-121 | the loop prints the specified rows |
| `WrapLine.WrapIsGreedy` | setup/lib/theme.ts:99-121 | for words that show something, at every width: the rows printed are the greedy rows, joined by spaces they give the line back, and each fits or is a single word |
| `WrapLine.GreedyStaysAhead` | setup/lib/theme.ts:99-121 | greedy rows for any tail never outnumber the rows of any split of the whole |
| `WrapLine.GreedyIsOptimal` | setup/lib/theme.ts:99-121 | for all words and widths, no other in-order split into rows that fit or are single words has fewer rows |
| `WrapLine.GivenBackIffNothingLost` | setup/lib/theme.ts:99-121 | for each line and width, the rows joined by spaces give the line back if and only if it fits, is empty, or the loop drops no row that shows nothing |
| `WrapLine.IndentIsLost` | setup/lib/theme.ts:101-109 | an indented line that does not fit is never given back; it is wrapped as if without the indentation |
| `WrapLine.SomeIndentIsLost` | setup/lib/theme.ts:101-109 | for every width an indented line that is not given back |
| `StatusStream.EmitStatus` | setup/status.ts:6-16 | the printed text: the header line, one line per field in order, the end line |
| `StatusStream.StatusStream.Write` | setup/lib/runner.ts:66-75 | the state after any chunk |
| `StatusStream.StatusStream.ProcessLine` | setup/lib/runner.ts:77-97 | the state after one line: an opening line discards a block still open, a closing one ends it, and fields count only inside one |
| `StatusStream.OpensIff` | setup/lib/runner.ts:78-82 | a line opens a block of a kind if and only if it starts with the marker around that kind, non-empty and without whitespace |
| `StatusStream.FieldIs` | setup/lib/runner.ts:92-96 | key and value are what stands before and after the first colon, trimmed; without a colon or with an empty key there is no field |
| `StatusStream.ChunksDoNotMatter` | setup/lib/runner.ts:66-75 | the state depends on the text only, not on how it is cut into chunks |
| `StatusStream.FieldRoundTrip` | setup/lib/runner.ts:92-96 | a printed field is read back unchanged if and only if its key is non-empty, trimmed and free of colons and its value trimmed |
| `StatusStream.OrdinaryKeysAreSafe` | setup/lib/runner.ts:78-83 | a key that does not start with = never makes a marker |
| `StatusStream.StatusRoundTrip` | setup/lib/runner.ts:58-98 | blocks printed among noise lines and cut into any chunks are read back exactly, in order, with nothing left over |

## Left out

- Usage, energy and token fields, message ids, the model mapping and the `tools` list of requests: copied through without logic.
- The text layer of the event streams (lines, `data:` prefixes, JSON, UTF-8): events and chunks are values, and the two tests for absence that differ (null against empty) are kept apart only for reasoning. A client that disconnects, and what the proxy does after a stream threw.
- An assistant or user turn whose content is neither text nor a list, and content blocks of other types than text, tool_use and tool_result (these are skipped by the code and carried as other parts here).
- SessionDb.InboundDb.InsertMessage: a row that collides on id and on seq at once is taken to report the id; other SQLite errors, busy waits and transactions are not modelled.
- HostSweep.SweepSession: rows that other writers add while a wake is awaited are not part of it, nor are recurring tasks and orphan rows cleaned by a starting container.
- `CountDue` and the retry rows compare whole seconds on one clock; time zones are left out.
- Container setup (mounts, arguments, credentials), containers left over from an earlier host run, and a process that reports both an error and a close: one terminal event per process.
- Delivery.AtMostOnce: channel adapters that are not registered and a host restart (which forgets attempt counts) are left out. The wake server's `pending` set only suppresses calls, so runs without it include those with it.
- Router.Router.RouteInbound: subscriptions, waking, typing indicators, attachments, the approval request for an unwired channel and the reply to a denied command are left out. Session ids are positions in the table and never reused; sessions are not deleted; `created_at` follows creation order. Gates, roles and the command gate are fixed functions of the message.
- Router.StickyIffActivated: for wirings in agent-shared mode, direct messages and histories with closed sessions nothing is claimed; thread ids `""` are excluded.
- The key-value and subscription tables of the state adapter, and lists whose entries expire at different times: trimming counts expired rows, so only the queue, which never expires, has a simple meaning.
- StatusStream.StatusRoundTrip: a field whose key is `__proto__` does not become a field in JavaScript; fields are a map here. Noise lines stand between blocks, not inside them.
- SplitForLimit.Split: requires a limit of at least 1; limit 0 has its own results, negative limits are not modelled.
- Characters outside the basic plane and lone surrogates: a Dafny `char` cannot be a surrogate, so the text algorithms are modelled on the other code units.
- Setup screens, channel drivers, HTTP servers, Docker calls, logging.
