# Verification of the interview trainer's core

A Dafny model of the parts of the interview trainer where a mistake would be silent: event-sourced
projections that must equal their own replay, database protocols that many requests run at once,
bounded in-memory streams that must make any loss visible, and a few algorithms whose result nobody
re-checks. `dafny verify dfyconfig.toml` checks all of it.

| file | what it models |
|---|---|
| `ConceptGraph.dfy` | the corpus check of the prerequisite graph, with its explicit-stack three-colour walk |
| `Mastery.dfy` | abilities, schedules and item ratings as a fold of the evidence table, live and rebuilt |
| `Ledger.dfy` | the LLM budget: check-and-reserve, settle, expiry, three scopes and two units |
| `Idempotency.dfy` | `Idempotency-Key`: requests racing on one key, as interleaved database steps |
| `Sessions.dfy` | the session's status machine with turns, submissions, gradings and ending interleaved |
| `EventBus.dfy` | bounded channels in a bounded, least-recently-published-first registry |
| `Stream.dfy` | the polling generator, the connection and the client's reducer, composed |
| `TurnLoop.dfy` | the interviewer's turn and its tools, against an adversarial model |
| `Planner.dfy` | shortlist, prerequisite substitution and greedy fill of a session plan |
| `Complexity.dfy` | the probe's least-squares slope and verdict |
| `Probe.dfy` | the probe's sweep over sizes, and what its verdict depends on |
| `Practice.dfy` | the practice log's schedule and evidence |
| `Paging.dfy` | the practice log's cursor pagination |
| `Jobs.dfy` | the job tracker's stage projection, replay and funnel |
| `Import.dfy` | research, deduplication and import of a pasted list, and adding by hand |
| `Sandbox.dfy` | draining output into a bounded buffer and finding the result line in its tail |

A protocol is a state, the steps on it and a `Run` over any sequence of steps; each invariant has one
lemma a step, and the promises are lemmas about every run. Where the code updates objects in place, a
class has its fields, and each method is proved to take the abstract state to the next one. The
database's unique constraints and advisory locks are atomic steps. Floating-point numbers are reals.
The Elo expectation, the FSRS step, the logarithm, the JSON parser and the calendar are parameters,
with what is needed of them stated where it is needed. `Base.dfy` holds what several models share, sorting
included.

## Where the code and its descriptions part

Each of these is proved, with the condition under which the description does hold.

- A page opened (with no resume point) after more than 256 events is told of no gap and records none:
  `Stream.FreshClientLosesSilently`, `Stream.LossIsVisibleIff`.
- `stream.gap` and `stream.timeout` carry no `seq`, so the first one turns the reducer's `lastSeq` into
  NaN, and no jump is noticed from then on: `Stream.ControlFrameBlindsClient`, `Stream.NoticesJumpsIff`.
  After one timeout a client that falls behind loses events with no gap recorded, reconnecting or not:
  `Stream.TimedOutClientLosesSilently`.
- A submission that checked the session while it was open may be stored after the session completed,
  and then stays ungraded in it: `Sessions.LateSubmissionIsUngraded`, `Sessions.LateWriteIsUngradedIff`.
- "At most one call over the ceiling" needs reservations to settle before they expire:
  `Ledger.LateSettleBreaksPromise`.
- A handler that outlives its key runs beside a second one once a sweep succeeds. If it fails it deletes
  the second one's row, and if it succeeds it stores its answer there, so that a request with the second
  one's body is replayed the first one's answer: `Idempotency.SecondHandlerStartsIffOutlived`,
  `Idempotency.OutlivingHandlerDropsOthersRow`, `Idempotency.AnswerReachesOtherBody`. It hits another's
  row exactly when that was created after its own lifetime ended: `Idempotency.HitsOthersRowIff`.
- Adding an application by hand compares the trimmed new name with stored names that were not trimmed,
  so a job can be stored twice and adding one again can fail: `Import.StoredTwiceIff`,
  `Import.PaddedNameIsStoredTwice`, `Import.AddedAgainIsFoundIff`.
- An answer check that raises is refused to the model but not charged to the session, so the next turn
  has it back: `TurnLoop.ThrownCheckIsForgiven`.
- A submission that stays within its target's band at every size is still judged slower, and so
  penalised, if measuring every size cost more than the budget: the sweep counts as cut short after
  its last size. For a whole sweep within the band it is so exactly then:
  `Probe.WithinCeilingIsSlowerIff`, with an example in `Probe.OverspentSweepIsSlower`.
- "Never loses a row" is true of rows, not of the jobs pasted: research may rename a row, and two jobs
  answered under one name become one application. A pasted job is on the board afterwards exactly when
  it was before or some completed row has its name: `Import.Ingest`, `Import.RenamedJobIsLost`.
- The detail is stdout followed by stderr, cut to its last 64 KiB, and the last result line in it wins. So
  the runner's line, though printed last, decides only if nothing on stderr reads as a result, the line
  and stderr fit, and the program had ended its last line on stdout: `Sandbox.RunnerLineDecidesIff`,
  `Sandbox.StderrWins`, `Sandbox.UnfinishedOutputLosesScore`, and `Sandbox.DetailReads` for every run.
  (An unfinished line is also harmless if the cut falls exactly at its end.)
- When no line wholly in the tail reads as a result, the tail and the whole output can be scored
  differently, by what is left of a cut line: `Sandbox.TailScoresAlikeIff`.
- A reserved review that does not fit is dropped after the fill, and the minutes held for it stay unused:
  `Planner.ReviewIsDroppedIff`, `Planner.DroppedReviewWastesMinutes`. Otherwise the fill is maximal for
  the whole budget: `Planner.PlanUsesBudget`.
- The mastery projection equals its replay because rows are appended under the lock in the order of
  their keys: without that they differ (`Mastery.OutOfOrderDiverges`).

## Model

| member | source | states |
|---|---|---|
| `ConceptGraph.CheckConceptGraph` | packages/corpus/src/corpus/validate.py:242-294 | on any records: every structural fault is reported and nothing else is; a cycle is reported iff the existing-node subgraph has a closed walk; each reported cycle is a simple one; with none reported the blackening order is topological |
| `ConceptGraph.TopologicalMeansAcyclic` | packages/corpus/src/corpus/validate.py:265-292 | a graph with a topological order of all its nodes has no closed walk, self-loops included |
| `ConceptGraph.LastRecordWins` | packages/corpus/src/corpus/validate.py:244-249 | of several records of one id the last is the one the graph holds |
| `ConceptGraph.ColouringShrinksWhite` | packages/corpus/src/corpus/validate.py:283-288 | entering a white node takes it out of the white nodes for good: the walk's termination measure |
| `ConceptGraph.LeaveIsTopological` | packages/corpus/src/corpus/validate.py:272-276 | when a node is left, all its existing prerequisites are finished, stale duplicate stack entries notwithstanding |
| `ConceptGraph.GreyIsCycle` | packages/corpus/src/corpus/validate.py:279-282 | meeting a grey node, the path from it on is a simple cycle |
| `ConceptGraph.EnterKeepsCover` | packages/corpus/src/corpus/validate.py:283-288 | every prerequisite of an unfinished node stays finished, pending on the stack, or being walked |
| `ConceptGraph.Checker.Walk` | packages/corpus/src/corpus/validate.py:268-288 | one walk terminates, finishes its start node, keeps the invariant and only appends cycles |
| `ConceptGraph.LoadConcepts` | packages/corpus/src/corpus/validate.py:243-249 | exactly the ids that occur twice are reported as duplicates |
| `ConceptGraph.CheckAttributes` | packages/corpus/src/corpus/validate.py:251-263 | exactly the topic, missing-prerequisite and own-prerequisite faults of one concept are reported |
| `Mastery.LiveEqualsRebuilt` | apps/api/src/api/mastery.py:178-302 | for every run of batches appended in key order, the live mastery rows, cards and item ratings are what a rebuild makes of the table, however it is stored |
| `Mastery.BatchExtendsReplay` | apps/api/src/api/sessions.py:543-583 | folding one batch into the replay of a log gives the replay of the longer log |
| `Mastery.LiveQueryAgreesWithReplay` | apps/api/src/api/mastery.py:230-247 | the first-row query, asked of the table up to a row's batch and asked of the whole table, gives the row one verdict |
| `Mastery.MovesIffFirst` | apps/api/src/api/mastery.py:230-247 | a row moves its item's rating iff it is graded, names the primary concept and no earlier row is of its attempt |
| `Mastery.ReplayIgnoresStorageOrder` | apps/api/src/api/mastery.py:294-298 | a rebuild does not depend on the order rows with ids of their own are stored in |
| `Mastery.OutOfOrderDiverges` | apps/api/src/api/mastery.py:125-140 | without the lock's ordering, live and rebuilt tables can differ |
| `Mastery.RatingDriftIsBounded` | apps/api/src/api/mastery.py:204-247 | an item's live rating is within K_ITEM of its prior for each session with a graded row on its primary concept |
| `Mastery.AbilityMovesAtMostK` | apps/api/src/api/mastery.py:81-88 | the n-th row on a concept moves its ability by at most its K factor, and by half of it without an item |
| `Mastery.AbilityFollowsSurprise` | apps/api/src/api/mastery.py:178-202 | a row moves its concept alone, from 1550 if new, by its surprise against the item's current rating or an equal, weighed by confidence and by 384/(8+n) of the n-th row until that is 10; it rises iff the score beats the expectation |
| `Mastery.ItemMovesAgainst` | apps/api/src/api/mastery.py:204-247 | the first graded row of an attempt on the item's primary concept moves the rating by 4 times the weighed surprise the other way: down iff the ability goes up; no other item and no other row moves a rating |
| `Mastery.ScheduleIsReviewHistory` | apps/api/src/api/mastery.py:249-260 | after any live run a concept's card is made by its first row and reviewed by each in time order, a score under 0.5 as a lapse, 0.75 hard, 0.95 good, else easy; due date and stability are that card's, last seen the latest row's |
| `Mastery.ObservationsCountRows` | apps/api/src/api/mastery.py:201-202 | a concept's observations are the number of its evidence rows |
| `Mastery.ItemlessRowsCommute` | apps/api/src/api/mastery.py:189-202 | rows without an item on different concepts can be applied in either order |
| `Mastery.Store.ApplyEvidence` | apps/api/src/api/mastery.py:178-262 | the read-modify-write of one row is the fold's step |
| `Mastery.Store.RecordBatch` | apps/api/src/api/sessions.py:548-583 | a batch under the lock leaves tables that are again the replay of all evidence |
| `Mastery.Store.Recompute` | apps/api/src/api/mastery.py:265-302 | whatever the tables held, they hold the replay afterwards; valid tables do not change |
| `Ledger.SpendIsBounded` | apps/api/src/api/llm.py:375-468 | for every interleaving, counted spend in each governed scope and unit stays below ceiling + largest reservation + what settlings raised |
| `Ledger.OvershootIsOneReservation` | apps/api/src/api/llm.py:375-430 | settled in time and within their reservations, any number of overlapping calls stay below ceiling + one reservation |
| `Ledger.InTimeOverrunIsExcess` | apps/api/src/api/llm.py:444-468 | with every settling in time, what settlings raise is the usage beyond reservations |
| `Ledger.SpentIsExact` | apps/api/src/api/llm.py:150-210 | for every interleaving each total is the sum over the calls reserved in the scope of what the last settling of each named, failed or not, or else its reservation for a quarter of an hour |
| `Ledger.RowIsItsCall` | apps/api/src/api/llm.py:375-468 | a row is its reservation until settled, and then what its last settling named, with the time and session it was reserved with |
| `Ledger.SettlingCountsUsage` | apps/api/src/api/llm.py:444-468 | a settling puts the reported usage, a failed call's too, in the place of what the row counted, in every scope the row is in |
| `Ledger.BoundIsTight` | apps/api/src/api/llm.py:324-366 | the bound is met to the last token |
| `Ledger.LateSettleBreaksPromise` | apps/api/src/api/llm.py:160-176 | for any ceiling and any reservation that reaches it, one reservation settled after its expiry breaks the one-reservation bound with no call above its reservation |
| `Ledger.CheckIsExact` | apps/api/src/api/llm.py:324-366 | a call is refused iff a ceiling that governs it is reached (dollars to half a millionth), and the refusal names such a ceiling |
| `Ledger.RefusalNamesFirst` | apps/api/src/api/llm.py:324-366 | a refusal names the first full ceiling, dollars by month, day and session before tokens by day and session, and none is given when none of the five is full |
| `Ledger.RoundsToNearest` | apps/api/src/api/llm.py:317-319 | remaining dollars are taken to the nearest millionth, ties to the even one |
| `Ledger.WhereLosesNothing` | apps/api/src/api/llm.py:263-295 | the rows the shared WHERE leaves out count in no scope: the filtered sums are the table's |
| `Ledger.SpentFalls` | apps/api/src/api/llm.py:160-210 | time alone never raises a total |
| `Ledger.CallLedger.Enforce` | apps/api/src/api/llm.py:324-366 | the ordered early-exit check refuses on the first exhausted leg |
| `Ledger.CallLedger.ReserveCall` | apps/api/src/api/llm.py:375-430 | check and claim are one step: a row is added iff the check passes on the ledger before it |
| `Ledger.CallLedger.SettleCall` | apps/api/src/api/llm.py:444-468 | settling replaces the reservation by the actual usage on that row alone |
| `Idempotency.OneHandlerAtATime` | apps/api/src/api/idempotency.py:118-182 | for every interleaving in which no handler outlives the key, at most one handler runs |
| `Idempotency.OneExecutionPerLifetime` | apps/api/src/api/idempotency.py:118-182 | when no handler outlives the key, two handlers that succeed under it started more than its lifetime apart |
| `Idempotency.ReplayIsExecutedAnswer` | apps/api/src/api/idempotency.py:154-166 | when no handler outlives the key, every replayed answer is what was executed for the same body; another body never receives it |
| `Idempotency.ReplaysMatchIfStoresDo` | apps/api/src/api/idempotency.py:154-181 | however late handlers are, every replayed answer is what was executed for the same body as long as no store fell on the row of another body |
| `Idempotency.MismatchIsReplayed` | apps/api/src/api/idempotency.py:177-181 | an answer stored on the row of another body is replayed to the next request with that body, within the row's lifetime |
| `Idempotency.HitsOthersRowIff` | apps/api/src/api/idempotency.py:168-181 | in any run in which only this handler may be late, its last step fills or deletes another's row iff there is a row created after its own lifetime ended; in time, it still holds its own |
| `Idempotency.FailureFreesKey` | apps/api/src/api/idempotency.py:168-175 | when no handler outlives the key, after a failed handler nothing runs, no row is left, and the next request runs its handler |
| `Idempotency.NewcomerIsAnswered` | apps/api/src/api/idempotency.py:118-166 | when no handler outlives the key, a newcomer gets 409 while a handler with its body is under way, the executed answer within a day of it, 422 if its body is another, and else runs its handler |
| `Idempotency.NewcomerIs` | apps/api/src/api/idempotency.py:118-166 | served with nothing in between, in any state: it runs iff there is no row or its sweep drops one over a day old, and else is told what the row says and leaves it |
| `Idempotency.HandlerEnds` | apps/api/src/api/idempotency.py:168-182 | a handler that returns is answered and has its answer stored on the row that is there; one that raises leaves none; no other request changes |
| `Idempotency.SweepDropsIff` | apps/api/src/api/idempotency.py:97-115 | a sweep by another request drops the row iff it is more than a day old |
| `Idempotency.SecondHandlerStartsIffOutlived` | apps/api/src/api/idempotency.py:97-115 | a request that comes while a handler runs is let in iff its sweep succeeds and that handler outlived its key |
| `Idempotency.OutlivingHandlerDropsOthersRow` | apps/api/src/api/idempotency.py:168-175 | an outliving handler that fails deletes another's row, so a third handler starts beside the second |
| `Idempotency.AnswerReachesOtherBody` | apps/api/src/api/idempotency.py:177-181 | an outliving handler that succeeds stores its answer on the row of the request let in beside it, whose body differs; a third request with that body is replayed it while the second's handler still runs |
| `Idempotency.KeyTable.ExpireKeys` | apps/api/src/api/idempotency.py:97-115 | only a row older than the lifetime is dropped |
| `Idempotency.KeyTable.RunOnce` | apps/api/src/api/idempotency.py:118-182 | undisturbed: runs the handler iff the key is free, replays the same body, refuses another, and leaves no row after a failure |
| `Idempotency.KeyTable.RetryIsReplayed` | apps/api/src/api/idempotency.py:118-182 | a retry gets the first answer and runs nothing within the key's lifetime, and runs again after it |
| `Sessions.ReachableSessions` | apps/api/src/api/sessions.py:245-309 | in every reachable state: ended iff complete or abandoned, one artifact an item, wrapping implies an ungraded artifact, open implies an undecided item |
| `Sessions.EndsAreAbsorbing` | apps/api/src/api/sessions.py:628-662 | no interleaving leaves complete or abandoned, or moves the time of the end |
| `Sessions.SubmittedWhileOpen` | apps/api/src/api/sessions.py:326-365 | in every run each stored artifact was submitted while the session was briefing or interviewing, for a planned item that had none then |
| `Sessions.ClosedTakesNothing` | apps/api/src/api/sessions.py:260-264 | wrapping, complete or abandoned, a session takes no submission and no turn, and is ended only from wrapping |
| `Sessions.OpenLetsInIff` | apps/api/src/api/sessions.py:315-365 | while open, a submission is held for writing iff its item is planned, known and has none |
| `Sessions.BriefingIsUntouched` | apps/api/src/api/sessions.py:266-273 | a briefing session has always been one, with nothing stored and no item ended |
| `Sessions.TurnMeans` | apps/api/src/api/sessions.py:217-283 | a turn is about the first item undecided, ends it if the round ended, and leaves the session interviewing, wrapping if no item is left but a grading is under way, and else complete |
| `Sessions.NoTurnWithoutItem` | apps/api/src/api/sessions.py:266-271 | with every planned item submitted, ended or unknown, no turn is taken |
| `Sessions.WriteMeans` | apps/api/src/api/sessions.py:367-391 | a held-back write stores its submission ungraded unless the item has one and starts an interview seen unstarted, or ends what is not over; nothing else held back is touched |
| `Sessions.GradingMeans` | apps/api/src/api/sessions.py:598-617 | a grade is put on its artifact alone, and completes a wrapping session iff no other artifact waits, an open one iff every planned item then has its grade |
| `Sessions.EndingEnds` | apps/api/src/api/sessions.py:628-662 | every state that is not an end can be ended |
| `Sessions.LastGradingCompletes` | apps/api/src/api/sessions.py:598-622 | grading the last ungraded artifact of a wrapping session completes it |
| `Sessions.LateSubmissionIsUngraded` | apps/api/src/api/sessions.py:315-392 | a run in which a complete session holds an ungraded artifact |
| `Sessions.UngradedInCompleteIsLate` | apps/api/src/api/sessions.py:598-622 | an ungraded artifact of a complete session was stored after it completed |
| `Sessions.LateWriteIsUngradedIff` | apps/api/src/api/sessions.py:355-391 | a held-back write leaves an ungraded artifact in a complete, graded session iff it is a submission of an item that has none |
| `Sessions.CompleteIsGraded` | apps/api/src/api/sessions.py:598-622 | with no submission stored after the end, a complete session is fully graded |
| `Sessions.CheckEstablishes` | apps/api/src/api/sessions.py:598-617 | the completion check leaves no session waiting for what cannot come, and completes none with a grading outstanding |
| `Sessions.InterviewSession.CheckComplete` | apps/api/src/api/sessions.py:598-617 | the check over every planned item's outcome is the machine's completion step |
| `Sessions.InterviewSession.TakeTurn` | apps/api/src/api/sessions.py:245-298 | a turn is refused unless the session is open and an item is left, and otherwise is the machine's step |
| `Sessions.InterviewSession.BeginSubmission` | apps/api/src/api/sessions.py:326-365 | a submission is accepted iff the session is open and the item planned, known and without one |
| `Sessions.InterviewSession.BeginEnding` | apps/api/src/api/sessions.py:644-645 | an ending is accepted iff the session is neither complete nor abandoned |
| `Sessions.InterviewSession.WritePending` | apps/api/src/api/sessions.py:367-391 | the compare-and-set writes of a submission or an ending keep the invariant whatever happened since their check |
| `Sessions.InterviewSession.Grade` | apps/api/src/api/sessions.py:517-595 | a grading, failed or not, is recorded and followed by the completion check |
| `EventBus.ChannelRefinesLog` | apps/api/src/api/events.py:108-120 | after any log the channel holds exactly its last 256 events, numbered consecutively |
| `EventBus.SinceIsLogSuffix` | apps/api/src/api/events.py:122-128 | from a resume point the buffer reaches, a reader gets exactly the rest of the log |
| `EventBus.SinceSkipsEvicted` | apps/api/src/api/events.py:135-145 | from further back it gets the whole buffer, and loses just the evicted events |
| `EventBus.PublishKeepsOrder` | apps/api/src/api/events.py:108-115 | the resident sessions stay distinct, within the cap, and the most recently published ones |
| `EventBus.Bus.Open` | apps/api/src/api/events.py:111-114 | a new channel enters last and evicts the first of a full bus |
| `EventBus.Bus.Publish` | apps/api/src/api/events.py:108-120 | the event gets its log's next number; other residents' logs are untouched; the most-recent property is kept |
| `EventBus.Bus.Forget` | apps/api/src/api/events.py:147-151 | exactly one session's channel and log go |
| `EventBus.Bus.EventsSince` | apps/api/src/api/events.py:122-145 | a resident channel is read as its log after the resume point, or as the last 256 events when that is further back; any other is empty |
| `Stream.DeliveredIsSubsequence` | apps/api/src/api/routes/events.py:93-129 | under any interleaving of publishing, polling, sending, dropping and reconnecting, what is delivered is a strictly increasing part of the log, unaltered |
| `Stream.EveryLossIsRecordedOnce` | apps/web/src/lib/session-reducer.ts:111-134 | until a control frame arrives, a number lies strictly inside exactly one recorded gap iff it was missed since the account began, and in none otherwise |
| `Stream.LossIsVisibleIff` | apps/web/src/lib/session-reducer.ts:116-128 | until a control frame arrives, delivered plus recorded losses is everything since the resume point iff the client resumed, or saw nothing, or saw number 1 |
| `Stream.CaughtUpAccountsForLog` | apps/api/src/api/routes/events.py:115-149 | until a control frame arrives, for a client with nothing under way, delivered plus the sizes of its gaps is the published log since its account began |
| `Stream.ConnectedCatchesUp` | apps/api/src/api/routes/events.py:112-154 | from any reachable state a connected client that is left to it reaches the end of the log |
| `Stream.ViewShowsReceived` | apps/web/src/lib/session-reducer.ts:136-224 | after any run the page shows the latest state, problem, warning and error, every hint and observation, the last word on each grading, messages and tool calls in order with each call's last result, the message half done, and what was typed |
| `Stream.ReceivedIsDelivered` | apps/api/src/api/routes/events.py:115-129 | the published frames received are what was delivered, in order |
| `Stream.GapsAreReal` | apps/web/src/lib/session-reducer.ts:116-128 | every recorded gap has a number inside, and every gap the server reports is recorded |
| `Stream.ResumesWhere` | apps/api/src/api/routes/events.py:57-68 | a number in the header is resumed from whatever the parameter says, a parameter without one, and neither from before 0 |
| `Stream.PollSkipsIff` | apps/api/src/api/routes/events.py:115-121 | a poll skips numbers iff more than a bufferful was published since the cursor |
| `Stream.OpenIsHonest` | apps/api/src/api/routes/events.py:93-106 | a gap frame is sent iff a resuming client lost something, and names exactly the evicted numbers |
| `Stream.FreshClientLosesSilently` | apps/api/src/api/routes/events.py:94-106 | a client that starts from nothing after more than a bufferful is told of no gap |
| `Stream.ControlFrameBlindsClient` | apps/web/src/lib/session-reducer.ts:114-134 | after a frame without a number the client never records a loss of its own again |
| `Stream.NoticesJumpsIff` | apps/web/src/lib/session-reducer.ts:117-133 | in every run the client's last number is a number iff it was sent no control frame |
| `Stream.TimedOutClientLosesSilently` | apps/api/src/api/routes/events.py:144-154 | an up-to-date client that timed out, reconnected and then fell more than a bufferful behind records no gap |
| `Stream.DroppedDeltasLeaveNoTrace` | apps/web/src/lib/session-reducer.ts:149-159 | two clients that differ only in which deltas they lost agree on everything but gaps once the message is done |
| `Stream.Subscription.Open` | apps/api/src/api/routes/events.py:57-106 | the stream opens at the header's number, or the parameter's, or 0, with the frame `OpenIsHonest` is about |
| `Stream.Subscription.Turn` | apps/api/src/api/routes/events.py:112-154 | one turn of the loop sends every event since the cursor, and ends iff the session is finished with nothing left or the connection expired |
| `TurnLoop.RationsHoldOverSession` | apps/api/src/api/agent/loop.py:101-156 | over any turns and any model, per item: at most 3 answers checked, at most 3 observations, each folded into mastery once |
| `TurnLoop.HintsAreTakenInOrder` | apps/api/src/api/agent/tools.py:314-343 | the hint levels revealed of an item are exactly 1 to the number grading counts |
| `TurnLoop.TurnIsBounded` | apps/api/src/api/agent/loop.py:241-431 | per turn at most 5 model calls and 12 tool calls, and exactly one authoritative message unless a model call failed; nothing written is changed |
| `TurnLoop.TurnIsScript` | apps/api/src/api/agent/loop.py:241-431 | a turn of any session is the candidate's message, then per round what the model said and row by row the answer to each of its first twelve calls; it dies iff a call of the model fails, stops at text, and apologises at the cap of calls or rounds; the item's round is over iff one of those calls ended it |
| `TurnLoop.UseIsAnswered` | apps/api/src/api/agent/tools.py:253-470 | an observation is recorded and folded iff accepted and fewer than three are on the rows, an answer checked iff the item takes one, it is not blank, does not raise and fewer than three checks are spent, a hint given iff it exists and is at most the next |
| `TurnLoop.RowsAreConsecutive` | apps/api/src/api/agent/loop.py:96-98 | a session's turns are numbered 1, 2, 3 and so on |
| `TurnLoop.ThrownCheckIsForgiven` | apps/api/src/api/agent/tools.py:346-386 | a check that raises uses up this turn's ration but not the session's |
| `TurnLoop.MessagesAlternate` | apps/api/src/api/agent/loop.py:159-180 | the rebuilt messages alternate between the sides, and together are the transcript |
| `TurnLoop.PromptsAlternate` | apps/api/src/api/agent/loop.py:295-305 | at every model call of every session the messages start and end with the user |
| `TurnLoop.AsMessages` | apps/api/src/api/agent/loop.py:159-180 | the loop builds those messages |
| `TurnLoop.Interviewer.AnswerUses` | apps/api/src/api/agent/loop.py:346-401 | the dispatch loop, cut off at the cap, is the model's |
| `TurnLoop.Interviewer.RunTurn` | apps/api/src/api/agent/loop.py:241-431 | the loop of rounds writes the rows, evidence and messages of the turn the lemmas are about |
| `Planner.PlanWithinBudget` | apps/api/src/api/planner.py:261-291 | a plan lasts as long as its items, and is over the budget only when it is one item longer than the budget |
| `Planner.TotalMeans` | apps/api/src/api/planner.py:273-279 | an item counts the minutes it declares, or 20 if none |
| `Planner.PlanIsMaximal` | apps/api/src/api/planner.py:262-287 | no shortlisted item that was left out would fit beside what was taken and the reserved review |
| `Planner.PlanUsesBudget` | apps/api/src/api/planner.py:262-291 | with no review to find, or with it in the plan, no shortlisted item that was left out would fit in the whole budget |
| `Planner.ReviewIsDroppedIff` | apps/api/src/api/planner.py:265-291 | a review that was found is dropped iff it is longer than the budget or the first other shortlisted item is longer than what it leaves; the plan is then that item alone, or nothing if there is none |
| `Planner.DroppedReviewWastesMinutes` | apps/api/src/api/planner.py:289-291 | beside a dropped review of 40 minutes, a budget of 30 is planned with 20 of its minutes, though a shortlisted item of 10 is left |
| `Planner.PlanIsDistinct` | apps/api/src/api/planner.py:265-291 | no item is planned twice, nor both drilled and reviewed |
| `Planner.PlanFollowsShortlist` | apps/api/src/api/planner.py:216-287 | weaknesses are a subsequence of the shortlist, most urgent first, then closest to the band, then by id; each measures its target, is as urgent as it and closest to the band, and its target is the concept itself with no weaker serveable gate or the weakest such gate |
| `Planner.ShortlistCovers` | apps/api/src/api/planner.py:214-231 | no ranked concept is forgotten: it is on the list itself where nothing gates it, else through its weakest gate, or itself where no item measures that |
| `Planner.GatesMeans` | apps/api/src/api/planner.py:129-133 | a prerequisite gates a concept iff it is ranked and the candidate is weaker on it |
| `Planner.BandDistanceIsLeast` | apps/api/src/api/planner.py:160-165 | an item's distance is the least to any score in the band, 0 iff inside |
| `Planner.SubstitutionExplained` | apps/api/src/api/planner.py:101-157 | the note given for a target is true |
| `Planner.WeakestIsWeakest` | apps/api/src/api/planner.py:128-137 | the substitute is a weaker prerequisite than which none is weaker |
| `Planner.WeakestIsFirst` | apps/api/src/api/planner.py:137 | of equally weak gates the substitute is the first |
| `Planner.BestIsClosest` | apps/api/src/api/planner.py:234-235 | the item chosen for a concept is the closest to the band, ties by id |
| `Planner.SpentTakesNothing` | apps/api/src/api/planner.py:271-275 | stopping once the budget is spent changes nothing |
| `Planner.ReviewIsDue` | apps/api/src/api/planner.py:317-367 | a review item is found iff some item measures a due concept: the first item of the first such concept |
| `Planner.FirstDueIsReviewed` | apps/api/src/api/planner.py:346-348 | the review is the first item that measures the first due concept any item measures |
| `Planner.MakeShortlist` | apps/api/src/api/planner.py:214-252 | the loop over ranked concepts builds the shortlist |
| `Planner.Fill` | apps/api/src/api/planner.py:265-287 | the loop with its early exit is the greedy choice |
| `Planner.MakePlan` | apps/api/src/api/planner.py:168-312 | the plan is assembled from the shortlist, the fill and the review |
| `Complexity.SlopeIsBetweenGrowths` | apps/executor/src/executor/complexity.py:171-182 | the fitted slope lies between the smallest and the largest consecutive growth exponent |
| `Complexity.SlopeIsLeastSquares` | apps/executor/src/executor/complexity.py:171-182 | the slope is the one of the least-squares line: any other line has a larger sum of squared residuals |
| `Complexity.Chebyshev` | apps/executor/src/executor/complexity.py:178-182 | against ascending sizes, a falling sequence has no positive covariance |
| `Complexity.DenominatorIsPositive` | apps/executor/src/executor/complexity.py:179-181 | over ascending sizes the denominator is positive |
| `Complexity.FitExistsIff` | apps/executor/src/executor/complexity.py:171-182 | there is a slope iff three sizes are usable |
| `Complexity.PowerLawIsExact` | apps/executor/src/executor/complexity.py:171-182 | on a power law the slope is its exponent |
| `Complexity.ScalingLeavesSlope` | apps/executor/src/executor/complexity.py:171-182 | scaling all times leaves the slope |
| `Complexity.WithinCeilingIsNeverSlower` | apps/executor/src/executor/complexity.py:233-272 | a sweep that was not cut short, within the band's ceiling at every step and with a first size of at most a second, is never judged slower |
| `Complexity.PastMarginIsSlower` | apps/executor/src/executor/complexity.py:255-272 | one past ceiling and margin at every step is, if it can be judged |
| `Complexity.PowerLawIsJudged` | apps/executor/src/executor/complexity.py:245-275 | a significant sweep whose time is the k-th power of the size matches iff k is within the band's ceiling and is slower iff k is 0.35 past it |
| `Complexity.VerdictIsFor` | apps/executor/src/executor/complexity.py:192-275 | exactly when a sweep is slower, matches or is inconclusive, and which slope is reported, for each band's ceiling |
| `Probe.TakenMeans` | apps/executor/src/executor/complexity.py:121-139 | the runs of a size are its first ones, up to a slow one, one that raises or the last repeat |
| `Probe.TimeSize` | apps/executor/src/executor/complexity.py:121-139 | the loop makes exactly those runs and adds up their time |
| `Probe.Sweep` | apps/executor/src/executor/complexity.py:93-149 | the loop with its three exits is the sweep the lemmas are about |
| `Probe.SweepMeans` | apps/executor/src/executor/complexity.py:93-149 | of any sweep: the points are the first sizes at their fastest run; its cost is that of every size started; each was started within budget and affordable; it ends because a size raised, the budget is spent, the next is unaffordable, or all were measured |
| `Probe.AffordableIff` | apps/executor/src/executor/complexity.py:97-116 | a size is started iff the time it has on the power law of the last two sizes, between linear and cubic, or on a cubic one, is left; the first one always |
| `Probe.RaisesIff` | apps/executor/src/executor/complexity.py:117-139 | a size raises iff no input can be made for it or a run raises before any was slow |
| `Probe.RaisedIsInconclusive` | apps/executor/src/executor/complexity.py:150-153 | a sweep that stopped early without being cut short is inconclusive |
| `Probe.WithinCeilingIsSlowerIff` | apps/executor/src/executor/complexity.py:143-149 | a whole sweep within the ceiling at every step, with a first size of at most a second, is judged slower iff its runs cost more than the budget |
| `Probe.OverspentSweepIsSlower` | apps/executor/src/executor/complexity.py:222-232 | five sizes, five runs of 0.9 s each, on the usual terms: all measured, within every band, judged slower |
| `Practice.StoredIsReplayed` | apps/api/src/api/practice.py:341-415 | after any run of the flows the stored schedule and evidence are a fold of the solve log |
| `Practice.ScheduleIsSound` | apps/api/src/api/practice.py:606-658 | graduated iff two reviews succeeded; due iff active; the interval of a classified problem stays in 1 to 7.5 days |
| `Practice.EvidenceIsCounted` | apps/api/src/api/practice.py:283-327 | evidence rows are solves times concepts once classified and none before; solves are numbered from 0 |
| `Practice.EvidenceIsClaimed` | apps/api/src/api/practice.py:283-298 | row by row: each solve's claim on the primary concept and its share on each other, 1.0 at 0.7 for a success and 0.2 at 0.5 for a lapse |
| `Practice.LogIs` | apps/api/src/api/practice.py:341-415 | a logged problem is active, due three days after its solve, iff its tag is given at 0.75 or more and nobody holds it, and else pending without a schedule |
| `Practice.ResolveIs` | apps/api/src/api/practice.py:559-603 | a pending problem resolved to known concepts has the schedule and evidence of its first solve, the primary concept out of the others; any other is unchanged |
| `Practice.ReviewIs` | apps/api/src/api/practice.py:606-658 | of an active problem a lapse halves the interval to a day at least, a second solve multiplies it by 2.5, a third graduates it; no other is reviewed |
| `Practice.Problem.constructor` | apps/api/src/api/practice.py:341-415 | logging a problem, accepted or held |
| `Practice.Problem.ResolveClassification` | apps/api/src/api/practice.py:559-603 | resolving is refused unless pending, and otherwise writes the evidence that waited |
| `Practice.Problem.RecordReview` | apps/api/src/api/practice.py:606-658 | a review is refused unless active, and otherwise is the schedule's step |
| `Paging.EveryMatchIsListedOnce` | apps/api/src/api/practice.py:745-780 | following the cursor ends and lists every row that matched at the start once, newest first, and no other, for any page size, filter and later rows |
| `Paging.PageIsPrefix` | apps/api/src/api/practice.py:754-770 | a page is the next rows of the old table, has no cursor iff it is the last, and its cursor leads to the rest |
| `Paging.NewerRowsStayOut` | apps/api/src/api/practice.py:757-758 | rows created since do not appear below an older cursor |
| `Jobs.ProjectMeans` | apps/api/src/api/jobs.py:1016-1031 | whatever the order of the events, the projection is the latest stage, the outcome it means, and the highest rung any names |
| `Jobs.RunKeeps` | apps/api/src/api/jobs.py:1099-1132 | after any inserts and advances every stored triple is the projection of a history numbered from 0 without equal neighbours |
| `Jobs.FurthestNeverFalls` | apps/api/src/api/jobs.py:1016-1031 | the furthest rung of an application never falls |
| `Jobs.StandsWhereLastNamed` | apps/api/src/api/jobs.py:1099-1132 | an application stands at the stage it was last added or moved to |
| `Jobs.AddedIsAt` | apps/api/src/api/jobs.py:794-869 | a new application was applied for first, is at the stage it was added at, and leaves every other alone |
| `Jobs.RankIsPlace` | apps/api/src/api/jobs.py:65-85 | the place of each stage on the ladder |
| `Jobs.Tracker.Insert` | apps/api/src/api/jobs.py:794-869 | an application is stored with its first events and their projection |
| `Jobs.Tracker.Advance` | apps/api/src/api/jobs.py:1099-1132 | a stage is appended unless it is the current one |
| `Jobs.Tracker.RecomputeAll` | apps/api/src/api/jobs.py:1049-1096 | every projection is rebuilt; nothing is corrected iff nothing changed, as is so for what the operations stored |
| `Jobs.Funnel` | apps/api/src/api/jobs.py:1257-1268 | histogram and suffix sum give, per rung, how many applications got at least there |
| `Jobs.ReachedCounts` | apps/api/src/api/jobs.py:1257-1268 | the number at a rung is that of the applications whose furthest stage is it or beyond |
| `Jobs.ShareMeans` | apps/api/src/api/jobs.py:1269-1286 | a share times all applications is those that got there |
| `Jobs.ConversionsTelescope` | apps/api/src/api/jobs.py:1269-1286 | the funnel only narrows and its conversions multiply to the share |
| `Import.ResearchJobs` | apps/api/src/api/jobs.py:581-688 | on every path as many rows as were given, with their stages; the first list recorded within six rounds iff it is as long, and else the given rows |
| `Import.Candidates` | apps/api/src/api/jobs.py:915-924 | research is asked about exactly the new, first rows that lack a URL, a location or a tag |
| `Import.Completed` | apps/api/src/api/jobs.py:926-946 | if there are candidates and research records one row each, those rows are what it says but for stage and date as pasted, and no other row changes; else none does |
| `Import.Ingest` | apps/api/src/api/jobs.py:872-1000 | created plus duplicates is the rows parsed; the duplicates are, in order, the applications of the rows tracked when their turn came; a pasted job is tracked afterwards iff it was before or a completed row has its key, so always when its row kept its name |
| `Import.AddRowsKeeps` | apps/api/src/api/jobs.py:952-975 | an import changes nothing stored, tracks every row, and makes no two applications of one folded key where there were none |
| `Import.AddRowsTrack` | apps/api/src/api/jobs.py:952-975 | a key is tracked after an import iff it was before or one of the rows written has it |
| `Import.RenamedJobIsLost` | apps/api/src/api/jobs.py:664-672 | two new jobs that research answers under one name: the other is not tracked |
| `Import.ExistingIndex` | apps/api/src/api/jobs.py:730-742 | the index knows exactly the tracked keys |
| `Import.KeysAgreeIff` | apps/api/src/api/jobs.py:704-727 | two names are one job iff their letters agree but for case once blanks around them are off; stored names and the unique index keep the blanks |
| `Import.TrimStrips` | apps/api/src/api/jobs.py:704-712 | trimming takes the blanks off both ends, all of them and nothing else |
| `Import.StoredTwiceIff` | apps/api/src/api/jobs.py:704-727 | a tracked job is stored a second time iff it was stored with blanks around its name and is given with others |
| `Import.PaddedNameIsStoredTwice` | apps/api/src/api/jobs.py:745-791 | two names that differ in a final blank are stored as two applications |
| `Import.TrimmedBoardStaysDistinct` | apps/api/src/api/jobs.py:745-791 | while stored names are trimmed no job is stored twice |
| `Import.AddedAgainIsFoundIff` | apps/api/src/api/jobs.py:745-791 | adding a new job again finds it iff its name was given trimmed, and otherwise meets the unique index |
| `Sandbox.Sink.Drain` | apps/executor/src/executor/sandbox.py:141-169 | for any chunking the buffer holds the end of the stream: all of it or the budget less 65535 bytes, and no more than the budget unless in one chunk |
| `Sandbox.CollectDetail` | apps/executor/src/executor/sandbox.py:200-206 | the 64 KiB detail is the tail of everything that was printed |
| `Sandbox.TailGivesSameScore` | apps/executor/src/executor/harness.py:120-160 | if the last result line lies wholly in the tail, the tail is scored as the whole output |
| `Sandbox.TailScoresAlikeIff` | apps/executor/src/executor/harness.py:120-160 | for any output and any cut, tail and whole score alike iff a line wholly in the tail reads as a result or what is left of the cut line scores as the lines up to it |
| `Sandbox.CutLineReadsAsResult` | apps/executor/src/executor/harness.py:120-124 | where they do not: a line cut by the tail reads as a result and the whole line does not |
| `Sandbox.DetailReads` | apps/executor/src/executor/sandbox.py:319-321 | whatever a finished run printed on either stream, its detail reads as a result in the tail of stderr, else as what is left of the last line of stdout, else as the lines left before that |
| `Sandbox.RunnerLineDecidesIff` | apps/executor/src/executor/harness.py:120-124 | the search stops at the runner's own line iff nothing on stderr reads as a result, that line and stderr fit in 64 KiB, and stdout had ended its line before the runner printed or its open part is cut off to the character |
| `Sandbox.StderrWins` | apps/executor/src/executor/harness.py:110-124 | a result line on stderr is scored instead of the runner's, which was printed later |
| `Sandbox.UnfinishedOutputLosesScore` | apps/executor/src/executor/harness.py:120-122 | after output with no line break the runner's line does not start with the marker, and the run is a harness error |
| `Sandbox.ScoreRun` | apps/executor/src/executor/harness.py:101-160 | from the raw reads to the score, with anything on stdout before the runner's line and anything on stderr: the number and failures of the exact reading, and the runner's under the conditions above |
| `Sandbox.DecidingLineIsScored` | apps/executor/src/executor/harness.py:101-173 | the score is the number the deciding line names, or the nearest within the tests given, with that line's failures; without such a line, or if it says the runner failed, there is none; an unfinished run keeps its outcome |
| `Sandbox.RunScoresItsTests` | apps/executor/src/executor/harness.py:48-64 | a run whose runner reported its tests scores just as many as pass and names the others |
| `Sandbox.FailingAreNamed` | apps/executor/src/executor/harness.py:48-64 | a test is listed as failed iff it fails |
| `Sandbox.ScoreIsWithinTests` | apps/executor/src/executor/harness.py:146-160 | the score is between 0 and the number of tests, and there is one only if a line reads as a result |
| `Sandbox.RunTests` | apps/executor/src/executor/harness.py:48-64 | every test is counted as passed or listed as failed |

## Left out

- Floating-point rounding: reals are used, with Python's `round` modelled only where it decides a branch (the dollar ceilings); elsewhere rounded values are given as they are.
- FSRS, the Elo logistic, the logarithm, sympy answer checking, JSON parsing and citation matching: parameters, since they are foreign code or have no property of this system.
- Users: the projection and the board are those of one user, which is also what `recompute` assumes when it replays every evidence row.
- Crashes between two commits of one operation, such as an observation's evidence and its turn record.
- `take_turn` and the completion check as interleaved reads and writes: their writes of the status are unguarded, and each is one step here.
- Idempotency without a key, with a malformed key, and the sweep's effect on other keys: requests on one well-formed key are modelled, and other requests' sweeps of it.
- Eviction or forgetting of a channel while a client is subscribed: its numbers restart, and the stream theorems assume it does not happen. `EventBus` models both.
- The client's own closing of the stream at a terminal state, its remounting, and frames it cannot parse.
- The contents of transcript rows, the quoting of an observation's span, and the item and hint events published with them: only who spoke and which tool was called with what outcome.
- The ranking of concepts and the expected scores: given to the planner; `Planner.BestIsClosest` takes an item's expected score as a property of the item.
- The order of ids: items and practice rows have numbers for ids, of which only the order is used.
- Deleting and reclassifying applications, time in stage, rejections and the category breakdown: views or single writes with no property beyond their body.
- The race of two imports: the unique index makes the later one fail whole, and nothing is stored.
- `Import.KeyOf`: folds and trims ASCII only, where Python and Postgres differ on further characters.
- `Sandbox.CollectDetail`: takes a character for a byte, so a cut through a multi-byte character is not modelled.
- Subprocess control, Docker flags, outcome classification and the text of error details in the sandbox.
- Creating a session: an empty plan is refused there (apps/api/src/api/sessions.py:147-158), so the lifecycle starts from a plan with an item.
- OAuth, cookies, provider clients, corpus loading, originality checks, React components and migrations: no part of this model.
