# dsht: verified models of the client's cores

`dsht` is a terminal client for agent sessions. This project models its stateful cores in Dafny and proves what they
promise. Code that changes fields step by step is a class whose methods are tied to a specification function; what the
code promises is proved of that function, over every input, every run or every interleaving.

| file | models |
|---|---|
| `ScoredLoop`, `LoopMachine`, `LoopCoordinator` | the scored agent loop: its rules, one execution as a state machine over the segments between awaits, and the object that carries the segments out |
| `ScoredRuns`, `LoopOutages`, `LoopEndings`, `LoopDelivery` | what a run of it means: when it passes, stalls and pauses in terms of its scores, when an outage is tried again, what ends it in which phase, and that an ended turn is consumed and a held prompt goes out |
| `LoopOutcome`, `LoopBudget` | what holds of every run of it, whatever the environment does: how runs progress and end, and how many verifications they start |
| `LoopGuards`, `LoopJudged`, `LoopUnjudged`, `LoopSafety`, `LoopExact`, `LoopRaces` | what a run needs of its environment to do one thing at a time, for runs that a verifier judges and for those that read the reply; that this is enough; that it is exactly what is needed; and whole runs where the documented rule is not |
| `LegacyFold`, `LegacyTail`, `LegacyRepeats`, `LegacyRuns`, `TrimHistory`, `Transcript`, `KeyOrder` | the record store of a conversation: live tail, byte account, key cache, trim |
| `LayoutIndex` | laid-out rows of a conversation, with its row cache and viewport |
| `Telemetry`, `TelemetryConfluence`, `TelemetryThrows`, `TelemetryRuns`, `TelemetryViews` | projected session values behind per-key watermarks |
| `ForegroundSlot`, `ForegroundClaims`, `MutationGate`, `Interactions` | the concurrency primitives, over all interleavings of their steps |
| `CostRecords`, `CostFacts`, `CostScanner`, `Pricing`, `Charges`, `CostTallies`, `CostLedger`, `CostPeriods`, `CostSaves`, `Calendar`, `DayNames` | cost accounting, from paged history to totals of real calendar ranges |
| `JsonEscapes`, `JsonTexts`, `TraceCut`, `LineSplitter` | escape repair against the brace scanner, the span-preserving trace cut, the line splitter |
| `PromptIndex`, `PromptRecall`, `PromptCache` | recall of earlier prompts and its per-session cache |
| `Collections` | shared helpers |

## How to read the loop model

Each segment of `LoopExecution` between two awaits is one step. Wherever a segment publishes, its rest is kept as a frame
on a stack, and `changed` and `idle` callbacks may run above it; a few frames wait at no publish, so the model allows more
interleavings than the code. The host, the verifier, the file system and the timers return anything at any time. Answers
are given only while the run is paused, as the command layer makes sure (src/controller/commands.ts:286).

`LoopOutcome` and the bound on verifications in `LoopBudget` assume nothing of when things happen: the first needs a range
that is not empty and at least one try where it speaks of a budget, the second also a verifier that reports a cancellation
only when it was aborted (`CancelledTasksNeverEnd` shows a run without a bound otherwise).

That no prompt goes out into the run's own verification or compaction, and no superseded verdict is consumed, does depend
on the environment. `LoopGuards.Allowed` refuses two things only. In a run that a verifier judges, while a turn is waited
for and no verification is under way, an end of turn may not be reported when a prompt waits at the publish before it goes
out (unless a verdict is just being settled), when an answer or the section it is judged by is about to be taken up, when a
prompt is held, or when a verdict that may still lead to another prompt has its artifact checked. And no compaction may
begin while a prompt waits to go out. `LoopExact.RunsAreSafeExactlyWhenAllowed` proves that this is exactly what is needed:
after any allowed run, the next event is allowed if and only if no continuation that is allowed from there on collides or
consumes a superseded verdict. The documented rule, no idle report while `settling`, is not it: `DocumentedIsNotEnough` and
`FailedCompactionCollides` are whole runs that keep it and collide (src/controller/loop-coordinator.ts:201-203, 645-648,
684-709).

## Where a promise has a condition

Each of these is proved both ways, or with a concrete run.

- A line of exactly the budget plus one character that ends in CR is shown differently when a chunk ends before its newline; chunking is independent exactly on texts without one (`ChunkingIndependence`).
- `compactCut` returns at least `length - keep`, not at most as its comment says (src/controller/trace-log.ts:56), and more exactly when a span is split there (`CutExceedsTheBaseExactlyWhen`); reused keys cost minimality, never safety, and exactly when a cut tried on the way jumps over a safe one (`OvershootsExactlyWhen`).
- The legacy fold shows a text twice exactly when one batch brings a new delta twice, the text is not empty, and no later record of the batch replaces it (`BatchIsRightExactlyWhen`, `RepeatedTextIsShownTwice`); a fold that starts over heals it (`StartingOverHeals`).
- A trim measures its targets before it writes the released calls into the kept results, so what is left may exceed them, and even the budget (`AnnotationExceedsTheTarget`): it meets them exactly when what the annotations added fits (`TargetsMetExactlyWhenGrowthFits`), what one trim annotated does not grow again, but results stored since do, in the next one (`NewResultGrows`), which meets its targets exactly when that growth fits (`NextTrimMeetsItsTargetsExactlyWhen`).
- A trim resolves a kept result to the same summary unless an annotation written by an earlier trim says more than the released call (`KeptResultsResolveTheSame`).
- Telemetry caches stay fresh over a step exactly when no inbox is taken that does not decode (`FreshExactlyWhenNothingThrows`); otherwise exactly the cached view of that session is left stale (`StaleViewExactlyWhen`).
- A price table is accepted although two of its names are spelling variants of one model; then the order of the entries decides (`SpellingVariantsOverlap`, `ExactVersionIsUniqueExactlyWhen`).
- Day names sort chronologically up to the year 9999 (`LaterYearsSortFirst`), an instant in the last eight hours of time has no Beijing day (`CostDayFailsExactlyAtTheEnd`), and subtracting days is exact exactly past the year 99 (`DaysBeforeIsExact`).
- A total read while slices are being loaded is remembered from the old ones (`ReadInsideLoadGoesStale`); cuts never fall while no two saves of one session are both past reading its file, and do otherwise (`CutsNeverFall`, `CollidingSavesLowerTheCut`).
- A fold that appends nothing leaves a prefix that was put in front over budget (`FoldBudgets`).
- A finished scan marks a cached session complete even when its text was cut (`CompleteMeansNoHoleExactlyWhenItFits`).

## Model

| member | source | states |
|---|---|---|
| ScoredLoop.AcceptedVerdictsAreSane | src/controller/loop.ts:210-251 | an accepted result is a score in 0..10, a proof of impossibility or a request for a person, never two of them, and an early stop always has a reason |
| ScoredLoop.RefusedExactlyWhenNothingFits | src/controller/loop.ts:134-145 | options are refused exactly when no state of a run could stay inside the range and tries that they and the protocol's defaults ask for |
| ScoredLoop.PassedCoversWhatWasAsked | src/controller/loop.ts:134-145 | a run that passed has, for every step from the given first (or 1) to the given last (or the protocol's), a score at or above the given limit (or the protocol's, or 8), within the attempts asked for |
| ScoredLoop.ScoredRun.constructor | src/controller/loop.ts:289-291 | a run begins at the first attempt of its first step |
| ScoredLoop.ScoredRun.IsActive | src/controller/loop.ts:320-322 | a run owns its session while it works or waits for an answer |
| ScoredLoop.ScoredRun.Sent | src/controller/loop.ts:349-352 | a prompt or a verification makes the attempt outstanding and changes nothing else |
| ScoredLoop.ScoredRun.SettleAttempt | src/controller/loop.ts:368-405 | the attempt is consumed as the scoring rules say, which the rows of `ScoredRuns` spell out over whole runs |
| ScoredLoop.ScoredRun.Finish | src/controller/loop.ts:410-435 | a run ended for a reason of its own keeps its step, attempt and best |
| ScoredLoop.ScoredRun.Answered | src/controller/loop.ts:454-460 | an answer resumes the same attempt, outstanding |
| ScoredLoop.StepStaysWithin | src/controller/loop.ts:368-405 | step and attempt never leave the range and the tries |
| ScoredLoop.AttemptIsSpent | src/controller/loop.ts:379-404 | every consumed scoring attempt uses up one of the budget |
| ScoredLoop.AttemptsAreBounded | src/controller/loop.ts:368-405 | at most (to - from + 1) * tries attempts are ever consumed |
| ScoredLoop.EarlierStepsWerePassed | src/controller/loop.ts:388-392 | a run is at a step, or has passed, only when every earlier step was passed by a verdict at or above the limit |
| ScoredRuns.BestIsGreatest | src/controller/loop.ts:368-405 | in every run the best score is the greatest one scored on the step in flight |
| ScoredRuns.AttemptsAreCounted | src/controller/loop.ts:379-404 | the attempt in flight is the one after those judged on its step; a run that passed or stalled did so in the last of them |
| ScoredRuns.StalledExactlyWhen | src/controller/loop.ts:387-400 | a run has stalled exactly when the last attempt of its step scored below the limit and was the second past the first that did not improve on the step's scores, with no improvement in between |
| ScoredRuns.ExhaustedExactlyWhen | src/controller/loop.ts:400-404 | its attempts are exhausted exactly when as many were judged as the limits allow, none reached the limit, and the last did not stall the run |
| ScoredRuns.LeftExactlyWhenPassed | src/controller/loop.ts:388-398 | a step was left behind, or the run passed at it, exactly when an attempt of it reached the limit |
| ScoredRuns.BlockedExactlyWhen | src/controller/loop.ts:368-386 | a run is blocked exactly when a verdict that proved the task impossible came while it worked |
| ScoredRuns.PausedExactlyWhen | src/controller/loop.ts:368-386 | a run waits for an answer exactly when a verdict asked for a person while it worked and nobody has answered since |
| ScoredRuns.AnswerGoesOn | src/controller/loop.ts:454-460 | the answer lets it work on at the same attempt, with the same scores behind it |
| ScoredRuns.DecisionTells | src/controller/loop.ts:368-405 | the decision returned for a verdict says what became of the run: it goes on exactly while the run works |
| ScoredRuns.ReadExactlyWhen | src/controller/loop.ts:210-251 | a result is read exactly when it claims no stop, or claims one whole; what it says is then what is read |
| LoopJudged.VerifyRoundKeeps | src/controller/loop-coordinator.ts:407-433 | a verification starts only when nothing else of the run is going on, and keeps the invariant |
| LoopJudged.SettleWithKeeps | src/controller/loop-coordinator.ts:547-579 | consuming a verdict leaves one thing going on at most |
| LoopJudged.SettleCheckedKeeps | src/controller/loop-coordinator.ts:520-541 | the gate around a verdict and its artifact check keep the invariant |
| LoopJudged.FlushKeeps | src/controller/loop-coordinator.ts:627-648 | a flush sends or compacts only when neither a verification nor a compaction is under way |
| LoopJudged.AfterVerifyKeeps | src/controller/loop-coordinator.ts:437-507 | a verification that comes back, with any outcome, keeps the invariant |
| LoopJudged.CompactNoteIsLast | src/controller/loop-coordinator.ts:684-709 | when a compaction's guard is lifted no other is under way and its prompt still waits |
| LoopJudged.StoppedKeeps | src/controller/loop-coordinator.ts:338-348 | a stopped run is ended and nothing of it is in flight any more |
| LoopJudged.StepKeepsInv | src/controller/loop-coordinator.ts:158-710 | in a judged run every allowed step keeps: one thing at a time, one unaborted verification at most and that the newest, the compaction guard up exactly while one runs |
| LoopUnjudged.StepKeepsInv | src/controller/loop-coordinator.ts:158-710 | in a run without a verifier every allowed step keeps: no compaction is under way while a prompt waits to go out, whenever ends of turns are reported |
| LoopSafety.StepKeepsInv | src/controller/loop-coordinator.ts:158-710 | an allowed step keeps the invariant of its kind of run |
| LoopSafety.EveryRunKeepsInv | src/controller/loop-coordinator.ts:158-710 | the same in every reachable state |
| LoopSafety.NothingCollides | src/controller/loop-coordinator.ts:404-470 | in every allowed run no prompt goes out into the run's own verification or compaction, and every consumed verdict is the newest task's or the reply's |
| LoopExact.InvIsHarmless | src/controller/loop-coordinator.ts:158-710 | from a state of the invariant no allowed continuation collides or consumes a superseded verdict |
| LoopExact.EndAtSendHarms | src/controller/loop-coordinator.ts:645-648 | an end reported at the publish before a send has an allowed continuation that sends the prompt into the verification it starts |
| LoopExact.EndAtReadHarms | src/controller/loop-coordinator.ts:277-292 | so has an end reported while a section is read: the section's continuation judges, or holds a prompt, in the middle of the other verification |
| LoopExact.EndAtAnswerHarms | src/controller/loop-coordinator.ts:320-332 | so has one reported before an answer is judged at a marked step |
| LoopExact.EndWhileHeldHarms | src/controller/loop-coordinator.ts:627-641 | so has one reported while a prompt is held |
| LoopExact.EndWhileCheckedHarms | src/controller/loop-coordinator.ts:520-541 | so has one reported while a verdict is checked that may still lead to another prompt |
| LoopExact.RefusedEndHarms | src/controller/loop-coordinator.ts:361-397 | every end of turn that is not allowed has such a continuation |
| LoopExact.RefusedChangeHarms | src/controller/loop-coordinator.ts:158-161 | every change that would begin a compaction while a prompt waits has one |
| LoopExact.RefusedReturnHarms | src/controller/loop-coordinator.ts:627-641 | every segment that would begin a compaction while a prompt waits has one |
| LoopExact.AllowedExactly | src/controller/loop-coordinator.ts:158-710 | in any state of the invariant an event is allowed exactly when no allowed continuation of it collides or consumes a superseded verdict |
| LoopExact.RunsAreSafeExactlyWhenAllowed | src/controller/loop-coordinator.ts:158-710 | the same after every allowed run |
| LoopOutcome.StepIsPassed | src/controller/loop-coordinator.ts:520-541 | a step is left behind, or the run passes, exactly by an attempt at or above the limit whose section was not missing |
| LoopOutcome.TakenLedger | src/controller/loop-coordinator.ts:547-558 | a consumed verdict extends the ledger of passed steps and stays within the budget |
| LoopOutcome.EndingGoes | src/controller/loop-coordinator.ts:237-244 | whatever ends a run traces exactly one end and consumes no attempt |
| LoopOutcome.AfterVerifyGoes | src/controller/loop-coordinator.ts:443-507 | every outcome of a verification keeps one begin, one end, the gate and the ledger |
| LoopOutcome.StepGoes | src/controller/loop-coordinator.ts:158-710 | every step keeps the ledger, leaves an ended run as it ended, and moves a working one only by one consumed verdict |
| LoopOutcome.EveryRunIsSound | src/controller/loop-coordinator.ts:158-710 | the same in every reachable state, whatever the environment does |
| LoopOutcome.OneBeginOneEnd | src/controller/loop-coordinator.ts:232-244 | one begin is traced, no end while active, exactly one once inactive; an armed deadline means active; a reason is there exactly once ended |
| LoopOutcome.EndedRunsStay | src/controller/loop-coordinator.ts:599-611 | no later timer, verdict, rejected send or stop changes the phase, the reason or the attempts of an ended run |
| LoopOutcome.OnlyVerdictsMove | src/controller/loop-coordinator.ts:547-558 | step, attempt, best and a verdict's phase change only when one verdict is consumed, by an active run with an outstanding attempt, and then as the rules say |
| LoopOutcome.PassedMeansEveryStep | src/controller/loop.ts:388-392 | a run is passed only if for every step a verdict at or above the limit was consumed whose artifact check was made and did not report a missing section |
| LoopOutcome.AttemptsStayWithinBudget | src/controller/loop-coordinator.ts:547-552 | under any environment at most (to - from + 1) * tries attempts are consumed |
| LoopEndings.StepEndsAsListed | src/controller/loop-coordinator.ts:220-611 | a step ends an active run from outside exactly as listed - rejected send, deadline, stop, forget, unreadable section, no verifier - with that phase and that reason, at the attempt where it stood; any other step lets it go on, or consumes one verdict |
| LoopEndings.RunEndsAsListed | src/controller/loop-coordinator.ts:220-611 | so over runs: which event ended a run, in which phase and for which reason |
| LoopEndings.EndedFromOutsideIsQuiet | src/controller/loop-coordinator.ts:338-348 | a run that its deadline, the operator, a newer run or a refused prompt ends has its verification aborted and no timer left; a stopped or refused one holds no prompt |
| LoopEndings.LeftForGood | src/controller/loop-coordinator.ts:89-93 | once it was forgotten or closed, whatever comes, no run begins, no verdict is consumed and no verification starts |
| LoopDelivery.EveryEndedTurnHasItsTimer | src/controller/loop-coordinator.ts:361-397 | in every run, whatever comes: where the reply is judged, an ended turn that is not consumed has its grace timer while the run is on, and no timer waits for anything else |
| LoopDelivery.GraceConsumes | src/controller/loop-coordinator.ts:386-397 | when it fires after the grace, or with the reply there, the attempt is consumed as the reply says or as one without a result, at a marked step once its artifact was looked at |
| LoopDelivery.SentExactlyWhen | src/controller/loop-coordinator.ts:627-648 | in every step, prompts are out with the host exactly as they were handed over - the opening one, or a held one of a run that is still on - and came back, taken or refused |
| LoopDelivery.DeadlineIsArmed | src/controller/loop-coordinator.ts:307-310 | in every run that has a deadline it is armed for as long as the run is on, and in no other |
| LoopDelivery.HeldPromptGoesOut | src/controller/loop-coordinator.ts:627-648 | a held prompt of a ready client goes out once, and its attempt is outstanding |
| LoopDelivery.CompactedPromptGoesOut | src/controller/loop-coordinator.ts:627-709 | where a compaction is due it is called first, and the prompt goes out once it is over and its guard is down |
| LoopDelivery.OpeningGoesOut | src/controller/loop-coordinator.ts:193-202 | so does the opening prompt |
| LoopDelivery.CompactedOpeningGoesOut | src/controller/loop-coordinator.ts:193-202 | behind a compaction that is due as well |
| LoopDelivery.StartOpens | src/controller/loop-coordinator.ts:173-202 | a started run opens with its first prompt, or, where the verifier goes first, with its first verification, at a marked step once the section was found |
| LoopDelivery.LateCompactionIsQuiet | src/controller/loop-coordinator.ts:693-709 | a compaction that comes back to a run that is over takes its guard down and does nothing else |
| LoopEndings.RunIsScored | src/controller/loop-coordinator.ts:547-558 | in every run, step, attempt, best score and a verdict's ending are what the scoring rules make of the verdicts it consumed, those without their section without their score |
| LoopEndings.RunStallsByItsScores | src/controller/loop.ts:387-404 | a run stalls, or uses up a step's attempts, exactly when the scores it consumed say so |
| LoopBudget.SettleWithConsumes | src/controller/loop-coordinator.ts:547-579 | a consumed verdict leaves at most the attempts and the outstanding work there were, less the one it consumed |
| LoopBudget.BackSettles | src/controller/loop-coordinator.ts:443-507 | the verdict of a verification that comes back is consumed, checked or dropped, and neither account of the run, of tasks and of verdicts, rises |
| LoopBudget.OutagePays | src/controller/loop-coordinator.ts:474-507 | an outage, whether it is retried, falls back or ends the run, raises neither account: its retries come out of the three tasks its attempt may start |
| LoopBudget.EndPays | src/controller/loop-coordinator.ts:361-397 | an end of turn starts at most one verification, paid for by the attempt or by the work it doubles |
| LoopBudget.AnswerPays | src/controller/loop-coordinator.ts:320-332 | an answer raises the accounts by what one attempt is worth, and the work it asks for by one more at most |
| LoopBudget.StepPays | src/controller/loop-coordinator.ts:158-710 | every step, allowed or not, raises the account of tasks and verdicts by no more than its answer or doubled start allows |
| LoopBudget.TasksAreBounded | src/controller/loop-coordinator.ts:407-507 | under any interleaving a run starts at most three verifications for each attempt of its budget and six for each answer, and consumes at most one and two verdicts for each |
| LoopBudget.DoubledTasksAreBounded | src/controller/loop-coordinator.ts:407-507 | each answer's second three are spent only where a verification started although other work was outstanding |
| LoopBudget.AllowedTasksAreBounded | src/controller/loop-coordinator.ts:407-507 | so an allowed judged run starts at most three for each attempt and each answer |
| LoopBudget.CancelledTasksNeverEnd | src/controller/loop-coordinator.ts:455 | with a verifier that reports cancellations of its own, a run starts any number of verifications |
| LoopOutages.StepCounts | src/controller/loop-coordinator.ts:474-507 | a step counts exactly the retryable outage of a verification that decides, and starts again at its verdict |
| LoopOutages.RunCounts | src/controller/loop-coordinator.ts:474-507 | in every run the count is that of the outages in a row |
| LoopOutages.RetriedExactlyWhen | src/controller/loop-coordinator.ts:485-491 | a retryable outage of the verification that decides is followed by another task of the same attempt exactly when fewer than two came in a row before it |
| LoopOutages.ThirdOutageEnds | src/controller/loop-coordinator.ts:492-507 | the third in a row ends the run for want of a verifier where no other judge was allowed |
| LoopOutages.ThirdOutageFallsBack | src/controller/loop-coordinator.ts:492-507 | where it was, the reply is judged instead: at once, or once its section was looked for |
| LoopOutages.VerdictStartsOver | src/controller/loop-coordinator.ts:443-507 | the next outage after a verdict is the first of its row again |
| LoopOutages.NextTaskIsOut | src/controller/loop-coordinator.ts:407-433 | after a retry the verifier is called for a newer task of the same attempt, and its return will decide |
| LoopOutages.ThreeTasksAreReached | src/controller/loop-coordinator.ts:485-491 | three tasks are reached: from a deciding verification with no outage before it, two outages lead to the third task of the same attempt |
| LoopRaces.IdleAtSend | src/controller/loop-coordinator.ts:361-385 | an end reported at the publish before a send starts a verification exactly when one judges and nothing is being consumed, and then the prompt goes out into it |
| LoopRaces.ChangeInGap | src/controller/loop-coordinator.ts:640-648 | a change between a compaction's end and its flush starts another exactly when the client is ready and one is due, and then the flush sends into it |
| LoopRaces.DocumentedIsNotEnough | src/controller/loop-coordinator.ts:201-203 | every judged run that works first has a run with no idle report while settling in which a prompt goes out into a verification |
| LoopRaces.FailedCompactionCollides | src/controller/loop-coordinator.ts:684-709 | every unjudged compacting run has such a run that sends into a compaction, with one end of turn, reported while that turn is out |
| LoopCoordinator.LoopExecution.constructor | src/controller/loop-coordinator.ts:147-153 | a new execution is the machine's first state |
| LoopCoordinator.LoopExecution.IsCurrent | src/controller/loop-coordinator.ts:166 | owned, not replaced, and active |
| LoopCoordinator.LoopExecution.TraceLoopEnd | src/controller/loop-coordinator.ts:237-244 | the end is traced once |
| LoopCoordinator.LoopExecution.AbortWork | src/controller/loop-coordinator.ts:585-592 | the outstanding call is aborted and both guards fall |
| LoopCoordinator.LoopExecution.StopLoop | src/controller/loop-coordinator.ts:338-348 | the machine's stop |
| LoopCoordinator.LoopExecution.ForgetLoop | src/controller/loop-coordinator.ts:353-356 | the machine's forget: no longer pointed at, stopped, dropped |
| LoopCoordinator.LoopExecution.RejectLoopSend | src/controller/loop-coordinator.ts:220-231 | the machine's rejected send |
| LoopCoordinator.LoopExecution.ExpireLoopDeadline | src/controller/loop-coordinator.ts:599-611 | the machine's deadline |
| LoopCoordinator.LoopExecution.VerifyRound | src/controller/loop-coordinator.ts:407-433 | the machine's start of a verification |
| LoopCoordinator.LoopExecution.VerifySection | src/controller/loop-coordinator.ts:277-282 | the machine's preflight |
| LoopCoordinator.LoopExecution.SectionArrives | src/controller/loop-coordinator.ts:282-292 | the machine's continuation once the section was read |
| LoopCoordinator.LoopExecution.SettleWith | src/controller/loop-coordinator.ts:547-579 | the machine's consumption of a verdict |
| LoopCoordinator.LoopExecution.SettleChecked | src/controller/loop-coordinator.ts:520-527 | the machine's gate up to the artifact check |
| LoopCoordinator.LoopExecution.CheckArrives | src/controller/loop-coordinator.ts:528-541 | the machine's continuation once the artifact was read |
| LoopCoordinator.LoopExecution.TrySettleLoop | src/controller/loop-coordinator.ts:373-397 | the machine's end of turn, with its grace timer |
| LoopCoordinator.LoopExecution.OutageReported | src/controller/loop-coordinator.ts:474-507 | the machine's outage: retry, fall back, or end, as the rows of `LoopOutages` spell out over whole runs |
| LoopCoordinator.LoopExecution.VerificationReturns | src/controller/loop-coordinator.ts:443-507 | the machine's return of a verification, late and superseded ones included |
| LoopCoordinator.LoopExecution.SendHeld | src/controller/loop-coordinator.ts:642-648 | the machine's consumption of the held prompt |
| LoopCoordinator.LoopExecution.FlushLoop | src/controller/loop-coordinator.ts:627-641 | the machine's flush up to its send or its compaction |
| LoopCoordinator.LoopExecution.HandOver | src/controller/loop-coordinator.ts:648 | the prompt goes to the host, and whether it collides is seen |
| LoopCoordinator.LoopExecution.CompactNow | src/controller/loop-coordinator.ts:684-688 | the guard goes up before the compaction is called |
| LoopCoordinator.LoopExecution.CompactionReturns | src/controller/loop-coordinator.ts:693-709 | the machine's end of a compaction |
| LoopCoordinator.LoopExecution.OnChange | src/controller/loop-coordinator.ts:158-161 | the machine's change callback |
| LoopCoordinator.LoopExecution.SettleLoop | src/controller/loop-coordinator.ts:361-366 | the machine's idle callback |
| LoopCoordinator.LoopExecution.StartLoop | src/controller/loop-coordinator.ts:173-191 | the machine's start |
| LoopCoordinator.LoopExecution.OpenWith | src/controller/loop-coordinator.ts:193-202 | the machine's opening prompt |
| LoopCoordinator.LoopExecution.AnswerLoop | src/controller/loop-coordinator.ts:320-327 | the machine's answer |
| LoopCoordinator.LoopExecution.AnswerContinues | src/controller/loop-coordinator.ts:328-332 | judged again, or the answer is the next prompt |
| LoopCoordinator.LoopExecution.Handle | src/controller/loop-coordinator.ts:158-710 | whatever comes next is handled as one step of the machine, so every proved run is a run of the object |
| LegacyFold.BoundaryDecides | src/session/transcript.ts:704-708 | a closing record makes everything before it irrelevant to the live tail |
| LegacyFold.LaterExtends | src/session/transcript.ts:693-735 | records past everything delivered extend the fold |
| LegacyRuns.RetainedDecides | src/session/transcript.ts:678-687 | what is still stored decides the same live tail as everything delivered |
| LegacyRepeats.RepeatsFold | src/session/transcript.ts:693-735 | folding a list with repeats differs from folding its keys by longer texts in exactly the blocks where a repeated text is not replaced later |
| LegacyRuns.BatchKeeps | src/session/transcript.ts:643-735 | every batch, repeats or not, keeps what later folds need |
| LegacyRuns.ContinuedFoldIsBeside | src/session/transcript.ts:693-735 | a fold that continues shows the fold of everything delivered but for longer texts in the doubled blocks |
| LegacyRuns.BatchIsRightExactlyWhen | src/session/transcript.ts:643-735 | after one batch the live tail is the fold of everything delivered exactly when the batch leaves no text doubled |
| LegacyRuns.HarmlessRepeat | src/session/transcript.ts:693-803 | repeated edges, closed blocks, tool calls, empty deltas and texts behind which the batch ends the attempt or the turn change nothing |
| LegacyRuns.StartingOverHeals | src/session/transcript.ts:693-705 | a fold that starts over shows the fold of everything delivered, whatever was shown before |
| LegacyRuns.EveryRunKeeps | src/session/transcript.ts:643-735 | in every run of batches, repeats or not, what is stored suffices to fold everything delivered |
| LegacyRuns.LiveIsFoldOfAllDelivered | src/session/transcript.ts:643-735 | after any batches that leave no text doubled, blocks, closed set and position are the fold in sequence order of every record ever delivered |
| LegacyTail.TailShowsItsPieces | src/session/transcript.ts:693-803 | after any records each block of the live tail says what the deltas of its index said, one behind the other, since it was last cleared or replaced, and is of the kind of its last chunk; a tool call has the last identity and name given; closed are exactly the ended blocks and the reasoning that text or a tool call elsewhere followed; no other block is there |
| LegacyTail.OnlyEndsAndPiecesMatter | src/session/transcript.ts:704-735 | boundaries and assistant messages clear the tail, chunks move it to their turn and step, and nothing else touches it |
| LegacyRuns.LiveShowsAllDelivered | src/session/transcript.ts:643-803 | so the tail shows exactly that of all records ever delivered, whatever batches brought them, as long as none left a text doubled |
| LegacyRuns.SameObjectsAreSkipped | src/session/transcript.ts:669-674 | records met again as the very objects that are retained change nothing |
| LegacyRuns.LastAddedIsRetained | src/session/transcript.ts:664-670 | before anything is collected a batch retains each record as it was last added, and the others as they were |
| LegacyRuns.LastEndIsLast | src/session/transcript.ts:678-687 | the record a batch takes as its boundary is the last that closes a turn or an attempt |
| LegacyRuns.BoundaryCollects | src/session/transcript.ts:678-687 | a batch with such a record leaves in the store exactly the records that are not transient or lie behind it |
| LegacyRuns.RepeatedTextIsShownTwice | src/session/transcript.ts:693-735 | a fresh text twice in one batch is shown twice |
| TrimHistory.TotalStored | src/session/transcript.ts:346-350 | storing one record moves the byte total by exactly its own bytes |
| TrimHistory.TotalDeleted | src/session/transcript.ts:380-383 | deleting one record likewise |
| TrimHistory.TrimReleasesDisplayed | src/session/transcript.ts:292-298 | a trim releases only finished records, never the last one |
| TrimHistory.TrimLeavesTheTail | src/session/transcript.ts:299-317 | exactly a prefix in sequence order is released |
| TrimHistory.TrimStopsForAReason | src/session/transcript.ts:286-298 | the minimum tail is kept, and the scan meets its targets, measured before the kept results are annotated, unless that tail or an unfinished record stops it |
| TrimHistory.TargetsAreThreeQuarters | src/session/transcript.ts:287-289 | a trim aims for three quarters of each budget, and for no fewer records than the tail it keeps: a quarter of the records, at least one, at most 32 |
| TrimHistory.ReleasesNothingExactlyWhen | src/session/transcript.ts:285-299 | it releases nothing exactly when both budgets hold, its targets are met, only the tail is left, or the oldest record is unfinished |
| TrimHistory.BytesAfterTrim | src/session/transcript.ts:285-326 | the bytes stored after a trim are those the scan counted and what annotating the kept results added |
| TrimHistory.TargetsMetExactlyWhenGrowthFits | src/session/transcript.ts:285-326 | a trim stopped by neither leaves the store within its targets exactly when those bytes together fit |
| TrimHistory.AnnotatedOnce | src/session/transcript.ts:300-317 | what a trim annotated does not change in the next one |
| TrimHistory.NextTrimGrowsTheNew | src/session/transcript.ts:300-317 | in a store that continues a trimmed one, with the newest released records read back, later ones stored and undisplayed ones gone, the next trim adds bytes to none of the records the earlier one left |
| TrimHistory.NextTrimMeetsItsTargetsExactlyWhen | src/session/transcript.ts:285-326 | stopped by neither the tail nor an unfinished record, that trim leaves the store within its targets exactly when what annotating the records stored in between added fits |
| TrimHistory.NextTrimMeetsItsTargets | src/session/transcript.ts:285-326 | so always, unless the store fits its budgets or one of those stops the trim, when nothing was stored in between that annotating changes |
| TrimHistory.NewResultGrows | src/session/transcript.ts:300-317 | a bare result stored with its call after a trim grows in the next one |
| TrimHistory.AnnotationExceedsTheTarget | src/session/transcript.ts:300-317 | a released call written into its kept result can leave more than the target, and more than the budget |
| TrimHistory.TrimReleasesNoMore | src/session/transcript.ts:286-298 | one record fewer released would not meet the targets |
| TrimHistory.KeptTools | src/session/transcript.ts:300-317 | a call that a kept record knows says what it said before |
| TrimHistory.KeptResultsResolveTheSame | src/session/transcript.ts:300-317 | a kept tool result resolves to the same summary, with the exact condition when its call is released |
| TrimHistory.HostResultsReadBack | src/session/transcript.ts:300-317 | the condition holds for results as the host reports them |
| Transcript.Transcript.StoreEvent | src/session/transcript.ts:346-350 | the record is stored and the stored bytes stay the sum over exactly the retained keys |
| Transcript.Transcript.DeleteEvent | src/session/transcript.ts:380-383 | the record is gone and the bytes stay that sum |
| Transcript.Transcript.SortedKeys | src/session/transcript.ts:514-520 | the key cache is the strictly ascending list of the retained keys |
| Transcript.Transcript.Chunk | src/session/transcript.ts:782-803 | one chunk changes blocks and closed set as the fold says; `LegacyTail.TailShowsItsPieces` says what that shows |
| Transcript.Transcript.FoldLegacy | src/session/transcript.ts:693-735 | a clean tail is extended by what is past it, a dirty one rebuilt from what is stored |
| Transcript.Transcript.AddRecords | src/session/transcript.ts:643-687 | a batch is stored, folded and collected exactly as the specified step, and every invariant of the store holds |
| Transcript.ThroughIsGreatest | src/session/transcript.ts:656-657 | the newest sequence is the greatest of those ever added |
| Transcript.OldestIsLeast | src/session/transcript.ts:656 | the oldest is the least of them |
| Transcript.PlainBatchKeepsMessages | src/session/transcript.ts:676-687 | without a legacy stream a batch leaves exactly the messages and tool results, and the tail alone |
| Transcript.Transcript.DeleteTransient | src/session/transcript.ts:682-686 | a transient record leaves both the store and the transient set |
| Transcript.Transcript.Trim | src/session/transcript.ts:285-326 | exactly the decided prefix is released, its tail annotated, the stored bytes are the scanned ones and what annotation added, and cursor, oldest and more-flag follow |
| LayoutIndex.BuildExtends | src/session/history.ts:77-105 | a longer list lays out its prefix as the prefix alone |
| LayoutIndex.SegmentsTile | src/session/history.ts:77-105 | every segment starts where the rows of all earlier ones end and counts its own rows, rendered with the reasoning of the style or, for exactly the overridden messages, the other one |
| LayoutIndex.SeenIsHeaded | src/session/history.ts:91-96 | an assistant heading counts as shown exactly when the current turn has one |
| LayoutIndex.HeadingMeans | src/session/history.ts:91-97 | who carries a heading |
| LayoutIndex.OffsetsMean | src/session/history.ts:88-102 | a sequence leads to the first row of the last message that carries it |
| LayoutIndex.EvictsNoMoreThanNeeded | src/session/history.ts:42-48 | eviction drops no entry it could keep |
| LayoutIndex.WindowIsClip | src/session/history.ts:324-328 | a range over conversation and live tail is its part of each |
| LayoutIndex.ShownIsClip | src/session/history.ts:107-122 | clipping segment by segment is clipping the concatenated rows |
| LayoutIndex.ClipDone | src/session/history.ts:107-122 | a segment past the range ends the collection |
| LayoutIndex.ClipMeans | src/session/history.ts:107-122 | a range has every row whose place lies in it, in order |
| LayoutIndex.AskedExactly | src/session/history.ts:34-50 | asking for a message's rows leaves its true rows as the newest entry exactly when they were there or are at most 2048 and hold at most 262144 characters, and of the others, in order, all but the fewest of the oldest that make room |
| LayoutIndex.OthersMeans | src/session/history.ts:41 | taking a message out of the cache takes out its entry and no other |
| LayoutIndex.CharactersAdd | src/session/history.ts:42 | the characters of rows are the sum of their texts |
| LayoutIndex.KeepListedExactly | src/session/history.ts:82-86 | an update keeps exactly the entries of the messages still listed, in their order |
| LayoutIndex.LayoutIndex.RowsOf | src/session/history.ts:34-50 | the rows returned are always the message's true rows, from the cache or not |
| LayoutIndex.LayoutIndex.Store | src/session/history.ts:41-48 | the cache holds the newest entries within the row budget, and its size stays exact |
| LayoutIndex.LayoutIndex.Update | src/session/history.ts:77-105 | after any update segments, offsets and length are those of a rebuild |
| LayoutIndex.LayoutIndex.FirstPast | src/session/history.ts:107-114 | the binary search skips only segments that show nothing of the range |
| LayoutIndex.LayoutIndex.Viewport | src/session/history.ts:107-122 | the rows are the slice of all rows concatenated |
| LayoutIndex.LayoutIndex.Window | src/session/history.ts:322-328 | with the live tail, the rows are the slice of both concatenated |
| LayoutIndex.LayoutIndex.Dispose | src/session/history.ts:52-58 | everything is forgotten and the index stays usable |
| Telemetry.Telemetry.MergeSnapshot | src/session/telemetry.ts:103-117 | a snapshot is merged key by key as specified, inbox and caches included, or stops where the decoder throws |
| Telemetry.MergeKeys | src/session/telemetry.ts:107-113 | the loop over the keys, in any order, is the merge |
| Telemetry.Telemetry.AcceptFrame | src/session/telemetry.ts:76-97 | a frame changes the store as specified |
| Telemetry.Telemetry.ViewOf | src/session/telemetry.ts:123-133 | a view read returns the cached view and only fills the cache |
| Telemetry.Telemetry.MetricsOf | src/session/telemetry.ts:139-147 | metrics come from the cache or are computed from the values |
| Telemetry.Telemetry.PendingOf | src/session/telemetry.ts:157-160 | pending inputs follow from the stored inbox |
| TelemetryConfluence.MarkIsNewestDelivered | src/session/telemetry.ts:86-113 | a watermark never decreases and is the newest sequence delivered |
| TelemetryConfluence.ValueIsTheHostsAtItsMark | src/session/telemetry.ts:86-113 | the held value is the host's at that watermark |
| TelemetryConfluence.Confluence | src/session/telemetry.ts:86-113 | any two delivery orders of the same snapshots and updates give the same values and watermarks |
| TelemetryConfluence.UnretainedIsAbsent | src/session/telemetry.ts:90-108 | a key outside the retained set is never held |
| TelemetryRuns.RunIsFold | src/session/telemetry.ts:76-117 | in every run, throws of the decoder included, a session's entry is the fold of exactly what it was told since the last control baseline, of one that threw what came up to the throw |
| TelemetryRuns.RunsAgree | src/session/telemetry.ts:76-117 | two whole runs that told a session the same since their baselines agree on it, whatever else they did or threw |
| TelemetryThrows.SnapshotThrowsExactly | src/session/telemetry.ts:103-117 | in every state a snapshot throws exactly when it is not older than the baseline and the inbox the merge leaves does not decode; it has then stored the entry and nothing else |
| TelemetryThrows.SnapshotThrowsOnItsOwnInbox | src/session/telemetry.ts:103-117 | where the current inbox decodes, that is exactly when the merge takes the snapshot's inbox and it does not decode |
| TelemetryThrows.UpdateThrowsExactly | src/session/telemetry.ts:86-94 | an update throws exactly when it carries an inbox that is taken and does not decode |
| TelemetryThrows.LoadThrowsExactly | src/session/telemetry.ts:77-80 | a baseline throws exactly at the first projection that does so on what the earlier ones told its session |
| TelemetryThrows.BaselineThrowsOnABadInbox | src/session/telemetry.ts:77-80 | with each session named once, exactly when one retained inbox does not decode |
| TelemetryThrows.UpdateBeforeBaselineThrows | src/session/telemetry.ts:86 | an update before any baseline throws as well, and changes nothing |
| TelemetryThrows.SettlesExactlyWhenNothingThrows | src/session/telemetry.ts:76-117 | in every state, a step ends normally exactly when its guard says so |
| TelemetryThrows.FreshExactlyWhenNothingThrows | src/session/telemetry.ts:76-117 | caches and inbox stay equal to recomputation over a step exactly when the guard of the throwing branch is false |
| TelemetryThrows.StaleViewExactlyWhen | src/session/telemetry.ts:114-116 | a step leaves a stale view of a session exactly when it is about that session, throws, and a view was cached |
| TelemetryConfluence.EveryRunIsFresh | src/session/telemetry.ts:123-171 | in a run of decodable frames cached views, metrics and the inbox always equal recomputation |
| TelemetryRuns.RunIsFreshExactlyWhenNothingThrows | src/session/telemetry.ts:76-171 | caches and inbox equal recomputation all along a run exactly when the decoder throws nowhere in it |
| TelemetryViews.CountsAreTold | src/session/telemetry.ts:76-97 | in every run the queue and the jobs of a session are the last it was told |
| TelemetryViews.ViewShowsWhatWasTold | src/session/telemetry.ts:123-171 | while no decoder throws, a view shows the values a session was told, how many inputs are pending - unknown, not zero, when none were ever reported - and its jobs; the inputs are those of its queue, or else of its inbox |
| TelemetryViews.ReadShowsWhatWasTold | src/session/telemetry.ts:123-133 | and reading a view shows exactly that, and caches it |
| TelemetryViews.ReadChangesNothingElse | src/session/telemetry.ts:123-133 | a read fills one cache entry at most, and none when it is there already or nothing is known of the session |
| TelemetryViews.NoSessionIsEmpty | src/session/telemetry.ts:123-160 | without a session view, inputs and metrics are empty, and nothing is cached |
| TelemetryViews.MetricsShowWhatWasTold | src/session/telemetry.ts:139-147 | while no decoder throws, the metrics read are those of the values a session was told, decoded once and cached |
| TelemetryThrows.ThrowLeavesStaleView | src/session/telemetry.ts:114-116 | a whole run of that kind, for any inbox that does not decode |
| ForegroundSlot.Foreground.Enter | src/controller/foreground.ts:50-71 | a claim joins its owner, is refused, queues, or begins, as specified |
| ForegroundSlot.Foreground.Continue | src/controller/foreground.ts:67-71 | a woken waiter begins unless the slot is closed |
| ForegroundSlot.Foreground.Exit | src/controller/foreground.ts:79-82 | the oldest waiter is promised the slot before anything is published |
| ForegroundSlot.Foreground.Shut | src/controller/foreground.ts:98-102 | closing aborts the occupant and wakes every waiter |
| ForegroundSlot.EveryRunKeepsInv | src/controller/foreground.ts:42-103 | the slot, its queue and everyone's role agree in every reachable state |
| ForegroundSlot.OneOwner | src/controller/foreground.ts:50-88 | at most one operation is current or promised |
| ForegroundSlot.WaitersBeginInArrivalOrder | src/controller/foreground.ts:66-69 | waiters begin in arrival order |
| ForegroundSlot.NobodyOvertakesThePromised | src/controller/foreground.ts:79-87 | a claim inside the end publish does not overtake the promised waiter |
| ForegroundSlot.NestedOnlyInItsOwner | src/controller/foreground.ts:42-55 | nested work enters only the running, uncancelled operation of its own context |
| ForegroundSlot.StaleContextStaysOut | src/controller/foreground.ts:42-44 | a context of an operation that left never enters a later one |
| ForegroundSlot.NothingBeginsAfterClose | src/controller/foreground.ts:98-102 | a closed slot starts nothing |
| ForegroundSlot.CancelledBeforeWorkNeverWorks | src/controller/foreground.ts:74-77 | an operation cancelled while its begin is published does no work |
| ForegroundSlot.NoLostWakeup | src/controller/foreground.ts:79-88 | while a claim waits, somebody is on the way to releasing it |
| ForegroundSlot.EveryEndWakesItsWaiter | src/controller/foreground.ts:83-87 | an end wakes the waiter it took, whether or not its publish threw |
| ForegroundSlot.EveryClaimFinishes | src/controller/foreground.ts:50-88 | without arrivals every claim finishes |
| ForegroundClaims.CancelledExactlyWhen | src/controller/foreground.ts:93-102 | in every run an operation counts as cancelled exactly when an abort or the close came while it occupied the slot, and the slot as closed exactly when it was closed |
| ForegroundClaims.ArrivalGets | src/controller/foreground.ts:41-71 | an arriving claim gets nothing on a closed slot, its own work within the occupant unless that was cancelled, a free slot at once, and otherwise a place in the queue if it waits, or nothing |
| ForegroundClaims.WorkStartsExactlyWhen | src/controller/foreground.ts:72-77 | an operation starts its work exactly when its begin was published and it was not cancelled meanwhile; otherwise it leaves the slot |
| MutationGate.SessionMutationGate.Admit | src/session/mutation-gate.ts:59-74 | an admission takes the gate of its session or joins its lane |
| MutationGate.SessionMutationGate.HandOn | src/session/mutation-gate.ts:77-84 | a release hands the gate to the next waiter, control first, or frees it |
| MutationGate.EveryRunIsOrdered | src/session/mutation-gate.ts:59-84 | per session sections exclude each other and each lane is dispatched in arrival order |
| MutationGate.LanesAreTheBusySessions | src/session/mutation-gate.ts:60-61 | the lane map holds exactly the sessions whose gate is held |
| MutationGate.ControlGoesFirst | src/session/mutation-gate.ts:78 | no normal admission is granted while a control admission waits |
| MutationGate.NoLostWakeup | src/session/mutation-gate.ts:69-84 | a waiting admission has a holder whose return grants a waiter of its session |
| MutationGate.EveryAdmissionCompletes | src/session/mutation-gate.ts:59-84 | without arrivals the gate drains |
| Interactions.SessionInteractions.Accept | src/session/interactions.ts:33-41 | a delivered request becomes the retained instance of its event |
| Interactions.SessionInteractions.Cancelled | src/session/interactions.ts:43 | a withdrawn request is gone |
| Interactions.SessionInteractions.Respond | src/session/interactions.ts:65-82 | a concurrent answer joins the response in flight |
| Interactions.SessionInteractions.Dispatch | src/session/interactions.ts:69-73 | the admitted section replies only while its instance is retained |
| Interactions.SessionInteractions.Settled | src/session/interactions.ts:73-78 | a successful reply removes only the instance it answered |
| Interactions.SessionInteractions.Release | src/session/interactions.ts:80-81 | a finished response frees its reservation |
| Interactions.AtMostOneAcceptedReply | src/session/interactions.ts:65-82 | the host accepts at most one reply per instance, under any interleaving |
| Interactions.OneReplyInFlight | src/session/interactions.ts:65-82 | at most one reply per instance is in flight |
| Interactions.RepliesOnlyWhileRetained | src/session/interactions.ts:69-73 | a reply goes out only for the instance retained at that moment |
| Interactions.AdmittedRepliesExactlyWhenRetained | src/session/interactions.ts:69-73 | an answer that is admitted replies exactly while its instance is retained, and fails otherwise |
| Interactions.RetainedExactlyWhen | src/session/interactions.ts:33-78 | an instance is retained from its delivery until it is withdrawn, replaced by a replay, cleared with the book, or removed by its own accepted reply; a reply to the instance it replaced never removes it |
| Interactions.AnswerGoesThrough | src/session/interactions.ts:65-82 | a retained instance that nobody answers yet is answered by reserving, admitting and one accepted reply, which removes it and leaves every other entry and reservation |
| Interactions.FailedReplyStaysAnswerable | src/session/interactions.ts:79-82 | a failed reply leaves the instance answerable |
| CostRecords.UsageAddsUp | src/cost/records.ts:69-75 | valid usage has every part and its parts add up to its total |
| CostRecords.FoldSamples | src/cost/records.ts:43-66 | the loop computes the samples of the distinct events in order |
| CostRecords.SamplesAreAttempts | src/cost/records.ts:43-66 | one sample per attempt: its first event's key, its chosen event's facts |
| CostRecords.GroupsPartition | src/cost/records.ts:48-64 | the attempts hold exactly the billable events past the cut, each once, in order |
| CostRecords.ChosenMeans | src/cost/records.ts:60-63 | the facts are those of the last event with valid usage |
| CostRecords.ChosenWithoutUsage | src/cost/records.ts:60-63 | else of the last event |
| CostRecords.InheritedIsNotCounted | src/cost/records.ts:44-51 | nothing at or below the inherited cut is counted |
| CostRecords.PageOrderDoesNotMatter | src/cost/records.ts:43-48 | samples do not depend on page order or repeated pages |
| CostFacts.ValidExactlyWhen | src/cost/records.ts:69-75 | a report of usage counts exactly when input and output are trusted, the cache counts trusted or absent, and a stated total trusted and the sum of the parts; absent cache counts are zero |
| CostFacts.FoldedInSequence | src/cost/records.ts:48 | the events are folded in ascending sequence |
| CostFacts.FoldedAreTheLast | src/cost/records.ts:48 | they are exactly those that no later one of the same sequence follows |
| CostFacts.RouteIsLast | src/cost/records.ts:49-52 | the route in force behind some events is that of the last one that sets it |
| CostFacts.NoRoute | src/cost/records.ts:49-52 | and none when no event sets one |
| CostFacts.NextEventGroups | src/cost/records.ts:53-64 | each request joins the attempt before it exactly when that is of its turn and step and still open, begins one of its own otherwise, and is billed on the route in force before it |
| CostFacts.SampleSays | src/cost/records.ts:55-65 | a sample has its attempt's first sequence, and of its chosen event the valid time, the valid usage, and the event's own provider and model before those of the route |
| CostScanner.ReadHistory | src/cost/scanner.ts:54-94 | every page asked for is strictly older, so the loop ends with any host, and what it returns |
| CostScanner.ScanCovers | src/cost/scanner.ts:77-91 | with contiguous pages exactly the log's billing events are read |
| CostScanner.BillingOfOne | src/cost/scanner.ts:77-80 | a record is read exactly for the billing event it has |
| CostScanner.ScanFindsLog | src/cost/scanner.ts:73-91 | a scan of a whole log succeeds and finds it, in some order |
| CostScanner.ScanThenFoldIsFold | src/cost/scanner.ts:54-94 | scanning in pages and folding is folding the log, or the error of a fork without its cut |
| Calendar.YearLength | src/cost/pricing.ts:144-147 | the day number of a year's start advances by that year's length |
| Calendar.DatesAreChronological | src/cost/pricing.ts:144-147 | dates order as their day numbers do (section 21.4.1 of ECMA-262) |
| Calendar.DateOf | src/cost/pricing.ts:144-147 | every day number has a date that counts back to it |
| DayNames.NamesAreChronological | src/cost/pricing.ts:117 | lexical day order is chronological up to the year 9999 |
| DayNames.LaterYearsSortFirst | src/cost/pricing.ts:117 | and not from the year 10000 on |
| DayNames.NamesReadBack | src/cost/pricing.ts:117-134 | reading a day name gives its date back |
| DayNames.CostDayHoldsInstant | src/cost/pricing.ts:117-134 | an instant lies in its day's 24 Beijing hours |
| DayNames.CostDayFailsExactlyAtTheEnd | src/cost/pricing.ts:117 | an instant has no day exactly in the last eight hours of time |
| DayNames.DaysBeforeIsExact | src/cost/pricing.ts:144-147 | subtracting days is exact exactly past the year 99 |
| DayNames.WeekStartIsMonday | src/cost/pricing.ts:153-157 | the week starts on the Monday at or before the day |
| DayNames.MonthStartIsFirst | src/cost/pricing.ts:163 | the month starts on its first day |
| DayNames.NameHasTen | src/cost/pricing.ts:117 | a day name has ten characters; past the year 9999 its day is cut off |
| DayNames.NamedExactlyWhen | src/cost/pricing.ts:144-147 | a day has a name exactly within a hundred million days of 1970 |
| DayNames.WindowIsSixtyDays | src/cost/pricing.ts:125-169 | the window begins 59 days before today |
| Pricing.AcceptPrices | src/cost/pricing.ts:95-110 | a table is accepted exactly when intervals are not empty and no two versions overlap |
| Pricing.ChargedExactlyWhen | src/cost/pricing.ts:202-276 | when exactly a request has an amount |
| Charges.PriceIsInForce | src/cost/pricing.ts:202-240 | the version that prices a request is the first entry of the table that may and holds then |
| Charges.AcceptedExactlyWhen | src/cost/pricing.ts:95-110 | a table is accepted exactly when every version is in force at some instant and no two of one provider and model are at the same one; intervals that touch share none |
| Charges.ActiveMeans | src/cost/pricing.ts:229-231 | a version holds from its start on, its end excluded |
| Charges.ReasonTells | src/cost/pricing.ts:261-276 | a request without an amount says the first thing that it lacks |
| Charges.AliasCovers | src/cost/pricing.ts:189-193 | an alias that ends in a star covers exactly the names that begin with the rest of it, any other exactly its own |
| Charges.NoTokensCostNothing | src/cost/pricing.ts:261-276 | no tokens cost nothing |
| Charges.EachTokenCostsItsRate | src/cost/pricing.ts:261-276 | each further token adds a millionth of its own kind's rate: the peak rate of the version in force when the instant is peak, its off-peak rate otherwise |
| Charges.MillionTokensCostTheRate | src/cost/pricing.ts:261-276 | so a million more tokens of one kind cost exactly its rate more |
| Pricing.ExactVersionIsUniqueExactlyWhen | src/cost/pricing.ts:105-109 | in an accepted table at most one version of a name holds at any instant exactly when no two overlapping versions share a canonical name, and such versions spell it differently |
| Pricing.SpellingVariantsOverlap | src/cost/pricing.ts:105-109 | acceptance overlooks spelling variants |
| CostLedger.SliceConserves | src/cost/ledger.ts:84-106 | a slice's records, unknowns and amount are the sum over its days plus the samples before the window |
| CostLedger.TotalIsEverything | src/cost/ledger.ts:84-106 | and the tally of every sample |
| CostLedger.BucketsAreTallies | src/cost/ledger.ts:84-106 | each bucket tallies exactly its day |
| CostTallies.TallyCounts | src/cost/ledger.ts:84-106 | a tally holds the sum of the amounts of its requests, how many have none, and how many there are |
| CostTallies.TotalCounts | src/cost/ledger.ts:84-106 | so a session's total is the sum of all its requests, and says how many have no amount |
| CostTallies.ReasonsAreListed | src/cost/ledger.ts:84-106 | a slice keeps the reasons of its requests without an amount, each once, at most eight, and all of them when there are fewer |
| CostTallies.ReasonsStay | src/cost/ledger.ts:84-106 | a reason once listed stays where it is |
| CostTallies.SessionTotalIsSamples | src/cost/ledger.ts:76-150 | a session's total counts every sample of its scan, in the window or not, each decided with the table of that scan |
| CostTallies.ReadRemembers | src/cost/ledger.ts:140-150 | a read remembers the total it computes; one that is remembered stays what it was |
| CostTallies.ProvisionalExactlyWhen | src/cost/ledger.ts:45-114 | a session is provisional exactly when it was created where none was in place, and neither scanned since nor everything loaded again |
| CostLedger.SortDays | src/cost/ledger.ts:107-108 | the days are strictly ascending and sum the same |
| CostLedger.PeriodIsChronological | src/cost/ledger.ts:187-201 | a range of names sums exactly the stored days in the range |
| CostPeriods.SliceIsPlain | src/cost/ledger.ts:84-108 | every day stored by a scan of plain years has a name that orders as its date |
| CostPeriods.SlicePeriodIsSamples | src/cost/ledger.ts:76-201 | a range of days of one slice is the tally of exactly its samples whose Beijing day lies in the range and in the window |
| CostPeriods.PeriodIsSamples | src/cost/ledger.ts:187-201 | a period of the ledger is the tally, over all sessions, of exactly those samples, each session decided with the price table of its own scan |
| CostPeriods.LedgerPeriodsAdd | src/cost/ledger.ts:187-201 | adjacent periods of the ledger add up |
| CostPeriods.ReportsAreSamples | src/cost/ledger.ts:156-178 | today, the week and the month to date are the tallies, over all sessions, of the samples from that day, its Monday and its first of the month |
| CostPeriods.EveryRunIsBuilt | src/cost/ledger.ts:45-114 | in every run the slices in place are what the run's own scans fold to, loaded ones with the table they were decided with |
| CostPeriods.RememberedPeriodIsSamples | src/cost/ledger.ts:45-201 | in every run without a read inside a load, a remembered period is that tally, whichever scans the slices in place come from |
| CostPeriods.RunRemembersItsSamples | src/cost/ledger.ts:45-201 | so it is the tally of the samples of the run's own scans |
| CostLedger.MemoIsFresh | src/cost/ledger.ts:140-201 | memoised totals equal recomputation when no read falls inside a load |
| CostLedger.ReadInsideLoadGoesStale | src/cost/ledger.ts:45-52 | and after a read inside a load exactly when the loaded slices give the same total |
| CostLedger.SequentialReplacesKeepTheNewestCut | src/cost/ledger.ts:76-114 | sequential replaces never lower a cut |
| CostSaves.CutsNeverFall | src/cost/ledger.ts:76-114 | with the save between check and commit, neither the cut in place nor the one on file ever falls in a run in which no two saves of a session, of different cuts, are both past reading its file |
| CostSaves.CollidingSavesLowerTheCut | src/cost/ledger-files.ts:48-60 | from every state where two are, letting the newer finish first leaves the older in place |
| CostSaves.OverlappingReplacesCollide | src/cost/ledger.ts:76-114 | and two scans begun before either is in place get there |
| CostSaves.BeginsExactlyWhen | src/cost/ledger.ts:76-82 | a scan is begun exactly when the slice in place is not newer than it |
| CostSaves.LoneReplaceTakesPlace | src/cost/ledger.ts:76-114 | a replace that nothing overlaps ends with its slice on file and in place and leaves every other session alone; a newer file ends it without a trace |
| CostLedger.CostLedger.SeedNewSession | src/cost/ledger.ts:57-63 | a new session starts empty, an existing one is left alone |
| CostLedger.CostLedger.Replace | src/cost/ledger.ts:76-114 | an older scan changes nothing; a newer one is decided again and committed only when it is saved |
| CostLedger.CostLedger.Total | src/cost/ledger.ts:140-150 | the session's total, remembered |
| CostLedger.CostLedger.Period | src/cost/ledger.ts:187-201 | the range's total, remembered |
| CostLedger.CostLedger.SumPeriod | src/cost/ledger.ts:187-201 | the loop sums the range over all sessions |
| CostLedger.CostLedger.Today | src/cost/ledger.ts:156-159 | the period of one day |
| CostLedger.CostLedger.Week | src/cost/ledger.ts:165-168 | the period from the week's start |
| CostLedger.CostLedger.Month | src/cost/ledger.ts:174-177 | the period from the month's start |
| JsonEscapes.RepairJsonEscapes | src/controller/loop-contract.ts:247-264 | the loop computes the repair, and every backslash of it starts a defined escape |
| JsonEscapes.RepairedIsWellEscaped | src/controller/loop-contract.ts:247-264 | every backslash of a repaired text starts an escape of section 7 of RFC 8259 |
| JsonEscapes.RepairIsIdentityExactlyWhenWellEscaped | src/controller/loop-contract.ts:247-264 | a text is left alone exactly when its escapes are all defined |
| JsonEscapes.RepairIsIdempotent | src/controller/loop-contract.ts:247-264 | repairing twice is repairing once |
| JsonEscapes.RepairKeepsReading | src/controller/loop-contract.ts:247-264 | read with undefined escapes taken as they stand, a text says the same before and after repair |
| JsonEscapes.HexDigits | src/controller/loop-contract.ts:258-260 | the digits of an escaped code are those of section 7 of RFC 8259, in either case |
| JsonEscapes.ObjectEnd | src/controller/loop-contract.ts:298-318 | the loop ends where the scan of the text ends |
| JsonEscapes.RepairKeepsBoundaries | src/controller/loop-contract.ts:247-318 | repair never moves a string or brace boundary |
| JsonEscapes.WholeSpanStaysWhole | src/controller/loop-contract.ts:247-318 | a span accepted whole is accepted whole after repair |
| JsonEscapes.JsonObjects | src/controller/loop-contract.ts:276-291 | the loop lists the objects of a text, last first |
| JsonEscapes.ProseIsSkipped | src/controller/loop-contract.ts:276-291 | prose in which no object starts is skipped, whatever quotes and braces it holds |
| JsonEscapes.DenotedIsListed | src/controller/loop-contract.ts:276-332 | an object that is read as written, or where that fails from its repaired text, is listed with what was read |
| JsonEscapes.UnreadableSpanIsSkipped | src/controller/loop-contract.ts:276-332 | a span that can be read neither way contributes nothing |
| JsonEscapes.LastDeclaringExactlyWhen | src/controller/loop-contract.ts:343-352 | the verdict read is the one candidate that declares the round with none behind it that does; there is none exactly when no candidate declares it |
| JsonEscapes.PlainProseIsComplete | src/controller/loop-contract.ts:276-291 | prose in which no object starts has none that is incomplete |
| JsonTexts.ObjectIsDelimited | src/controller/loop-contract.ts:298-318 | every written object is delimited exactly, whatever braces, quotes and escapes its strings hold, and whatever follows it |
| JsonTexts.ObjectStarts | src/controller/loop-contract.ts:276-291 | it starts as the scan expects one to start, unless it has no fields |
| JsonTexts.WrittenVerdictIsRead | src/controller/loop-contract.ts:276-352 | so a written verdict is read from a reply, behind any prose whose own objects are complete |
| JsonEscapes.ParseVerdict | src/controller/loop-contract.ts:343-352 | the last object that declares the round is the one read |
| JsonEscapes.VerdictIsFound | src/controller/loop-contract.ts:276-352 | a complete verdict that parses, or does not parse but does once repaired, is read as what that gave, unless an object that starts earlier is still open where it begins or a later one declares the round |
| JsonEscapes.VerdictBehindObjectsIsFound | src/controller/loop-contract.ts:267-352 | so it is behind any prose whose own objects are complete, quoted verdicts included |
| TraceCut.CompactCut | src/controller/trace-log.ts:58-76 | the loop ends with a cut of at least length - keep that splits no span |
| TraceCut.SpanExactlyWhen | src/controller/trace-log.ts:38-48 | a line opens a span exactly when it is a begin, and closes one exactly when it is one of the four ends, of one of three kinds of event |
| TraceCut.SameSpanExactlyWhen | src/controller/trace-log.ts:38-48 | two spans have one key exactly when they are of one kind and name the same first present identifier, or both none |
| TraceCut.CutFromIsSafe | src/controller/trace-log.ts:58-76 | no kept close has its matching begin dropped |
| TraceCut.FixedExactlyWhenSafe | src/controller/trace-log.ts:67-73 | a cut is left alone exactly when it splits no span |
| TraceCut.CutFromIsLeast | src/controller/trace-log.ts:58-76 | the cut is least when no key closes twice |
| TraceCut.OvershootsExactlyWhen | src/controller/trace-log.ts:58-76 | a safe cut is missed exactly when a cut tried before it has a key open that closes behind it |
| TraceCut.ReusedKeyOvershoots | src/controller/trace-log.ts:58-76 | every key open at the first cut that closes before a safe cut and again behind it costs minimality |
| TraceCut.ReusedGenerationIsDropped | src/controller/trace-log.ts:58-76 | a trace of two generations of which the second is dropped although keeping it would split nothing |
| TraceCut.CutExceedsTheBaseExactlyWhen | src/controller/trace-log.ts:56-59 | the cut is above length - keep exactly when a span is split there, and then behind the close of every such span |
| LineSplitter.Stream.EmitLine | src/shell/runner.ts:103-107 | one line is shown stripped and truncated, or swallowed while discarding |
| LineSplitter.Stream.FeedChunk | src/shell/runner.ts:109-123 | a chunk is split as specified and the carry is within the budget afterwards |
| LineSplitter.Stream.Finish | src/shell/runner.ts:124-127 | the rest is emitted |
| LineSplitter.ReadAll | src/shell/runner.ts:103-127 | a whole stream gives the reference lines, however it was cut |
| LineSplitter.RunIsReference | src/shell/runner.ts:103-127 | the emitted lines are the text split at newlines, one CR stripped, truncated |
| LineSplitter.ShownMeans | src/shell/runner.ts:103-107 | a line is shown without the one carriage return at its end, and its first 8192 characters with an ellipsis when there are more |
| LineSplitter.FinishedOnce | src/shell/runner.ts:124-127 | finishing again emits nothing more |
| LineSplitter.CarryWithinBudget | src/shell/runner.ts:118-122 | the carry never exceeds the budget after a feed |
| LineSplitter.CutBeforeNewlineDiffers | src/shell/runner.ts:118-122 | a CR right past the budget makes one cut visible |
| LineSplitter.ChunkingIndependence | src/shell/runner.ts:103-127 | every cutting gives the reference lines exactly when the text has no such CR |
| PromptIndex.TrimIsLeast | src/session/info.ts:264-271 | a trim ends within both budgets and drops no more than it must |
| PromptIndex.FoldBudgets | src/session/info.ts:173-177 | budgets hold after a fold exactly when they held or it appended |
| PromptIndex.PushBudgets | src/session/info.ts:253-261 | budgets hold after a push exactly when they held or it appended |
| PromptIndex.RecordBudgets | src/session/info.ts:190-197 | budgets hold after recording a command exactly when they held or it appended |
| PromptIndex.SettleBudgets | src/session/info.ts:245 | budgets always hold after settling |
| PromptIndex.FoldEvicts | src/session/info.ts:173-177 | a fold evicts from the oldest end and the cursor follows |
| PromptIndex.SettleEvicts | src/session/info.ts:245-271 | settling evicts exactly the excess |
| PromptIndex.PrependMovesUp | src/session/info.ts:203-217 | older prompts move every entry and the cursor up |
| PromptIndex.CursorKeepsItsEntry | src/session/info.ts:203-271 | an active cursor denotes the same entry unless that was evicted |
| PromptIndex.RecallRoundTrip | src/session/info.ts:224-238 | steps back and the same steps forward return the operator's draft |
| PromptIndex.EveryRunKeepsInv | src/session/info.ts:146-271 | bytes are exact and durable sequences strictly ascend after any in-order run |
| PromptIndex.StepRaisesWatermark | src/session/info.ts:173-177 | the watermark never goes back but by a reset |
| PromptRecall.DurableEnters | src/session/info.ts:253-261 | a durable prompt enters exactly when the client did not send it itself and it can be recalled: in place of the newest entry when that has its text, and behind it otherwise |
| PromptRecall.CommandEnters | src/session/info.ts:190-197 | a command enters likewise, but never in place of another |
| PromptRecall.PageEnters | src/session/info.ts:203-217 | of a page exactly the prompts enter in front that come before every durable entry, are the first of their sequence that could, were not sent by the client and can be recalled |
| PromptRecall.SendIsNewest | src/session/info.ts:156-165 | sending a text remembers it as the newest |
| PromptRecall.SendRemembers | src/session/info.ts:156-165 | another one stays remembered for as long as fewer than all 512 places were taken since |
| PromptRecall.EachSentOnce | src/session/info.ts:156-165 | each text the client sent is remembered once, so a repeated one takes no second place |
| PromptRecall.SentIsRemembered | src/session/info.ts:156-165 | so over runs a sent text is remembered until 512 others were sent |
| PromptRecall.SentStaysOut | src/session/info.ts:151-261 | a prompt the client sent never enters recall: if no entry had its text then, none has it afterwards, whatever is folded, recorded or paged, until 512 others were sent |
| PromptRecall.CompleteExactlyWhen | src/session/info.ts:137-142 | an index claims to hold all older prompts exactly when its scan was finished since the last reset and no entry was dropped since that reset, before or after |
| PromptRecall.MoveShows | src/session/info.ts:223-234 | a step towards older input shows the entry before the cursor, one towards newer input the entry behind it, past the newest the draft |
| PromptIndex.PromptIndex.TrimToBudgets | src/session/info.ts:264-271 | the loop evicts exactly the excess and moves the cursor |
| PromptIndex.PromptIndex.FoldScan | src/session/info.ts:173-177 | a scan is folded as specified |
| PromptIndex.PromptIndex.RecordCommand | src/session/info.ts:190-197 | a command is recorded as specified |
| PromptIndex.PromptIndex.PrependPage | src/session/info.ts:203-217 | an older page is put in front as specified |
| PromptIndex.PromptIndex.Recall | src/session/info.ts:224-235 | one recall step as specified |
| PromptIndex.PromptIndex.SuppressText | src/session/info.ts:156-165 | a sent prompt is remembered among the newest few |
| PromptCache.FittingIsLongest | src/session/info.ts:303-311 | the part kept is a suffix that fits, and no longer suffix does |
| PromptCache.EvictIsLeast | src/session/info.ts:350-355 | eviction ends within the budget, stops as soon as it can, and keeps the newest session |
| PromptCache.PutIsOk | src/session/info.ts:295-316 | storing keeps the budget and the session just stored; others are untouched or evicted |
| PromptCache.GetIsOk | src/session/info.ts:335-340 | reading changes no session |
| PromptCache.EveryRunIsOk | src/session/info.ts:295-355 | the cache never exceeds its budget and keeps the session just written |
| PromptCache.StoredExactly | src/session/info.ts:292-316 | a session's entry is the longest newest part that fits of its prompts with text, and as complete as it was said to be exactly when all of them fit |
| PromptCache.NonEmptyMeans | src/session/info.ts:292-294 | prompts with text are kept as often as given, those without never |
| PromptCache.EveryRunIsInOrderOfUse | src/session/info.ts:335-356 | in every run the cache lists its sessions in the order of their last use, reads included |
| PromptCache.LeastRecentlyUsedGoes | src/session/info.ts:350-356 | a session that another one's write pushes out was used before every session that stays |
| PromptCache.ScanThatFitsHoldsAll | src/session/info.ts:326-329 | one undisturbed scan that fits holds every page, in order |
| PromptCache.CompleteMeansNoHoleExactlyWhenItFits | src/session/info.ts:303-329 | a complete entry has no hole exactly when its text fits |
| PromptCache.PromptCache.Store | src/session/info.ts:295-316 | the loop stores as specified |
| PromptCache.PromptCache.ObservePage | src/session/info.ts:326-329 | a page is observed as specified |
| PromptCache.PromptCache.Read | src/session/info.ts:335-340 | a read returns the entry and makes it the newest |

## Left out

- Rendering: wrapping, Markdown, mathematics and diagrams; a message's rows are a fixed function of message, width, reasoning and heading. The live tail's own wrap state and its phases are not modelled.
- JSON decoding, canonical model names, prompt flattening, record sizes and the holiday calendar are uninterpreted functions; frames too malformed to decode are not modelled, except where a decoder throws in the telemetry store. Tool summaries are given, not parsed out of content blocks.
- Money is exact; floating-point rounding is not modelled.
- Observers and listeners of the foreground slot may throw where they publish an operation's begin or end; its trace of queued and refused claims is passive, and the gate's report is total (it runs outside the gate's try, src/session/mutation-gate.ts:64-65).
- Message lists are values: a message changed in place after it was laid out is not modelled.
- The subagent addresses of a cost scan and its progress and abort signals; the ledger's file names, pruning and file reading; another process that writes the same files.
- Prompt and brief texts, notes, activities and trace details of the loop; a prompt is only held, consumed and sent.
- Stops, deadlines and answers reach the loop between segments, not inside a publish; what a listener does there beyond change and idle callbacks is not modelled.
- NothingCollides: assumes `Allowed`, which is exactly what it needs (`LoopExact.AllowedExactly`).
- RefusedEndHarms: a refused event is shown to have a harmful continuation; whether one comes depends on what the verifier and the host do next.
- TrimStopsForAReason: measures bytes before annotation, as the code does; of the bytes after a trim the promise is false, and `TargetsMetExactlyWhenGrowthFits` gives its exact condition.
- NextTrimGrowsTheNew: speaks of released history read back as far as it was stored before the trim; history from before that may bring a call for a result that had none, which then grows.
- Sockets, authentication, process control, exports, commands and the user interface: input and output, or wiring over these cores.
