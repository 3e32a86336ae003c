# Verified model of the browser worker

The worker launches isolated Chromium processes for three kinds of work: browser
tasks (`POST /v1/tasks`), replays of flow documents (`POST /v1/flows/run`) and
interactive sessions that an operator continues or cancels. This project models
the worker's protocols and the algorithms they use, and proves what they keep.

## How the model is organised

| files | what they model |
|---|---|
| `SessionProtocol`, `SessionInvariant`, `SessionSafety`, `SessionHistory`, `SessionOutcome`, `SessionCancellation`, `SessionProgress`, `SessionWitness` | the interactive-session protocol as a transition system: Create, Continue, Cancel, Status, Shutdown and one runner per session, each with a program counter; its invariant; bounds, histories, where an outcome comes from, what an accepted cancellation leads to, progress |
| `SessionPolicy` | that protocol together with the violations that the sessions' request handlers record, and the two places where a session looks at them |
| `SessionManager` | `SessionManager` and `sessionState` as classes updated in place. Every atomic method performs one protocol step on the heap, and the methods of `session.go` are written with any steps of all other actors between two of their own |
| `Interception` | request interception of one browser run: any number of handlers sharing a redirect tracker and a policy state, as a transition system and as classes |
| `FlowDocument`, `Selector`, `Deadlines` | flow validation, the CSS attribute printer with a parser after CSS Syntax Module Level 3, context deadlines |
| `RunReports`, `WorkerReports` | what a run reports, as predicates on its log: operations, policy checks and handler steps, with how many of the latter each operation and each check had seen; what follows from them |
| `ReplayMeaning`, `WorkerMeaning` | what such reports mean, said without the functions that the runs compute with: what each step type asks of the browser, which URLs are visited, what every error stands for, where the checks lie |
| `BrowserRuns`, `WorkerRuns` | one browser run: `executeStep`, the replay loop, `runFlow`, `run`, `startInteractive`, `extractAfterInteraction`. Browser operations are nondeterministic outcomes, and handler steps of `Interception` may occur during each of them. A run writes the log and its resource events |
| `Ledger` | what a handler stored, still has, and refers to |
| `Lifecycle`, `Handlers`, `Server` | the discipline of a handler's resource events, `handleTask` and `handleFlowRun`, and any interleaving of handlers over the shared slots, in-flight counter, profiles and store |
| `Extract`, `Utf8`, `Bits`, `AddrPolicy`, `Artifacts` | truncation and deduplication, UTF-8, prefix arithmetic, address classification, the artifact store |
| `Models`, `Counting` | shared types and cardinality facts |

The main results, hardest first:

* Sessions (`SessionSafety`, `SessionHistory`, `SessionProgress`): in every
  interleaving the slots in use are exactly the Create calls and runners that
  hold one; registered sessions and live profiles stay below them; the receives
  from the slots channel never block; an outcome is final; a completed session
  was continued by a Continue that saw it waiting; a cancelled runner always
  makes progress; a Shutdown that has its snapshot returns within a bounded number
  of helpful steps, none of which any other actor can undo.
* Flow runs (`BrowserRuns`, `WorkerRuns`, judged by `RunReports`): a replay
  reports a prefix of the steps; report j belongs to operation j and to the policy
  check that directly follows it; that check, else the operation, decides it. The
  check after the loop and the one after a stored final screenshot come after all
  that happened before. So a run fails with exactly the violation that any of its
  checks finds, and fails whenever one was recorded before an operation returned,
  but for the last reading of the URL. Every stored artifact is referenced exactly
  once or already deleted; each operation keeps to its own timeout and all together
  to the flow timeout.
* Tasks and sessions (`WorkerRuns`, judged by `WorkerReports`): the same for
  browser tasks without any exception, and for the start and the end of a session.
* The server (`Server`): profiles <= in-flight requests <= slots <= capacity in
  every interleaving; when a response is written its artifacts are in the store;
  once all handlers have ended, the store holds its initial contents again.
* Exact specifications for truncation, deduplication, flow validation, CSS
  printing (a round trip if and only if the value has no newline, carriage
  return, form feed or NUL) and address classification.

## Assumptions

* Continue, Cancel and Shutdown check a channel and then close it outside any lock
  (`internal/browser/session.go:141-145`, `162-166`, `203-207`). The model takes each
  select-and-close as one atomic step; two overlapping ones could close twice.
* Tokens and artifact identifiers are fresh. Saving and deleting a file is atomic,
  and removing a file succeeds.
* A browser operation returns once its context is done, and `startInteractive`
  and `extractAfterInteraction` return.
* Time is an abstract clock that never goes back. Chromium, the network and DNS are
  nondeterministic outcomes; URL parsing is a parameter.

## Where code and documentation differ

* `README.md:159-160` of the repository says that a policy violation during manual
  browsing immediately fails the session. The code looks at the policy only after
  navigation and during extraction. A violation of a waiting session changes nothing
  that anybody may do next (`SessionPolicy.ViolationLeavesWaiting`); the session may
  be reported as waiting and then expire (`SessionPolicy.ViolationMayGoUnnamed`); it
  fails with the violation exactly if its select takes the continue channel, and it
  never completes (`SessionPolicy.ViolatedSessionOutcome`).
* `README.md:185` says that a violation fails a flow run closed. It does, except that
  nothing looks at the policy after the final URL of a run without a screenshot.
  `RunReports.FailsClosed` has the condition; `WorkerReports.CompletedDespiteViolation`
  gives the run: one `assert_url` step, and a request refused while the final URL is
  read. `RunReports.ViolationMayStayUnseen` shows that the exception concerns every run
  without a screenshot that can complete.
* Shutdown's comment says that it blocks until each runner has exited. A runner
  closes `doneCh` before it unregisters, so a session may still be registered when
  Shutdown returns: `SessionWitness.ShutdownMayLeaveRegistered` gives the run,
  `SessionSafety.ShutdownWaitsForAll` the exact condition.
* An accepted Cancel need not end as `cancelled`: in the run of
  `SessionWitness.AcceptedCancelCompletes` a Cancel returns without an error and the
  session completes. With `cancelCh` closed a session can still end as cancelled
  exactly if its select has not taken another case and its start has not failed
  (`SessionCancellation.CancelCanWinExactly`), and it must exactly if its select has
  taken a cancellation (`SessionCancellation.CancelMustWinExactly`).
* `extractAfterInteraction` never deletes what it stored. An artifact is left that no
  result mentions exactly if the check after a stored screenshot
  (`internal/browser/worker.go:693-695`) is reached and finds a violation
  (`WorkerReports.ExtractionBalances`); `WorkerReports.SessionMayLeaveArtifact` gives
  the session, for every configuration. Artifact conservation is therefore stated for
  browser tasks and flow runs.

## Model

| member | source | states |
|---|---|---|
| SessionInvariant.StepKeepsInv | internal/browser/session.go:86-300 | every step of every actor keeps the inductive invariant: slots accounted for, registry equal to the not yet unregistered sessions, each session's status, result, channels, profile and browser fitting its runner's position, each call's position fitting the sessions |
| SessionInvariant.RunnerStepKeepsInv | internal/browser/session.go:231-300 | the same for the steps of runSession, including its deferred blocks |
| SessionInvariant.RegisterKeepsInv | internal/browser/session.go:112-114 | registering under a fresh token keeps it, before the runner exists |
| SessionInvariant.ReachableInv | internal/browser/session.go:60-300 | it holds after every run, for every capacity setting |
| SessionSafety.ResourcesBounded | internal/browser/session.go:91-116 | slots in use = Create calls holding one + runners not yet released; registered sessions and live profiles <= slots <= capacity, which defaults to 2 |
| SessionSafety.ReceivesNeverBlock | internal/browser/session.go:97-101 | giving a slot back, here and in remove, is always possible |
| SessionSafety.ProfileRemovedOnce | internal/browser/session.go:235-263 | along a run a profile is removed at most once, and exactly once, if it was made, when the slot is released; each removal finds it, after its browser is gone and while the slot is held |
| SessionSafety.OutcomeIsFinal | internal/browser/session.go:244-300 | a session leaves waiting at most once; status and result never change again; each status fixes what the result is |
| SessionOutcome.DecisionHolds | internal/browser/session.go:244-300 | whatever the runner's decisive choice is, in every continuation the session is on its way to, or has, exactly the status and result that belong to it |
| SessionOutcome.DecidedHasCause | internal/browser/session.go:244-300 | the outcome of every decided session is that of such a choice: the error of its failed start, of the timeout, or what its extraction returned |
| SessionOutcome.CompletedWasExtracted | internal/browser/session.go:290-299 | a decided session is completed with a result exactly if its extraction returned that very result without an error |
| SessionSafety.ShutdownWaitsForAll | internal/browser/session.go:190-210 | when Shutdown has returned, every session of its snapshot, skipped or not, is done; it is still registered exactly while its runner is between close and delete |
| SessionHistory.CompletedWasContinued | internal/browser/session.go:276-299 | before a completed session's select fired, a Continue that saw it waiting had closed continueCh |
| SessionHistory.CancelledWasRequested | internal/browser/session.go:276-288 | a session is cancelled, or about to be, exactly if its select took cancelCh after that had been closed, or the service context after that was done |
| SessionHistory.ContinueClosedWasSignalled | internal/browser/session.go:124-147 | continueCh is closed only by a Continue that saw waiting earlier |
| SessionHistory.CancelClosedWasRequested | internal/browser/session.go:150-168 | cancelCh is closed only by a Cancel that saw waiting earlier, or by Shutdown |
| SessionHistory.ShutdownCoversRegistry | internal/browser/session.go:190-210 | there is an earlier moment such that all sessions registered then are done, decided and without profile or browser |
| SessionCancellation.LateCancelNeverCancels | internal/browser/session.go:276-300 | once the select has taken another case, or the start has failed, no continuation of the run ends as cancelled |
| SessionCancellation.CancelCanWinExactly | internal/browser/session.go:276-300 | with cancelCh closed, some continuation ends the session as cancelled exactly if its select has not run, or took a cancellation, and its start has not failed |
| SessionCancellation.CancelMustWinExactly | internal/browser/session.go:276-300 | no continuation ends the session otherwise exactly if its select has taken a cancellation |
| SessionWitness.AcceptedCancelCompletes | internal/browser/session.go:150-168 | a concrete run in which a Cancel was accepted and the session completed |
| SessionProgress.CancelledRunnerProgresses | internal/browser/session.go:231-300 | with cancelCh closed, the runner has an enabled step until its slot is free; each of its steps lowers its rank, no other step raises it |
| SessionProgress.WorkNeverGrows | internal/browser/session.go:198-209 | no step of any actor adds to the work a Shutdown has left |
| SessionProgress.HelpfulStep | internal/browser/session.go:198-209 | a running Shutdown is never stuck: a step of its own or of the awaited session is enabled and does some of the work |
| SessionProgress.ShutdownReturns | internal/browser/session.go:190-210 | whatever all actors do, a Shutdown has returned as soon as the run holds as many helpful steps as there was work after its snapshot, it never holds more, and until then a helpful step is enabled |
| SessionProgress.ShutdownCanReturn | internal/browser/session.go:190-210 | from every reachable state, some continuation no longer than the remaining work returns |
| SessionWitness.ShutdownMayLeaveRegistered | internal/browser/session.go:235-237 | a concrete run in which Shutdown has returned and a session of its snapshot is still registered |
| SessionManagement.SessionState.SetStatus | internal/browser/session.go:244-248 | only the status changes |
| SessionManagement.SessionState.Fail | internal/browser/session.go:249-254 | status failed together with the error result |
| SessionManagement.SessionManager.constructor | internal/browser/session.go:60-81 | the defaulted initial state |
| SessionManagement.SessionManager.Perform | internal/browser/session.go:86-300 | updating the fields in place is exactly one protocol step |
| SessionManagement.SessionManager.Create | internal/browser/session.go:86-119 | a registered session with a spawned runner under the fresh token that was drawn, or an error: negative max_text_chars exactly then, overload only if at some moment of the call no slot was free, no token only if none could be drawn |
| SessionManagement.SessionManager.Signal | internal/browser/session.go:124-168 | Continue and Cancel: acceptance means the session was seen waiting and the channel is closed afterwards; refusal means that at some moment of the call it was unknown, or decided as the error says |
| SessionManagement.SessionManager.GetStatus | internal/browser/session.go:171-186 | a consistent view of some moment of the call, with a result exactly for completed and failed; not found only if it was unknown at some moment of the call |
| SessionManagement.SessionManager.Shutdown | internal/browser/session.go:190-210 | the loop terminates, in rounds of any foreign steps and one of the awaited session, and every session of its snapshot is done |
| SessionManagement.SessionManager.RunSession | internal/browser/session.go:231-300 | a runner ends unregistered and done, without profile or browser, with the status and the very result that one decisive choice of its own led to |
| SessionManagement.SessionManager.StartInteractive | internal/browser/worker.go:561-647 | browser and profile exist, and were handed over, exactly if the start succeeded; otherwise the error is left for fail |
| SessionPolicy.StepsAreARun | internal/browser/session.go:231-300 | sessions with violations do nothing that the session protocol does not allow, so that all of the above holds of them |
| SessionPolicy.EveryRunIsPossible | internal/browser/session.go:231-300 | without a violation nothing is ruled out |
| SessionPolicy.AlwaysIntercepted | internal/browser/worker.go:614-627 | violations are recorded only after request interception was enabled, which it is for every session that was handed a browser |
| SessionPolicy.StartIsAllowed | internal/browser/worker.go:534-648 | every way in which a start can end, before there is a profile, before its navigation or after it, is one that the session protocol with violations allows |
| SessionPolicy.ExtractionIsAllowed | internal/browser/worker.go:652-700 | the same for every extraction |
| SessionPolicy.ViolationLeavesWaiting | internal/browser/session.go:276-288 | a violation of a waiting session changes neither the session nor which steps anybody may take |
| SessionPolicy.ViolatedSessionOutcome | internal/browser/session.go:276-300 | such a session fails with the violation exactly if its select takes the continue channel later; otherwise it waits on, is cancelled or expires; it never completes |
| SessionPolicy.ViolationMayGoUnnamed | internal/browser/session.go:282-284 | a concrete run in which Status answers waiting after the violation and the session then expires |
| SessionManagement.SessionManager.Select | internal/browser/session.go:276-288 | any ready case may be taken; one that was taken was ready: a Continue that saw the session waiting, or a request to cancel, had closed its channel before |
| Interception.StepKeepsInv | internal/browser/worker.go:436-496 | every handler step keeps the invariant of the shared redirect count, the policy state and all handlers |
| Interception.RedirectsBounded | internal/browser/worker.go:134-145 | in every interleaving at most limit redirected requests are continued |
| Interception.AnswersFollowPolicy | internal/browser/worker.go:448-457 | a continued request was admitted: accepted destination, and for a redirect a hop within the limit; a blocked one was not, and a violation is visible before the blocking answer |
| Interception.RecordedErrorsMean | internal/browser/worker.go:460-496 | every recorded error is why its own request was refused: the limit first, whatever the destination; else the policy's message, under the code for redirects if it was one |
| Interception.BlockedWasRecorded | internal/browser/worker.go:448-454 | a blocked request recorded such an error itself |
| Interception.HopsCountRedirects | internal/browser/worker.go:134-145 | a redirect's hop is the number of redirects counted in the run up to and with it |
| Interception.FirstFailureIsFirst | internal/browser/worker.go:161-167 | the violation of a run is that of a step before which none was recorded |
| Interception.FirstViolationWins | internal/browser/worker.go:161-167 | the recorded violation is that of the first policy.fail of the run |
| Interception.ViolationIsStable | internal/browser/worker.go:161-173 | once visible it never changes |
| Interception.NothingBlockedBefore | internal/browser/worker.go:448-454 | while no violation is recorded, no request has been answered as blocked |
| Interception.RedirectTracker.Record | internal/browser/worker.go:134-145 | counts every hop and refuses from hop limit + 1 on |
| Interception.PolicyState.Fail | internal/browser/worker.go:161-167 | keeps the first error |
| Interception.Interceptor.Perform | internal/browser/worker.go:436-496 | updating the shared objects is exactly one step of the transition system |
| Interception.Interceptor.HandlePausedRequest | internal/browser/worker.go:436-458 | with other handlers anywhere in between, the request ends dropped, continued because it was admitted, or blocked because it was not, after recording an error that says why |
| BrowserRuns.BrowserRun.OwnOp | internal/browser/worker.go:356-357 | the operation runs under a child context that starts between the previous operation and this one |
| BrowserRuns.BrowserRun.Screenshot | internal/browser/worker.go:352-368 | one capture under a child context with the extraction timeout; the identifier under which the capture was stored, or an error exactly if there is no store, the capture fails or saving fails |
| BrowserRuns.BrowserRun.Violation | internal/browser/worker.go:169-173 | returns the first failure among all handler steps so far |
| BrowserRuns.BrowserRun.PageStep | internal/browser/replay.go:246-288 | one operation, the step's (ReplayMeaning.StepOpIsAsked says which), under its context; no error exactly when it succeeded and assert_url saw the expected URL |
| ReplayMeaning.StepOpIsAsked | internal/browser/replay.go:245-303 | what the step of each type asks for: URL, element and value; the element by a selector from which a CSS parser reads the locator |
| ReplayMeaning.SelectorDenotes | internal/browser/replay.go:349-364 | the selector of a css locator is its text; from that of an id or name locator a CSS parser reads attribute and value, for every value |
| BrowserRuns.BrowserRun.DispatchStep | internal/browser/replay.go:245-303 | at most one operation, under the step's context; the default branch runs exactly for unknown types |
| BrowserRuns.BrowserRun.ExecuteStep | internal/browser/replay.go:232-330 | at most one operation, under the step's own timeout, then a policy check; a violation that this check finds is the report's error; otherwise the report is completed exactly if the operation succeeded, else it has the operation's error and, where there is a store, a diagnostic screenshot; nothing else is done, and whatever was stored is in the report |
| ReplayMeaning.ExecutedExactly | internal/browser/replay.go:305-330 | a step is reported completed exactly if its check found nothing and the browser did what its type demands, failed exactly with an error |
| ReplayMeaning.ExecutedFailedFor | internal/browser/replay.go:315-346 | the error of every step that failed without a violation, case by case |
| ReplayMeaning.FailedStepShot | internal/browser/replay.go:309-326 | what the report of a failed step refers to: its own screenshot after a violation, else the diagnostic one |
| ReplayMeaning.ReplayAsked | internal/browser/replay.go:232-303 | in every replay, failed or not, each reported step asked for what its type says, under a context of timeout_ms or else five seconds |
| RunReports.WellFormedStepIsProper | internal/browser/replay.go:245-303 | a validated step never navigates to a URL the parser rejects and never queries an empty selector |
| BrowserRuns.BrowserRun.RunSteps | internal/browser/replay.go:167-175 | the reports are a prefix of the steps in order, report j for operation j and its own policy check, all completed but possibly the last, whose error is the loop's; the stored artifacts are the referenced ones |
| BrowserRuns.BrowserRun.RunAndCheck | internal/browser/replay.go:167-180 | after everything the loop did there is one more check, and a violation that it finds is the error |
| BrowserRuns.BrowserRun.OpenStartURL | internal/browser/replay.go:156-165 | a completed visit of the start URL leaves no artifact although its report is dropped |
| BrowserRuns.BrowserRun.RecordFinalURL | internal/browser/replay.go:219-226 | the reported location, or nothing if the operation failed |
| BrowserRuns.BrowserRun.AuditScreenshot | internal/browser/replay.go:191-198 | a check after the capture; a violation that it finds deletes the screenshot again and nothing else |
| BrowserRuns.BrowserRun.FinalScreenshot | internal/browser/replay.go:184-200 | an artifact exactly if the capture was stored and the check after it found no violation, which else is the error; without one the store is as before |
| BrowserRuns.BrowserRun.Replay | internal/browser/replay.go:154-203 | the whole log from here on, operation by operation and check by check, and the result that it determines: reports, final URL, screenshot, status and error; stored = referenced exactly once or deleted |
| RunReports.CompletedReplay | internal/browser/replay.go:154-203 | a completed replay has a succeeded operation for every step, in order, and nothing else; its last check came after the last step's operation, with a screenshot after that, and found no violation |
| ReplayMeaning.CompletedReplayDid | internal/browser/replay.go:154-203 | step type by step type, what the browser did in a completed replay: navigated, clicked, filled and chose what the flow says where it says, and was where assert_url expects it; final URL and screenshots are what was read and stored |
| ReplayMeaning.CompletedReplayChecks | internal/browser/replay.go:154-198 | a completed replay was checked after the start URL, after each step, after the loop and after the screenshot, each time without a violation |
| ReplayMeaning.ReplayStopsAtViolation | internal/browser/replay.go:167-182 | after a violation during a step only the final URL is read |
| ReplayMeaning.FailedReplaySaysWhy | internal/browser/replay.go:154-203 | a replay without a visible violation failed for its start URL, its last step or its screenshot, with the error that belongs to it |
| ReplayMeaning.StartFailureMeans | internal/browser/replay.go:156-165 | the only report of a start URL that could not be opened |
| ReplayMeaning.ReplayReadsURL | internal/browser/replay.go:182-226 | every replay that got to its steps reports the location read at its end |
| RunReports.VisibleViolationFails | internal/browser/replay.go:177-198 | the violation that any check of a replay finds is the error of the failed run |
| RunReports.FailsClosed | internal/browser/replay.go:307-313 | a replay has failed, with an error, if a violation was recorded before any of its operations returned, except the last reading of the URL of a run without a screenshot |
| RunReports.StatusFollowsError | internal/browser/replay.go:154-203 | a replay has failed exactly if it reports an error, and completed otherwise |
| RunReports.LastReadIsUnchecked | internal/browser/replay.go:182-202 | in that case every completed run stays completed whatever handlers do during that reading |
| RunReports.ViolationMayStayUnseen | internal/browser/replay.go:182-202 | from every completed run without a screenshot, one with a valid log that completes although a violation was recorded before its last operation returned |
| WorkerReports.CompletedDespiteViolation | internal/browser/replay.go:177-202 | such a run of a well-formed flow, written out, for every configuration, URL and violation |
| WorkerRuns.RunIsWellLogged | internal/browser/worker.go:436-458 | every log that the program leaves is of the valid kind that these runs have |
| RunReports.CheckSeesOperation | internal/browser/worker.go:169-173 | a check after n operations finds whatever was recorded before any of them returned |
| WorkerRuns.StartBrowser | internal/browser/replay.go:104-152 | for each way the launch can end, its error and what exists then; interception is enabled exactly if the browser started |
| WorkerRuns.TearDown | internal/browser/replay.go:108-115 | the browser is cancelled before its profile is removed |
| WorkerRuns.Launch | internal/browser/worker.go:233-287 | a failed launch leaves neither profile nor browser |
| WorkerRuns.RunFlow | internal/browser/replay.go:79-203 | an ill-formed flow or a refused first destination returns that error and nothing is launched; otherwise the launch's error or the outcome of Replay after a launch; no URL is visited first that the destination policy does not accept; no profile or browser is left; all operations take at most FlowTimeout together; executeStep's default branch never runs, no rejected URL is visited and no empty selector queried |
| WorkerMeaning.FirstVisitWasAccepted | internal/browser/replay.go:91-102 | whatever a flow run visits first was accepted by the destination policy |
| WorkerMeaning.RefusalMeans | internal/browser/replay.go:91-102 | a well-formed flow is refused before the launch exactly if the URL of its start_url, or else of a leading navigate step, is refused, and with that error |
| WorkerMeaning.LaunchErrorsMean | internal/browser/worker.go:233-287 | which code and text stands for which way a launch can fail |
| WorkerRuns.FlowRunKeepsTimeouts | internal/browser/replay.go:228-241 | in every flow run each step's operation takes at most its own timeout and ends by the run's deadline, as does the final screenshot |
| WorkerMeaning.FirstOperation | internal/browser/replay.go:205-215 | a started flow with a start_url, or else a leading navigate step, visits that URL first |
| WorkerRuns.RunIsBounded | internal/browser/replay.go:88-89 | operations of a run under one deadline together take no longer than its timeout |
| WorkerReports.CompletedRunBlockedNothing | internal/browser/replay.go:177-198 | when a completed run's policy was last checked, after its last step or its screenshot, no request had been blocked |
| WorkerRuns.RunFollowsFewRedirects | internal/browser/worker.go:278-280 | over a whole run at most ten redirected requests were continued |
| WorkerRuns.RunTask | internal/browser/worker.go:212-349 | an invalid request or refused destination returns that error and nothing is launched, so that any operation implies a valid request and an accepted destination; otherwise the launch's error, or the result that the log of visit, check, extraction, check and wanted screenshot with its check determines; stored = referenced or deleted; bounded by TaskTimeout |
| WorkerMeaning.TaskRefusalMeans | internal/browser/worker.go:177-231 | what an invalid request is answered with: the first of its faults |
| WorkerMeaning.FailedTaskSaysWhy | internal/browser/worker.go:289-337 | a failed task's error is the violation at its last check, or that of its last operation |
| WorkerMeaning.CompletedTaskShot | internal/browser/worker.go:324-337 | a completed task reports the very screenshot that its last operation stored |
| WorkerMeaning.CompletedTaskChecks | internal/browser/worker.go:289-337 | a completed task was checked after each operation, without a violation |
| WorkerMeaning.TaskStopsAtViolation | internal/browser/worker.go:293-337 | nothing follows the operation during which a violation was recorded |
| WorkerReports.CompletedTask | internal/browser/worker.go:289-348 | a completed task visited, extracted and, if asked to, captured, and did nothing else; its last check came after all of it and found no violation |
| WorkerReports.VisibleViolationFailsTask | internal/browser/worker.go:293-337 | the violation that any check of a task finds is its error |
| WorkerReports.TaskFailsClosed | internal/browser/worker.go:293-337 | a task has failed if a violation was recorded before any of its operations returned |
| WorkerReports.TaskKeepsTimeouts | internal/browser/worker.go:289-304 | the navigation keeps to its timeout, extraction and screenshot to theirs, all of them to the overall deadline |
| WorkerRuns.CheckedOp | internal/browser/worker.go:289-313 | one operation under its own timeout and a check after it; a violation that the check finds takes precedence over the operation's own error |
| WorkerRuns.StartInteractive | internal/browser/worker.go:534-648 | a refused URL, a failed launch, a violation found after the navigation and a failed navigation each return that error and leave neither browser nor profile; otherwise both are handed over |
| WorkerReports.SessionStartsExactly | internal/browser/worker.go:629-647 | a session starts exactly if its URL was accepted, its browser came up, the page was opened and the check after that found no violation; a violation found there is the error |
| WorkerMeaning.SessionOpens | internal/browser/worker.go:547-560 | a session opens the URL it was given, accepted by the policy, or about:blank if none was given |
| WorkerMeaning.FailedStartSaysWhy | internal/browser/worker.go:534-647 | every error of a start that failed |
| WorkerRuns.ExtractAfterInteraction | internal/browser/worker.go:652-700 | the log of check, extraction, check and wanted screenshot with its check determines the result; what was stored is exactly what the last capture stored, referenced or not |
| WorkerReports.ExtractionSettles | internal/browser/worker.go:673-699 | a completed or failed result as the session protocol expects it; completed only after all operations and a last check that found no violation |
| WorkerMeaning.CompletedExtractionChecks | internal/browser/worker.go:665-695 | a completed extraction was checked before and after it and after its screenshot, without a violation |
| WorkerMeaning.ExtractionFailsClosed | internal/browser/worker.go:665-695 | a violation recorded before any operation returned fails the extraction; one recorded before it began is its error, and the page is not read |
| WorkerMeaning.FailedExtractionSaysWhy | internal/browser/worker.go:652-699 | every error of an extraction that failed |
| WorkerMeaning.CompletedExtractionShot | internal/browser/worker.go:680-699 | a completed extraction reports the very screenshot that its last operation stored |
| WorkerReports.VisibleViolationFailsExtraction | internal/browser/worker.go:656-695 | the violation that any check of an extraction finds is its error |
| WorkerReports.ExtractionBalances | internal/browser/worker.go:688-697 | a stored artifact is mentioned by nothing exactly if the third check is reached and finds a violation; it is reached exactly after a stored screenshot |
| WorkerReports.SessionMayLeaveArtifact | internal/browser/worker.go:688-697 | for every configuration and violation, a session written out with its operations, checks and handler steps: it starts, stores a screenshot and fails, and its result refers to nothing |
| Handlers.CollectIDs | cmd/worker/main.go:271-279 | exactly the identifiers the result refers to, in order |
| Handlers.DeleteAll | cmd/worker/main.go:280-286 | every collected artifact is deleted, each deletion finding its artifact |
| Handlers.Leave | cmd/worker/main.go:264-292 | response, deletion, in-flight mark and slot, in this order |
| Handlers.HandleFlowRun | cmd/worker/main.go:222-293 | invalid flows and overload are answered without touching anything; otherwise the outcome of RunFlow, the handler keeps the resource discipline, ends with nothing held, and when it responds has stored exactly what the response refers to |
| Handlers.HandleTask | cmd/worker/main.go:160-217 | the same for a browser task |
| Lifecycle.FoldNested | cmd/worker/main.go:187-210 | browser inside profile inside in-flight mark inside slot, and no artifact outside the in-flight mark, at every point of every handler's script |
| Lifecycle.IssuedAreOpaque | internal/artifacts/store.go:93-106 | whatever a handler was given passes the check of Delete |
| Server.StepKeepsInv | cmd/worker/main.go:187-210 | every event of every handler keeps counters, profiles and store in step with the handlers |
| Server.PoolBounds | cmd/worker/main.go:188-198 | profiles <= in-flight <= slots <= capacity in every interleaving, and releasing a slot never blocks |
| Server.StoreAccounted | cmd/worker/main.go:203-210 | every stored artifact is an initial one or belongs to exactly one handler |
| Server.StoredCanBeDeleted | internal/artifacts/store.go:61-64 | the store's identifier check refuses no artifact that a handler stored |
| Server.ProjectionLeads | cmd/worker/main.go:222-293 | a handler is where its own events lead, whatever the others do |
| Server.InterleavedHandlersRestore | cmd/worker/main.go:270-286 | after any interleaving of handlers that ended, slots and counter are zero, no profile is left, as many were removed as made, and the store has its initial contents |
| Server.ProfileRemovedOnce | internal/browser/replay.go:104-115 | in every interleaving each profile of a handler is removed exactly once, but for one that exists; a removal finds its profile, after its browser is gone and while the slot is held |
| Server.ProfilesAccounted | internal/browser/worker.go:233-237 | over a whole run, profiles made are those removed and those that exist |
| Server.HandlersNeverWait | cmd/worker/main.go:253-262 | a handler's next event is possible exactly unless all slots are taken when it asks for one, or an identifier is not fresh |
| Server.ResponseArtifactsExist | cmd/worker/main.go:270-292 | when a response is written, every artifact it refers to is still in the store |
| Server.ServerState.Perform | cmd/worker/main.go:188-201 | updating slots, counter, profiles and store in place is exactly one step |
| Server.ServerState.Serve | cmd/worker/main.go:253-293 | with others in between, a handler runs its whole script or is turned away at a moment when all slots are taken; it ends holding nothing |
| FlowDocument.ValidateStepIsExact | internal/flows/validate.go:93-138 | validateStep accepts exactly the steps that are well-formed for their type |
| FlowDocument.Validate | internal/flows/validate.go:57-91 | accepts exactly the well-formed flows, ids distinct; otherwise reports what is wrong with the header, else the error of the first offending step |
| FlowDocument.StepErrorIsFirst | internal/flows/validate.go:93-168 | the error of a refused step names the first rule, in the order of the checks, that the step breaks for its type, or is the URL parser's |
| FlowDocument.HeaderErrorIsFirst | internal/flows/validate.go:61-77 | the error of a refused header is that of its first fault |
| FlowDocument.HeaderVerdictIsExact | internal/flows/validate.go:61-77 | the checks before the steps accept exactly the good headers |
| FlowDocument.ValidateSteps | internal/flows/validate.go:79-90 | the loop with its seen set |
| FlowDocument.GoodLocatorNeverEmpty | internal/browser/replay.go:352-364 | a validated locator never renders as the empty selector |
| Selector.EscapeIsOnePass | internal/browser/replay.go:368-372 | the two sequential replacements equal a one-pass escape |
| Selector.SelectorMeaning | internal/browser/replay.go:356-360 | what a CSS parser reads from a printed attribute selector, for every value |
| Selector.LocatorRoundTrip | internal/browser/replay.go:352-364 | parsing a printed id or name locator returns the same name and value if and only if the value has no newline, carriage return, form feed or NUL |
| Extract.ClampMaxTextChars | internal/browser/extract.go:51-59 | default, clamp and identity |
| Extract.TruncateToCodePoints | internal/browser/extract.go:63-75 | the byte loop returns the first n runes |
| Extract.TruncateIsLongestPrefix | internal/browser/extract.go:63-75 | on arbitrary bytes, the longest prefix on a decode boundary with at most n runes; it decodes to the first min(n, count) runes |
| Extract.TruncateKeepsWellFormed | internal/browser/extract.go:61-62 | well-formed text stays well-formed |
| Extract.TruncateTwice | internal/browser/extract.go:63-75 | truncating to a and then b is truncating to min(a, b) |
| Extract.DedupeLinks | internal/browser/extract.go:80-100 | the loop returns the first limit entries of the first occurrences |
| Extract.DedupeKeepsFirstOccurrences | internal/browser/extract.go:77-79 | these are, in document order, exactly the links that are first with their nonempty URL |
| Extract.DedupeTwice | internal/browser/extract.go:80-100 | deduplicating at n and then m is deduplicating at min(n, m) |
| Utf8.DecodeEncode | internal/browser/extract.go:68-73 | Go's rune decoding undoes UTF-8 encoding |
| Utf8.FirstRuneIsExact | internal/browser/extract.go:68-73 | on arbitrary bytes, a string that begins with the encoding of a character decodes to it, any other first byte to U+FFFD alone |
| Bits.MaskMatchMeansInterval | internal/security/url_validator.go:129-133 | prefix membership by masking is interval membership for every width, base and length |
| AddrPolicy.ListedPrefixesAreRanges | internal/security/url_validator.go:86-115 | the list of prefixes is the union of these address ranges |
| AddrPolicy.ClassifiersAddNothing | internal/security/url_validator.go:134-139 | the standard library's predicates add no address |
| AddrPolicy.IsBlockedAddr | internal/security/url_validator.go:125-141 | blocked exactly if invalid or in a listed range |
| AddrPolicy.ValidateAddr | internal/security/url_validator.go:146-155 | the verdict of the address's own family, but that of the embedded IPv4 address for ::ffff:0:0/96 |
| AddrPolicy.IPv4Verdict | internal/security/url_validator.go:86-115 | an IPv4 address is permitted exactly by its bytes |
| AddrPolicy.IPv6Verdict | internal/security/url_validator.go:86-115 | an IPv6 address that is not IPv4-mapped keeps its own verdict, decided by its first group, but for :: and ::1 |
| AddrPolicy.MappedVerdict | internal/security/url_validator.go:147 | an IPv4-mapped address gets its IPv4 verdict |
| AddrPolicy.ResolveAndValidateHost | internal/security/url_validator.go:219-246 | accepted exactly if the name is not forbidden and its literal, or every address of a nonempty answer, is permitted; DNS failure exactly for a failed or empty lookup |
| Artifacts.ValidID | internal/artifacts/store.go:95-106 | accepts exactly the lower-case hexadecimal identifiers of the generated length |
| Artifacts.GeneratedIDsAreOpaque | internal/artifacts/store.go:108-114 | every generated identifier is accepted |
| Artifacts.HexEncodeInjective | internal/artifacts/store.go:108-114 | distinct random bytes give distinct identifiers |
| Artifacts.HexEncodeDigits | internal/artifacts/store.go:108-114 | each byte is written as its two hexadecimal digits |
| Artifacts.Store.Save | internal/artifacts/store.go:41-57 | succeeds exactly within the size limit and when randomness and file system do, adding one entry |
| Artifacts.Store.Delete | internal/artifacts/store.go:61-70 | removes exactly this entry, for exactly the valid identifiers |
| Deadlines.DescendantsStayWithin | internal/browser/replay.go:240-241 | no context derived from a bounded one exceeds its bound |
| Deadlines.DeadlineIsEarliest | internal/browser/replay.go:228-241 | a derived context ends with its own timeout or with its parent, whichever is first |
| Deadlines.TotalTimeBounded | internal/browser/replay.go:88-89 | any number of sequential operations under a common limit takes no longer than the limit |

## Left out

- Chromium, chromedp and CDP calls, process signalling and in-page JavaScript: foreign effects; each operation is a logged, nondeterministic outcome. The content of extracted pages is not represented.
- Real time, timers and goroutine scheduling: an abstract clock and nondeterministic interleaving. The launch of a browser is an outcome, not a logged operation.
- SessionManagement.SessionManager.Shutdown: lets the awaited session move once per round, which stands for a fair scheduler; SessionProgress.ShutdownReturns needs no such rounds.
- SessionManagement.SessionManager.StartInteractive: navigation and its policy check are one outcome here; WorkerRuns.StartInteractive has both, and SessionPolicy.StartIsAllowed joins the two.
- SessionPolicy.ExtractionIsAllowed: an extraction is one step of the session protocol, so a violation recorded while it runs may or may not be found there; WorkerReports.VisibleViolationFailsExtraction says which.
- WorkerRuns.ExtractAfterInteraction: does not claim that stored artifacts are deleted, because the code does not delete them.
- BrowserRuns.BrowserRun.Save: does not tell apart why saving failed (size, randomness, file system), because the callers do not.
- Server.ServerState.Serve: reserves the identifiers of its own script, which stands for the freshness of random identifiers.
- AddrPolicy.IsBlockedAddr: zoned IPv6 addresses, for which the standard library's Contains is always false, are not represented.
- checkInterceptedRequest's scheme exemptions and wss rewriting: part of the destination policy's verdict, which a request carries.
- IsBlockedHostname, NormalizeHost, URL parsing, IDNA and DNS: parameters of the model.
- Message texts that only differ in wording: messages the model tells apart have a constructor.
- HTTP and JSON plumbing, content types, HTTP status mapping, logging, environment parsing, Probe, the MCP tool, Docker and noVNC files: easy members.
- File-system detail of the artifact store: a partially written file and path joining are not represented.
- DebugHold (internal/browser/worker.go:339-346) and the server's drain before Shutdown (cmd/worker/main.go:130-140): waiting only.
