// What the worker's entry points return, judged against the log of the run:
// launches, flow runs, tasks, and the two halves of an interactive session
// (internal/browser/worker.go, replay.go).
module WorkerReports {
  import opened Models
  import opened Utf8
  import opened Deadlines
  import opened Lifecycle
  import opened Interception
  import opened Ledger
  import opened RunReports
  import Sessions = SessionProtocol
  import Doc = FlowDocument

  const MAX_TASK_ID_LENGTH := 128

  datatype TaskRequest = TaskRequest(taskID: string, url: string, maxTextChars: int, capture: bool)

  function ValidateRequest(req: TaskRequest): MaybeError {
    if ByteLength(req.taskID) == 0 || ByteLength(req.taskID) > MAX_TASK_ID_LENGTH then
      Some(BrowserError(InvalidRequest, TaskIDLength))
    else if req.url == "" then Some(BrowserError(InvalidRequest, TaskURLMissing))
    else if req.maxTextChars < 0 then Some(BrowserError(InvalidRequest, NegativeMaxTextChars))
    else None
  }

  function FirstNavigationURL(flow: Doc.Flow): string {
    if flow.startURL != "" then flow.startURL
    else if |flow.steps| > 0 && flow.steps[0].kind.Navigate? then flow.steps[0].url
    else ""
  }

  // ---- Launches ---------------------------------------------------------------------

  // How the launch of a browser ends: creating the profile directory, then the
  // select on start-up, start timer and context.
  datatype LaunchOutcome = ProfileFails | StartFails | TimerFires | ClientLeaves | DeadlinePasses | Starts

  function LaunchError(outcome: LaunchOutcome): MaybeError {
    match outcome
    case ProfileFails => Some(BrowserError(BrowserStartFailed, NoProfileDirectory))
    case StartFails => Some(BrowserError(BrowserStartFailed, ChromiumDidNotStart))
    case TimerFires => Some(BrowserError(BrowserStartFailed, ChromiumStartTimedOut))
    case ClientLeaves => Some(BrowserError(NavigationTimeout, ClientCancelled))
    case DeadlinePasses => Some(BrowserError(TaskTimeout, DeadlineExceeded))
    case Starts => None
  }

  const NO_INTERCEPTION := BrowserError(BrowserStartFailed, InterceptionNotEnabled)

  // A launch on an empty log: interception is enabled exactly if the browser
  // starts, and the launch fails if that does.
  predicate Launched(g: Log, launch: LaunchOutcome, ctx: Context, err: MaybeError) {
    && g.checks == []
    && if LaunchError(launch).Some? then g.ops == [] && err == LaunchError(launch)
       else
         && |g.ops| == 1 && g.ops[0].kind == EnableInterception && g.ops[0].context == ctx
         && err == if g.ops[0].outcome.OpFailed? then Some(NO_INTERCEPTION) else None
  }

  // The browser started and its first operation enabled interception.
  predicate Up(ops: seq<Op>, launch: LaunchOutcome) {
    launch.Starts? && ops != [] && ops[0].kind == EnableInterception && ops[0].outcome.OpDone?
  }

  // ---- Flow runs ----------------------------------------------------------------------

  // A flow run that never got to its steps.
  predicate NotStarted(r: RunResult) {
    r.steps == [] && r.status == Failed && r.error.Some? && r.finalScreenshot.None? && r.finalURL == ""
  }

  // What a flow run returns once it launches: the error of a launch that failed,
  // or the outcome of a replay, whose first operation is the second one.
  predicate FlowOutcome(env: Setting, g: Log, launch: LaunchOutcome, flow: Doc.Flow, r: RunResult, capture: bool) {
    if NotStarted(r) then Launched(g, launch, env.ctx, r.error)
    else Up(g.ops, launch) && ReplayOutcome(env, g, 1, 0, flow, r, capture)
  }

  lemma LaunchFailure(env: Setting, g: Log, launch: LaunchOutcome, flow: Doc.Flow, err: BrowserError, capture: bool)
    requires Launched(g, launch, env.ctx, Some(err))
    ensures FlowOutcome(env, g, launch, flow, FailedRun(err), capture)
  {
  }

  lemma ReplayIsOutcome(env: Setting, g: Log, h: Log, launch: LaunchOutcome, flow: Doc.Flow, r: RunResult,
                        capture: bool)
    requires Launched(g, launch, env.ctx, None) && Grows(g, h) && ReplayOutcome(env, h, 1, 0, flow, r, capture)
    ensures FlowOutcome(env, h, launch, flow, r, capture)
  {
    assert r.steps != [];
  }

  // The destination policy refuses the URL that the flow would visit first.
  predicate DestinationRefused(flow: Doc.Flow, destination: Doc.URLPolicy) {
    FirstNavigationURL(flow) != "" && destination(FirstNavigationURL(flow)).Some?
  }

  // The flow is refused before anything is launched.
  predicate FlowRefused(flow: Doc.Flow, parse: Doc.URLPolicy, destination: Doc.URLPolicy) {
    !Doc.WellFormedFlow(flow, parse) || DestinationRefused(flow, destination)
  }

  // What a flow run returns: the document is judged first, then its destination,
  // then it launches.
  predicate FlowAnswer(env: Setting, g: Log, launch: LaunchOutcome, flow: Doc.Flow, parse: Doc.URLPolicy,
                       destination: Doc.URLPolicy, r: RunResult, capture: bool) {
    if !Doc.WellFormedFlow(flow, parse) then NotStarted(r) && Doc.Refused(flow, parse, r.error)
    else if DestinationRefused(flow, destination) then r == FailedRun(destination(FirstNavigationURL(flow)).value)
    else FlowOutcome(env, g, launch, flow, r, capture)
  }

  // A flow run that completed had blocked no request when its policy was checked
  // for the last time, after its last step's operation and, with a screenshot,
  // after that.
  lemma CompletedRunBlockedNothing(env: Setting, g: Log, launch: LaunchOutcome, flow: Doc.Flow, r: RunResult,
                                   capture: bool, h: Hid)
    requires ValidRun(MAX_REDIRECTS, g.run) && FlowOutcome(env, g, launch, flow, r, capture) && r.status == Completed
    ensures CleanAtLastCheck(g, Unchecked(capture))
    ensures var seen := g.run[..g.checks[LastCheck(g)].steps];
      ValidRun(MAX_REDIRECTS, seen) &&
      var s := After(MAX_REDIRECTS, seen); h in s.handlers ==> !s.handlers[h].pc.Blocked?
  {
    CompletedReplay(env, g, 1, 0, flow, r, capture);
    NothingBlockedBefore(MAX_REDIRECTS, g.run, g.checks[LastCheck(g)].steps, h);
  }

  // The start URL's operation and the operation of every replayed step keep to
  // their own timeouts, the final screenshot to the extraction timeout; all of
  // them keep to the run's deadline.
  predicate FlowKeepsTimeouts(env: Setting, g: Log, flow: Doc.Flow, r: RunResult, capture: bool) {
    && (flow.startURL != "" ==> |g.ops| > 1 && Brief(env, g.ops[1], Doc.DEFAULT_STEP_TIMEOUT_MS))
    && (AllReplayed(env, g, 1, 0, flow, r, capture) ==> StepsBrief(env, g.ops, 1 + Lead(flow), flow.steps, |r.steps|))
    && (r.finalScreenshot.Some? ==> g.ops != [] && Brief(env, g.ops[|g.ops| - 1], env.config.extractionTimeout))
  }

  lemma ReplayKeepsTimeouts(env: Setting, g: Log, flow: Doc.Flow, r: RunResult, capture: bool, limit: Time)
    requires ReplayOutcome(env, g, 1, 0, flow, r, capture) && AllTimely(g.ops, limit)
    ensures FlowKeepsTimeouts(env, g, flow, r, capture)
  {
    if AllReplayed(env, g, 1, 0, flow, r, capture) {
      StepsTimeouts(env, g, flow, r, capture, limit);
    }
    if flow.startURL != "" {
      StartTimeout(env, g, flow, r, capture, limit);
    }
  }

  lemma StartTimeout(env: Setting, g: Log, flow: Doc.Flow, r: RunResult, capture: bool, limit: Time)
    requires ReplayOutcome(env, g, 1, 0, flow, r, capture) && AllTimely(g.ops, limit) && flow.startURL != ""
    ensures |g.ops| > 1 && Brief(env, g.ops[1], Doc.DEFAULT_STEP_TIMEOUT_MS)
  {
    var visited := StepResult(START_URL_ID, Doc.Navigate, Completed, None, None);
    var res := if Opened(env, g, 1, 0, flow) then visited else r.steps[0];
    StartKeepsTimeout(env, g, 1, 0, flow.startURL, res, limit);
  }

  lemma StepsTimeouts(env: Setting, g: Log, flow: Doc.Flow, r: RunResult, capture: bool, limit: Time)
    requires AllReplayed(env, g, 1, 0, flow, r, capture) && AllTimely(g.ops, limit)
    ensures StepsBrief(env, g.ops, 1 + Lead(flow), flow.steps, |r.steps|)
    ensures r.finalScreenshot.Some? ==> g.ops != [] && Brief(env, g.ops[|g.ops| - 1], env.config.extractionTimeout)
  {
    StepsKeepTimeouts(env, g, 1 + Lead(flow), Lead(flow), flow.steps, r.steps, limit);
    if r.finalScreenshot.Some? {
      ShotKeepsTimeout(env, g, 1 + Lead(flow), Lead(flow), flow.steps, r, capture, limit);
    }
  }

  // ---- Checked operations -----------------------------------------------------------------

  // The errors that a failed operation of a certain kind may be reported with.
  type Causes = set<BrowserError>

  // navigationError.
  const NAVIGATION_ERRORS: Causes := {
    BrowserError(NavigationTimeout, ClientCancelled), BrowserError(TaskTimeout, DeadlineExceeded),
    BrowserError(NavigationTimeout, NavigationTimedOut), BrowserError(BlockedDestination, DestinationNotPermitted),
    BrowserError(NavigationTimeout, NavigationFailed) }

  const EXTRACTION_ERROR := BrowserError(ExtractionFailed, PageExtractionFailed)
  const EXTRACTION_ERRORS: Causes := {BrowserError(TaskTimeout, DeadlineExceeded), EXTRACTION_ERROR}

  // Operation n, under its own timeout, and check q right after it: what the check
  // found comes first, then the operation's own error.
  predicate Checked(env: Setting, g: Log, n: nat, q: nat, kind: OpKind, timeout: nat, causes: Causes, err: MaybeError) {
    && CheckedAfter(g, q, n + 1) && g.ops[n].kind == kind && Under(g.ops, n, env.ctx, timeout)
    && (if Visible(g, q).Some? then err == Visible(g, q)
        else if g.ops[n].outcome.OpDone? then err.None?
        else err.Some? && err.value in causes)
  }

  lemma CheckedLater(env: Setting, g: Log, h: Log, n: nat, q: nat, kind: OpKind, timeout: nat, causes: Causes,
                     err: MaybeError)
    requires Grows(g, h) && Checked(env, g, n, q, kind, timeout, causes, err)
    ensures Checked(env, h, n, q, kind, timeout, causes, err)
  {
    CheckStays(g, h, q, n + 1);
  }

  // That was the last thing so far.
  predicate CheckedLast(env: Setting, g: Log, n: nat, q: nat, kind: OpKind, timeout: nat, causes: Causes,
                        err: MaybeError) {
    Checked(env, g, n, q, kind, timeout, causes, err) && Ended(g, n + 1, q + 1)
  }

  predicate Navigated(env: Setting, g: Log, n: nat, q: nat, url: string, err: MaybeError) {
    Checked(env, g, n, q, NavigateTo(url), env.config.navigationTimeout, NAVIGATION_ERRORS, err)
  }

  predicate Extracted(env: Setting, g: Log, n: nat, q: nat, causes: Causes, err: MaybeError) {
    Checked(env, g, n, q, ExtractPage, env.config.extractionTimeout, causes, err)
  }

  // Completed with this screenshot, or failed with this error.
  function Settled(shot: Option<ArtifactId>, err: MaybeError): BrowserResult {
    if err.Some? then FailedResult(err.value) else BrowserResult(Completed, None, shot)
  }

  // ---- Tasks ----------------------------------------------------------------------------------

  // What a task returns once its browser is up, determined by its log from
  // operation n and check q on: visiting the URL failed, or extracting the page
  // did, or nothing or the screenshot ended it.
  predicate Attempted(env: Setting, g: Log, n: nat, q: nat, req: TaskRequest, r: BrowserResult) {
    && r == Settled(r.screenshot, r.error)
    && (|| (r.error.Some? && Navigated(env, g, n, q, req.url, r.error) && Ended(g, n + 1, q + 1))
        || (Navigated(env, g, n, q, req.url, None) && Read(env, g, n + 1, q + 1, req, r)))
  }

  // The part after the visit.
  predicate Read(env: Setting, g: Log, n: nat, q: nat, req: TaskRequest, r: BrowserResult) {
    || (r.error.Some? && Extracted(env, g, n, q, EXTRACTION_ERRORS, r.error) && Ended(g, n + 1, q + 1))
    || (Extracted(env, g, n, q, EXTRACTION_ERRORS, None)
        && if req.capture then ShotOutcome(env, g, n + 1, q + 1, r.screenshot, r.error)
           else Ended(g, n + 1, q + 1) && r.error.None? && r.screenshot.None?)
  }

  // The error of a launch that failed, or the outcome of an attempt, whose first
  // operation is the second one.
  predicate TaskOutcome(env: Setting, g: Log, launch: LaunchOutcome, req: TaskRequest, r: BrowserResult) {
    || (r.error.Some? && r == FailedResult(r.error.value) && Launched(g, launch, env.ctx, r.error))
    || (Up(g.ops, launch) && Attempted(env, g, 1, 0, req, r))
  }

  // What a task returns: the request is judged first, then its destination, then
  // it launches.
  predicate TaskAnswer(env: Setting, g: Log, launch: LaunchOutcome, req: TaskRequest, destination: Doc.URLPolicy,
                       r: BrowserResult) {
    if ValidateRequest(req).Some? then r == FailedResult(ValidateRequest(req).value)
    else if destination(req.url).Some? then r == FailedResult(destination(req.url).value)
    else TaskOutcome(env, g, launch, req, r)
  }

  // A completed task visited and extracted the page and, if asked to, took a
  // screenshot; its last check came after all of that and found no violation.
  lemma CompletedTask(env: Setting, g: Log, n: nat, q: nat, req: TaskRequest, r: BrowserResult)
    requires Attempted(env, g, n, q, req, r) && r.status == Completed
    ensures |g.ops| == n + (if req.capture then 3 else 2) && (req.capture <==> r.screenshot.Some?)
    ensures g.ops[n].kind == NavigateTo(req.url) && g.ops[n].outcome.OpDone?
    ensures g.ops[n + 1].kind == ExtractPage && g.ops[n + 1].outcome.OpDone?
    ensures r.screenshot.Some? ==> g.ops[n + 2].kind == Capture && r.screenshot == Stored(g.ops[n + 2].outcome)
    ensures CleanAtLastCheck(g, 0)
  {
  }

  // The violation that any check of a browser task finds is exactly its error.
  lemma VisibleViolationFailsTask(env: Setting, g: Log, n: nat, q: nat, req: TaskRequest, r: BrowserResult, c: nat)
    requires Attempted(env, g, n, q, req, r) && q <= c < |g.checks| && Visible(g, c).Some?
    requires ChecksInOrder(g.checks, |g.run|)
    ensures r == FailedResult(Visible(g, c).value)
  {
    VisibleStays(g, c, LastCheck(g));
    LastCheckDecidesTask(env, g, n, q, req, r);
  }

  lemma LastCheckDecidesTask(env: Setting, g: Log, n: nat, q: nat, req: TaskRequest, r: BrowserResult)
    requires Attempted(env, g, n, q, req, r) && Visible(g, LastCheck(g)).Some?
    ensures r == FailedResult(Visible(g, LastCheck(g)).value)
  {
  }

  // Fail closed: a task during which a violation was recorded before any of its
  // operations returned has failed.
  lemma TaskFailsClosed(env: Setting, g: Log, n: nat, q: nat, req: TaskRequest, r: BrowserResult, i: nat)
    requires Attempted(env, g, n, q, req, r) && Sequential(g.ops, 0)
    requires i < |g.ops| && g.ops[i].seen <= |g.run| && FirstFailure(g.run[..g.ops[i].seen]).Some?
    ensures r.status == Failed
  {
    if r.status == Completed {
      CompletedTask(env, g, n, q, req, r);
      CheckSeesOperation(g, LastCheck(g), |g.ops|, i);
      assert false;
    }
  }

  // The navigation keeps to the navigation timeout, what follows to the
  // extraction timeout, and all of it to the overall deadline.
  lemma TaskKeepsTimeouts(env: Setting, g: Log, n: nat, q: nat, req: TaskRequest, r: BrowserResult, limit: Time)
    requires Attempted(env, g, n, q, req, r) && AllTimely(g.ops, limit)
    ensures n < |g.ops| && Brief(env, g.ops[n], env.config.navigationTimeout)
    ensures forall i :: n < i < |g.ops| ==> Brief(env, g.ops[i], env.config.extractionTimeout)
  {
    OwnTimeoutHolds(g.ops, n, g.ops[n].context, env.ctx, env.config.navigationTimeout, limit);
    forall i | n < i < |g.ops| ensures Brief(env, g.ops[i], env.config.extractionTimeout) {
      assert Under(g.ops, i, env.ctx, env.config.extractionTimeout);
      OwnTimeoutHolds(g.ops, i, g.ops[i].context, env.ctx, env.config.extractionTimeout, limit);
    }
  }

  // ---- The start of an interactive session ------------------------------------------------------

  const BOOTSTRAP_URL := "about:blank"
  const SHUTTING_DOWN := BrowserError(TaskTimeout, ServiceShuttingDown)

  function SessionURL(url: string): string { if url == "" then BOOTSTRAP_URL else url }

  // The context ends before the browser is up; a session's does so only with the service.
  predicate ContextEnds(launch: LaunchOutcome) { launch.ClientLeaves? || launch.DeadlinePasses? }

  // A URL given by the caller is refused before anything is launched.
  function SessionRefusal(url: string, destination: Doc.URLPolicy): MaybeError {
    if url == "" then None else destination(url)
  }

  // The session's launch failed.
  predicate SessionNotLaunched(env: Setting, g: Log, launch: LaunchOutcome, err: MaybeError) {
    if ContextEnds(launch) then Launched(g, launch, env.ctx, LaunchError(launch)) && err == Some(SHUTTING_DOWN)
    else err.Some? && Launched(g, launch, env.ctx, err)
  }

  // How the start of a session ends; None hands a browser to the session.
  predicate SessionStart(env: Setting, g: Log, launch: LaunchOutcome, url: string, destination: Doc.URLPolicy,
                         err: MaybeError) {
    if SessionRefusal(url, destination).Some? then Ended(g, 0, 0) && err == SessionRefusal(url, destination)
    else
      || SessionNotLaunched(env, g, launch, err)
      || (Up(g.ops, launch) && Navigated(env, g, 1, 0, SessionURL(url), err) && Ended(g, 2, 1))
  }

  // A session starts exactly if its URL was accepted, the browser came up, the
  // page was opened and no violation had been recorded by then; a violation that
  // the check after the navigation finds is the error, whatever else happened.
  lemma SessionStartsExactly(env: Setting, g: Log, launch: LaunchOutcome, url: string, destination: Doc.URLPolicy,
                             err: MaybeError)
    requires SessionStart(env, g, launch, url, destination, err)
    ensures err.None? <==>
      && SessionRefusal(url, destination).None? && Up(g.ops, launch) && |g.ops| == 2
      && g.ops[1].kind == NavigateTo(SessionURL(url)) && g.ops[1].outcome.OpDone? && Visible(g, 0).None?
    ensures Visible(g, 0).Some? ==> err == Visible(g, 0)
    ensures |g.ops| == 2 ==> CheckedAfter(g, 0, 2)
  {
  }

  // ---- The end of an interactive session ----------------------------------------------------------

  // What extractAfterInteraction returns, determined by its log from operation n
  // and check q on; stored is the artifact it stored, if any. Its checks come
  // before the extraction, after it, and after a stored screenshot.
  predicate Extraction(env: Setting, g: Log, n: nat, q: nat, capture: bool, r: BrowserResult,
                       stored: Option<ArtifactId>) {
    && CheckedAfter(g, q, n)
    && (if Visible(g, q).Some? then Ended(g, n, q + 1) && r == FailedResult(Visible(g, q).value) && stored.None?
        else
          || (r.error.Some? && r == FailedResult(r.error.value) && stored.None?
              && Extracted(env, g, n, q + 1, {EXTRACTION_ERROR}, r.error) && Ended(g, n + 1, q + 2))
          || (Extracted(env, g, n, q + 1, {EXTRACTION_ERROR}, None)
              && if capture then SessionShot(env, g, n + 1, q + 2, r, stored)
                 else Ended(g, n + 1, q + 2) && r == BrowserResult(Completed, None, None) && stored.None?))
  }

  // The screenshot is operation n; one that was stored is followed by check q,
  // which decides whether the result refers to it.
  predicate SessionShot(env: Setting, g: Log, n: nat, q: nat, r: BrowserResult, stored: Option<ArtifactId>) {
    if stored.None? then
      r.error.Some? && r == FailedResult(r.error.value) && |g.checks| == q && ShotTaken(env, g.ops, n, None, r.error)
    else
      && ShotTaken(env, g.ops, n, stored, None) && |g.checks| == q + 1 && CheckedAfter(g, q, n + 1)
      && r == Settled(stored, Visible(g, q))
  }

  lemma ExtractionWithoutShot(env: Setting, g: Log, h: Log, n: nat, q: nat, capture: bool, err: MaybeError)
    requires CheckedAfter(g, q, n) && Visible(g, q).None? && Grows(g, h) && (err.Some? || !capture)
    requires Extracted(env, h, n, q + 1, {EXTRACTION_ERROR}, err) && Ended(h, n + 1, q + 2)
    ensures Extraction(env, h, n, q, capture, Settled(None, err), None)
  {
    CheckStays(g, h, q, n);
  }

  lemma ExtractionWithShot(env: Setting, f: Log, g: Log, h: Log, n: nat, q: nat, r: BrowserResult,
                           stored: Option<ArtifactId>)
    requires CheckedAfter(f, q, n) && Visible(f, q).None? && Grows(f, g) && Grows(g, h)
    requires Extracted(env, g, n, q + 1, {EXTRACTION_ERROR}, None) && SessionShot(env, h, n + 1, q + 2, r, stored)
    ensures Extraction(env, h, n, q, true, r, stored)
  {
    CheckStays(f, g, q, n);
    CheckStays(g, h, q, n);
    CheckedLater(env, g, h, n, q + 1, ExtractPage, env.config.extractionTimeout, {EXTRACTION_ERROR}, None);
  }

  // An extraction completed or failed with an error; it completed only if no
  // check found a violation, the last one after its last operation.
  lemma ExtractionSettles(env: Setting, g: Log, n: nat, q: nat, capture: bool, r: BrowserResult,
                          stored: Option<ArtifactId>)
    requires Extraction(env, g, n, q, capture, r, stored)
    ensures Sessions.WellFormedResult(r)
    ensures r.status == Completed ==>
      && CleanAtLastCheck(g, 0)
      && |g.ops| == n + (if capture then 2 else 1) && r.screenshot == stored && (capture <==> stored.Some?)
  {
  }

  lemma LastCheckDecidesExtraction(env: Setting, g: Log, n: nat, q: nat, capture: bool, r: BrowserResult,
                                   stored: Option<ArtifactId>)
    requires Extraction(env, g, n, q, capture, r, stored) && Visible(g, LastCheck(g)).Some?
    ensures r == FailedResult(Visible(g, LastCheck(g)).value)
  {
  }

  // A violation recorded before the extraction begins, or found by any check of
  // it, is exactly the error that the session fails with.
  lemma VisibleViolationFailsExtraction(env: Setting, g: Log, n: nat, q: nat, capture: bool, r: BrowserResult,
                                        stored: Option<ArtifactId>, c: nat)
    requires Extraction(env, g, n, q, capture, r, stored) && q <= c < |g.checks| && Visible(g, c).Some?
    requires ChecksInOrder(g.checks, |g.run|)
    ensures r == FailedResult(Visible(g, c).value)
  {
    VisibleStays(g, c, LastCheck(g));
    LastCheckDecidesExtraction(env, g, n, q, capture, r, stored);
  }

  // Unlike the others an extraction never deletes: what it stored is left behind,
  // mentioned by nothing, exactly if its third check finds a violation. That check
  // is reached exactly after a stored screenshot.
  lemma ExtractionBalances(env: Setting, g: Log, n: nat, q: nat, capture: bool, r: BrowserResult,
                           stored: Option<ArtifactId>, l: Local, m: Local)
    requires Extraction(env, g, n, q, capture, r, stored) && Gained(l, m, OptionSeq(stored)) && l.live <= l.issued
    ensures !Kept(l, m, OptionSeq(r.screenshot)) <==> |g.checks| == q + 3 && Visible(g, q + 2).Some?
    ensures |g.checks| == q + 3 <==>
      && capture && Visible(g, q).None? && Extracted(env, g, n, q + 1, {EXTRACTION_ERROR}, None)
      && |g.ops| == n + 2 && Stored(g.ops[n + 1].outcome).Some?
  {
    LeftBehind(l, m, stored, r.screenshot);
  }

  // A context of an operation's own, derived at time 0.
  function AtOnce(env: Setting, timeout: nat): Context { WithTimeout(env.ctx, 0, timeout) }

  // A session whose start went well and whose page has a request refused while the
  // screenshot at its end is taken. Everything happens at time 0.
  function LateShot(env: Setting, id: ArtifactId, err: BrowserError): Log {
    var done := OpDone("", None);
    Log([Op(EnableInterception, env.ctx, 0, 0, done, 0),
         Op(NavigateTo(BOOTSTRAP_URL), AtOnce(env, env.config.navigationTimeout), 0, 0, done, 0),
         Op(ExtractPage, AtOnce(env, env.config.extractionTimeout), 0, 0, done, 0),
         Op(Capture, AtOnce(env, env.config.extractionTimeout), 0, 0, OpDone("", Some(id)), 3)],
        [PolicyCheck(2, 0), PolicyCheck(2, 0), PolicyCheck(3, 0), PolicyCheck(4, 3)],
        Refusal(0, err))
  }

  function LogStart(g: Log, n: nat, q: nat): Log
    requires n <= |g.ops| && q <= |g.checks|
  {
    Log(g.ops[..n], g.checks[..q], [])
  }

  // For every worker that has a store, and whatever the violation: the session
  // starts, its extraction fails with the violation, and the screenshot stays in
  // the store although the result does not mention it.
  lemma SessionMayLeaveArtifact(env: Setting, l: Local, id: ArtifactId, err: BrowserError, destination: Doc.URLPolicy)
    requires l.live <= l.issued && id !in l.issued && env.store
    ensures var g := LateShot(env, id, err);
      && WellLogged(g) && SessionStart(env, LogStart(g, 2, 1), Starts, "", destination, None)
      && Extraction(env, g, 2, 1, true, FailedResult(err), Some(id))
    ensures Gained(l, Storing(l, Some(id)), [id])
    ensures !Kept(l, Storing(l, Some(id)), OptionSeq(FailedResult(err).screenshot))
  {
    LateShotStarts(env, id, err, destination);
    LateShotExtracts(env, id, err);
    GainOne(l, Storing(l, Some(id)), Some(id));
    LeftBehind(l, Storing(l, Some(id)), Some(id), None);
  }

  lemma LateShotStarts(env: Setting, id: ArtifactId, err: BrowserError, destination: Doc.URLPolicy)
    ensures SessionStart(env, LogStart(LateShot(env, id, err), 2, 1), Starts, "", destination, None)
  {
    var g := LogStart(LateShot(env, id, err), 2, 1);
    assert g.run[..0] == [];
    assert Navigated(env, g, 1, 0, BOOTSTRAP_URL, None);
  }

  lemma LateShotExtracts(env: Setting, id: ArtifactId, err: BrowserError)
    requires env.store
    ensures WellLogged(LateShot(env, id, err))
    ensures Extraction(env, LateShot(env, id, err), 2, 1, true, FailedResult(err), Some(id))
  {
    RefusalIsValid(err);
    var g := LateShot(env, id, err);
    assert g.run[..3] == g.run && g.run[..0] == [];
    assert Extracted(env, g, 2, 2, {EXTRACTION_ERROR}, None);
    assert SessionShot(env, g, 3, 3, FailedResult(err), Some(id));
  }

  lemma RefusalIsValid(err: BrowserError)
    ensures ValidRun(MAX_REDIRECTS, Refusal(0, err)) && FirstFailure(Refusal(0, err)) == Some(err)
  {
    RefusalFollows(MAX_REDIRECTS, [], 0, err);
    assert [] + Refusal(0, err) == Refusal(0, err);
  }

  // ---- A violation that a flow run never sees -----------------------------------------------

  // One assert_url step.
  function AssertFlow(url: string): Doc.Flow {
    Doc.Flow(Doc.SUPPORTED_VERSION, "f", "", [Doc.Step("s", Doc.AssertURL, None, url, "", 0)])
  }

  // The page is where it should be, and has a request refused while the final URL
  // is read.
  function LateRead(env: Setting, url: string, err: BrowserError): Log {
    Log([Op(EnableInterception, env.ctx, 0, 0, OpDone("", None), 0),
         Op(ReadLocation, AtOnce(env, Doc.DEFAULT_STEP_TIMEOUT_MS), 0, 0, OpDone(url, None), 0),
         Op(ReadLocation, AtOnce(env, env.config.extractionTimeout), 0, 0, OpDone(url, None), 3)],
        [PolicyCheck(2, 0), PolicyCheck(2, 0)],
        Refusal(0, err))
  }

  function AssertResult(url: string): RunResult {
    RunResult(Completed, url, [StepResult("s", Doc.AssertURL, Completed, None, None)], None, None)
  }

  // For every worker, every URL that a flow may ask for and every violation: the
  // run completes although the violation was recorded before its last operation
  // returned.
  lemma CompletedDespiteViolation(env: Setting, url: string, err: BrowserError, parse: Doc.URLPolicy)
    requires Doc.LengthWithin(url, 1, Doc.MAX_URL_LENGTH)
    ensures Doc.WellFormedFlow(AssertFlow(url), parse)
    ensures var g, r := LateRead(env, url, err), AssertResult(url);
      && WellLogged(g) && FlowOutcome(env, g, Starts, AssertFlow(url), r, false) && r.status == Completed
      && FirstFailure(g.run[..g.ops[2].seen]) == Some(err)
  {
    LateReadCompletes(env, url, err);
    LateReadIsWellLogged(env, url, err);
    AssertFlowIsWellFormed(url, parse);
  }

  lemma LateReadCompletes(env: Setting, url: string, err: BrowserError)
    ensures FlowOutcome(env, LateRead(env, url, err), Starts, AssertFlow(url), AssertResult(url), false)
  {
    var g, r := LateRead(env, url, err), AssertResult(url);
    assert g.run[..0] == [];
    assert Executed(env, g, 1, 0, AssertFlow(url).steps[0], r.steps[0]);
    ReplayedOutcome(env, g, 1, 0, AssertFlow(url), r, false);
  }

  lemma LateReadIsWellLogged(env: Setting, url: string, err: BrowserError)
    ensures var g := LateRead(env, url, err); WellLogged(g) && FirstFailure(g.run[..g.ops[2].seen]) == Some(err)
  {
    RefusalIsValid(err);
    var g := LateRead(env, url, err);
    assert g.run[..3] == g.run;
  }

  lemma AssertFlowIsWellFormed(url: string, parse: Doc.URLPolicy)
    requires Doc.LengthWithin(url, 1, Doc.MAX_URL_LENGTH)
    ensures Doc.WellFormedFlow(AssertFlow(url), parse)
  {
  }
}
