// What the worker's answers mean for a caller: which URLs were visited and which
// refused, which errors stand for what (internal/browser/worker.go, replay.go).
module WorkerMeaning {
  import opened Models
  import opened Utf8
  import opened Deadlines
  import opened RunReports
  import opened WorkerReports
  import opened Interception
  import opened ReplayMeaning
  import Doc = FlowDocument

  // ---- Launches -----------------------------------------------------------------------

  // Why a launch failed; nothing but the end of the context is the client's or the
  // clock's doing.
  predicate LaunchFailedFor(g: Log, launch: LaunchOutcome, err: BrowserError) {
    match launch
    case ProfileFails => err.code == BrowserStartFailed && err.message == NoProfileDirectory
    case StartFails => err.code == BrowserStartFailed && err.message == ChromiumDidNotStart
    case TimerFires => err.code == BrowserStartFailed && err.message == ChromiumStartTimedOut
    case ClientLeaves => err.code == NavigationTimeout && err.message == ClientCancelled
    case DeadlinePasses => err.code == TaskTimeout && err.message == DeadlineExceeded
    case Starts =>
      && err.code == BrowserStartFailed && err.message == InterceptionNotEnabled
      && |g.ops| == 1 && g.ops[0].kind.EnableInterception? && g.ops[0].outcome.OpFailed?
  }

  lemma LaunchErrorsMean(g: Log, launch: LaunchOutcome, ctx: Context, err: MaybeError)
    requires Launched(g, launch, ctx, err)
    ensures if err.Some? then LaunchFailedFor(g, launch, err.value)
      else launch.Starts? && |g.ops| == 1 && g.ops[0].kind.EnableInterception? && g.ops[0].outcome.OpDone?
    ensures g.ops != [] <==> launch.Starts?
  {
  }

  // ---- Flow runs -----------------------------------------------------------------------

  // The flow navigates to this URL before anything else.
  predicate VisitsFirst(flow: Doc.Flow, url: string) {
    if flow.startURL != "" then url == flow.startURL
    else flow.steps != [] && flow.steps[0].kind.Navigate? && url == flow.steps[0].url
  }

  lemma FirstNavigationIsFirst(flow: Doc.Flow, url: string, parse: Doc.URLPolicy)
    requires Doc.WellFormedFlow(flow, parse)
    ensures VisitsFirst(flow, url) <==> url != "" && FirstNavigationURL(flow) == url
  {
    if flow.steps[0].kind.Navigate? {
      Doc.EmptyText(flow.steps[0].url);
    }
  }

  // The URL that a started flow visits first is the one its log shows first.
  lemma FirstOperation(env: Setting, g: Log, launch: LaunchOutcome, flow: Doc.Flow, r: RunResult, capture: bool,
                       url: string)
    requires FlowOutcome(env, g, launch, flow, r, capture) && !NotStarted(r) && VisitsFirst(flow, url)
    ensures |g.ops| > 1 && g.ops[1].kind.NavigateTo? && g.ops[1].kind.url == url
  {
    if flow.startURL == "" {
      assert Executed(env, g, 1 + 0, 0 + 0, flow.steps[0], r.steps[0]);
    }
  }

  // A flow that does not begin with a navigation does not navigate first.
  lemma OtherFirstOperation(env: Setting, g: Log, launch: LaunchOutcome, flow: Doc.Flow, r: RunResult, capture: bool,
                            parse: Doc.URLPolicy)
    requires FlowOutcome(env, g, launch, flow, r, capture) && !NotStarted(r) && Doc.WellFormedFlow(flow, parse)
    requires flow.startURL == "" && !flow.steps[0].kind.Navigate?
    ensures |g.ops| > 1 ==> !g.ops[1].kind.NavigateTo?
  {
    assert Executed(env, g, 1 + 0, 0 + 0, flow.steps[0], r.steps[0]);
    if Attempts(env, flow.steps[0]) == 0 {
      NoOperationNoVisit(env, g, flow.steps, r, capture);
    }
  }

  lemma NoOperationNoVisit(env: Setting, g: Log, steps: seq<Doc.Step>, r: RunResult, capture: bool)
    requires StepsOutcome(env, g, 1, 0, steps, r, capture) && Attempts(env, steps[0]) == 0 && !steps[0].kind.Unknown?
    ensures |g.ops| > 1 ==> !g.ops[1].kind.NavigateTo?
  {
    assert Executed(env, g, 1 + 0, 0 + 0, steps[0], r.steps[0]);
    assert |r.steps| == 1;
  }

  // Nothing is visited first that the destination policy does not accept.
  lemma FirstVisitWasAccepted(env: Setting, g: Log, launch: LaunchOutcome, flow: Doc.Flow, parse: Doc.URLPolicy,
                              destination: Doc.URLPolicy, r: RunResult, capture: bool)
    requires FlowAnswer(env, g, launch, flow, parse, destination, r, capture) && Doc.WellFormedFlow(flow, parse)
    requires FlowRefused(flow, parse, destination) ==> g.ops == []
    ensures |g.ops| > 1 && g.ops[1].kind.NavigateTo? ==> destination(g.ops[1].kind.url).None?
  {
    if |g.ops| > 1 {
      if flow.startURL == "" && !flow.steps[0].kind.Navigate? {
        OtherFirstOperation(env, g, launch, flow, r, capture, parse);
      } else {
        var url := if flow.startURL != "" then flow.startURL else flow.steps[0].url;
        FirstNavigationIsFirst(flow, url, parse);
        FirstOperation(env, g, launch, flow, r, capture, url);
      }
    }
  }

  // A well-formed flow is refused before the launch exactly if it visits first a URL
  // that the policy refuses, and with the policy's error.
  lemma RefusalMeans(env: Setting, g: Log, launch: LaunchOutcome, flow: Doc.Flow, parse: Doc.URLPolicy,
                     destination: Doc.URLPolicy, r: RunResult, capture: bool, url: string)
    requires FlowAnswer(env, g, launch, flow, parse, destination, r, capture) && Doc.WellFormedFlow(flow, parse)
    ensures VisitsFirst(flow, url) ==> (FlowRefused(flow, parse, destination) <==> destination(url).Some?)
    ensures VisitsFirst(flow, url) && destination(url).Some? ==> r == RunResult(Failed, "", [], None, destination(url))
    ensures FlowRefused(flow, parse, destination) ==> exists u :: VisitsFirst(flow, u)
  {
    FirstNavigationIsFirst(flow, url, parse);
    if FlowRefused(flow, parse, destination) {
      FirstNavigationIsFirst(flow, FirstNavigationURL(flow), parse);
    }
  }

  // ---- Tasks -----------------------------------------------------------------------------

  predicate ValidRequest(req: TaskRequest) {
    1 <= |Encode(req.taskID)| <= 128 && req.url != "" && req.maxTextChars >= 0
  }

  // What is wrong with a request; the identifier comes first, then the URL.
  predicate InvalidFor(req: TaskRequest, err: BrowserError) {
    && err.code == InvalidRequest
    && match err.message
       case TaskIDLength => !(1 <= |Encode(req.taskID)| <= 128)
       case TaskURLMissing => 1 <= |Encode(req.taskID)| <= 128 && req.url == ""
       case NegativeMaxTextChars => 1 <= |Encode(req.taskID)| <= 128 && req.url != "" && req.maxTextChars < 0
       case _ => false
  }

  // An invalid request is answered with what is wrong with it; nothing is launched
  // for it or for a refused destination.
  lemma TaskRefusalMeans(env: Setting, g: Log, launch: LaunchOutcome, req: TaskRequest, destination: Doc.URLPolicy,
                         r: BrowserResult)
    requires TaskAnswer(env, g, launch, req, destination, r)
    requires ValidateRequest(req).Some? || destination(req.url).Some? ==> g.ops == []
    ensures !ValidRequest(req) ==> r.status == Failed && r.error.Some? && InvalidFor(req, r.error.value)
    ensures ValidRequest(req) && destination(req.url).Some? ==> r == BrowserResult(Failed, destination(req.url), None)
    ensures g.ops != [] ==> ValidRequest(req) && destination(req.url).None?
  {
  }

  // Why a task whose browser was up has failed.
  predicate TaskFailedFor(env: Setting, g: Log, n: nat, err: BrowserError) {
    || Visible(g, LastCheck(g)) == Some(err)
    || (|g.ops| == n + 1 && g.ops[n].kind.NavigateTo? && g.ops[n].outcome.OpFailed?
        && (err.code == NavigationTimeout || err.code == TaskTimeout || err.code == BlockedDestination))
    || (|g.ops| == n + 2 && g.ops[n + 1].kind.ExtractPage? && g.ops[n + 1].outcome.OpFailed?
        && (err.code == TaskTimeout || err.code == ExtractionFailed))
    || (!env.store && err == BrowserError(ScreenshotFailed, NoArtifactStorage))
    || (|g.ops| == n + 3 && g.ops[n + 2].kind.Capture? && err.code == ScreenshotFailed
        && if g.ops[n + 2].outcome.OpFailed? then err.message == CaptureFailed
           else g.ops[n + 2].outcome.identifier.None? && err.message == StoreFailed)
  }

  lemma FailedTaskSaysWhy(env: Setting, g: Log, n: nat, q: nat, req: TaskRequest, r: BrowserResult)
    requires Attempted(env, g, n, q, req, r) && r.status != Completed
    ensures r.status == Failed && r.error.Some? && r.screenshot.None? && TaskFailedFor(env, g, n, r.error.value)
  {
  }

  // A completed task reports the very screenshot that its last operation stored.
  lemma CompletedTaskShot(env: Setting, g: Log, n: nat, q: nat, req: TaskRequest, r: BrowserResult)
    requires Attempted(env, g, n, q, req, r) && r.status == Completed
    ensures r.error.None? && if req.capture then
        && |g.ops| == n + 3 && g.ops[n + 2].outcome.OpDone? && r.screenshot.Some?
        && r.screenshot == g.ops[n + 2].outcome.identifier
      else r.screenshot.None?
  {
  }

  // A completed task was checked after each of its operations, and no check found
  // anything.
  lemma CompletedTaskChecks(env: Setting, g: Log, n: nat, q: nat, req: TaskRequest, r: BrowserResult)
    requires Attempted(env, g, n, q, req, r) && r.status == Completed
    ensures |g.checks| == q + (if req.capture then 3 else 2) && |g.ops| == n + (if req.capture then 3 else 2)
    ensures CleanCheck(g, q, n + 1) && CleanCheck(g, q + 1, n + 2) && (req.capture ==> CleanCheck(g, q + 2, n + 3))
  {
  }

  // Nothing follows the operation during which a task's violation was recorded.
  lemma TaskStopsAtViolation(env: Setting, g: Log, n: nat, q: nat, req: TaskRequest, r: BrowserResult, i: nat)
    requires Attempted(env, g, n, q, req, r) && Sequential(g.ops, 0) && n <= i < |g.ops| && g.ops[i].seen <= |g.run|
    requires FirstFailure(g.run[..g.ops[i].seen]).Some?
    ensures r.status == Failed && |g.ops| == i + 1
  {
    TaskFailsClosed(env, g, n, q, req, r, i);
    if i == n {
      CheckSeesOperation(g, q, n + 1, i);
    } else if i == n + 1 {
      CheckSeesOperation(g, q + 1, n + 2, i);
    }
  }

  // ---- Sessions --------------------------------------------------------------------------

  // A session opens the URL it was given, which the policy has accepted, or a blank
  // page if it was given none.
  lemma SessionOpens(env: Setting, g: Log, launch: LaunchOutcome, url: string, destination: Doc.URLPolicy,
                     err: MaybeError)
    requires SessionStart(env, g, launch, url, destination, err)
    ensures |g.ops| > 1 ==>
      && g.ops[1].kind.NavigateTo? && g.ops[1].kind.url == (if url != "" then url else "about:blank")
      && (url != "" ==> destination(url).None?)
    ensures url != "" && destination(url).Some? ==> g.ops == [] && err == destination(url)
  {
  }

  // Why a session did not start.
  predicate StartFailedFor(g: Log, launch: LaunchOutcome, url: string, destination: Doc.URLPolicy, err: BrowserError) {
    || (url != "" && g.ops == [] && destination(url) == Some(err))
    || ((launch.ClientLeaves? || launch.DeadlinePasses?) && g.ops == [] && err.code == TaskTimeout
        && err.message == ServiceShuttingDown)
    || (!launch.ClientLeaves? && !launch.DeadlinePasses? && LaunchFailedFor(g, launch, err))
    || (|g.ops| == 2 && Visible(g, 0) == Some(err))
    || (|g.ops| == 2 && Visible(g, 0).None? && g.ops[1].outcome.OpFailed?
        && (err.code == NavigationTimeout || err.code == TaskTimeout || err.code == BlockedDestination))
  }

  lemma FailedStartSaysWhy(env: Setting, g: Log, launch: LaunchOutcome, url: string, destination: Doc.URLPolicy,
                           err: BrowserError)
    requires SessionStart(env, g, launch, url, destination, Some(err))
    ensures StartFailedFor(g, launch, url, destination, err)
  {
    if SessionNotLaunched(env, g, launch, Some(err)) && !ContextEnds(launch) {
      LaunchErrorsMean(g, launch, env.ctx, Some(err));
    }
  }

  // Why an extraction failed.
  predicate ExtractionFailedFor(env: Setting, g: Log, n: nat, err: BrowserError) {
    || Visible(g, LastCheck(g)) == Some(err)
    || (|g.ops| == n + 1 && g.ops[n].kind.ExtractPage? && g.ops[n].outcome.OpFailed? && err.code == ExtractionFailed)
    || (!env.store && err == BrowserError(ScreenshotFailed, NoArtifactStorage))
    || (|g.ops| == n + 2 && g.ops[n + 1].kind.Capture? && err.code == ScreenshotFailed
        && if g.ops[n + 1].outcome.OpFailed? then err.message == CaptureFailed
           else g.ops[n + 1].outcome.identifier.None? && err.message == StoreFailed)
  }

  lemma FailedExtractionSaysWhy(env: Setting, g: Log, n: nat, q: nat, capture: bool, r: BrowserResult,
                                stored: Option<ArtifactId>)
    requires Extraction(env, g, n, q, capture, r, stored) && r.status != Completed
    ensures r.status == Failed && r.error.Some? && r.screenshot.None? && ExtractionFailedFor(env, g, n, r.error.value)
  {
  }

  // A completed extraction reports the very screenshot that its last operation stored.
  lemma CompletedExtractionShot(env: Setting, g: Log, n: nat, q: nat, capture: bool, r: BrowserResult,
                                stored: Option<ArtifactId>)
    requires Extraction(env, g, n, q, capture, r, stored) && r.status == Completed
    ensures |g.ops| > n && g.ops[n].kind.ExtractPage? && g.ops[n].outcome.OpDone?
    ensures if capture then
        && |g.ops| == n + 2 && g.ops[n + 1].kind.Capture? && g.ops[n + 1].outcome.OpDone?
        && r.screenshot.Some? && r.screenshot == g.ops[n + 1].outcome.identifier
      else r.screenshot.None? && |g.ops| == n + 1
  {
  }

  // A completed extraction was checked before and after it, and after its screenshot.
  lemma CompletedExtractionChecks(env: Setting, g: Log, n: nat, q: nat, capture: bool, r: BrowserResult,
                                  stored: Option<ArtifactId>)
    requires Extraction(env, g, n, q, capture, r, stored) && r.status == Completed
    ensures |g.checks| == q + (if capture then 3 else 2)
    ensures CleanCheck(g, q, n) && CleanCheck(g, q + 1, n + 1) && (capture ==> CleanCheck(g, q + 2, n + 2))
  {
  }

  // A session with a violation recorded before any of its operations returned fails;
  // if that was before the extraction began, the page is not read any more.
  lemma ExtractionFailsClosed(env: Setting, g: Log, n: nat, q: nat, capture: bool, r: BrowserResult,
                              stored: Option<ArtifactId>, i: nat)
    requires Extraction(env, g, n, q, capture, r, stored) && Sequential(g.ops, 0)
    requires i < |g.ops| && g.ops[i].seen <= |g.run| && FirstFailure(g.run[..g.ops[i].seen]).Some?
    ensures r.status == Failed && (i < n ==> |g.ops| == n && r.error == FirstFailure(g.run[..g.ops[i].seen]))
  {
    if i < n {
      CheckSeesOperation(g, q, n, i);
    } else if i == n {
      CheckSeesOperation(g, q + 1, n + 1, i);
    } else if r.status == Completed {
      CheckSeesOperation(g, q + 2, n + 2, i);
    }
  }
}
