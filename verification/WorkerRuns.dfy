// The worker's entry points: run and RunFlow, which launch a browser of their
// own, and the two halves of an interactive session (internal/browser/worker.go,
// replay.go). Everything foreign is a parameter or a nondeterministic outcome.
module WorkerRuns {
  import opened Models
  import opened Deadlines
  import opened Lifecycle
  import opened Ledger
  import opened BrowserRuns
  import opened RunReports
  import opened WorkerReports
  import opened WorkerMeaning
  import Interception
  import Doc = FlowDocument

  // A run on which nothing has been done in the browser.
  ghost predicate Fresh(run: BrowserRun)
    reads run.Footprint()
  {
    run.Valid() && run.Past() == Log([], [], []) && run.unsupported == 0 && run.now == run.began
  }

  // A run that has only its slot and its in-flight mark.
  ghost predicate Unstarted(run: BrowserRun)
    reads run.Footprint()
  {
    Fresh(run) && run.local.inFlight && !run.local.profile && !run.local.browser
  }

  // The launch shared by run, runFlow and startInteractive: profile directory,
  // browser, request interception. made says whether a profile exists.
  method StartBrowser(run: BrowserRun, ctx: Context, launch: LaunchOutcome) returns (made: bool, err: MaybeError)
    requires Unstarted(run)
    modifies run.Footprint()
    ensures run.Valid() && run.Advances()
    ensures run.local == old(run.local).(profile := made, browser := run.local.browser)
    ensures made <==> !launch.ProfileFails?
    ensures !made ==> !run.local.browser && run.script == old(run.script)
    ensures err.None? ==> made && run.local.browser
    ensures Launched(run.Past(), launch, ctx, err)
    ensures HasDeadline(ctx) ==> run.OpsWithin(0, Deadline(ctx))
  {
    err := LaunchError(launch);
    if launch.ProfileFails? {
      return false, err;
    }
    made := true;
    run.Emit(ProfileMade);
    run.Emit(BrowserLaunched);
    if launch.TimerFires? || ContextEnds(launch) {
      run.Emit(BrowserCancelled); // the deferred block cancels once more
    }
    if err.None? {
      err := EnableRequests(run, ctx);
    }
  }

  // fetch.Enable on the browser's own context.
  method EnableRequests(run: BrowserRun, ctx: Context) returns (err: MaybeError)
    requires run.Valid() && run.Past() == Log([], [], [])
    modifies run.Footprint()
    ensures run.Valid() && run.Advances() && run.local == old(run.local)
    ensures Launched(run.Past(), Starts, ctx, err)
    ensures HasDeadline(ctx) ==> run.OpsWithin(0, Deadline(ctx))
  {
    var outcome := run.RunOp(EnableInterception, ctx);
    err := if outcome.OpFailed? then Some(NO_INTERCEPTION) else None;
  }

  // The deferred blocks: the browser is cancelled, then its profile removed.
  method TearDown(run: BrowserRun)
    requires run.Valid() && run.local.profile
    modifies run`script, run`local
    ensures run.Valid() && run.local == old(run.local).(profile := false, browser := false)
    ensures run.script == old(run.script) + [BrowserCancelled, ProfileRemoved]
  {
    run.Emit(BrowserCancelled);
    run.Emit(ProfileRemoved);
  }

  // A launch that fails takes back whatever it made.
  method Launch(run: BrowserRun, ctx: Context, launch: LaunchOutcome) returns (err: MaybeError)
    requires Unstarted(run)
    modifies run.Footprint()
    ensures run.Valid() && run.Advances()
    ensures run.local == if err.None? then old(run.local).(profile := true, browser := true) else old(run.local)
    ensures Launched(run.Past(), launch, ctx, err)
    ensures HasDeadline(ctx) ==> run.OpsWithin(0, Deadline(ctx))
  {
    var made: bool;
    made, err := StartBrowser(run, ctx, launch);
    if made && err.Some? {
      TearDown(run);
    }
  }

  // The deferred blocks at the end of a run that kept what ids lists.
  method Close(run: BrowserRun, ghost start: Local, ghost ids: seq<ArtifactId>)
    requires run.Valid() && run.local.browser && !start.profile && !start.browser
    requires Kept(start.(profile := true, browser := true), run.local, ids)
    modifies run`script, run`local
    ensures run.Valid() && Kept(start, run.local, ids)
  {
    ghost var before := run.local;
    TearDown(run);
    KeptAcross(start, start.(profile := true, browser := true), before, run.local, ids);
  }

  // The operations of a run that began at that time are bounded together.
  predicate Bounded(ops: seq<Op>, began: Time, timeout: nat) {
    AllTimely(ops, began + timeout) && TotalTime(ops) <= timeout
  }

  lemma RunIsBounded(run: BrowserRun, timeout: nat)
    requires run.Valid() && run.OpsWithin(0, run.began + timeout)
    ensures Bounded(run.ops, run.began, timeout)
  {
    TotalTimeBounded(run.ops, run.began, run.began + timeout);
  }

  lemma RunIsWellLogged(run: BrowserRun)
    requires run.Valid()
    ensures WellLogged(run.Past())
  {
  }

  // Over its whole run, at most MAX_REDIRECTS redirected requests were continued.
  lemma RunFollowsFewRedirects(run: BrowserRun)
    requires run.Valid()
    ensures |Interception.ContinuedRedirects(run.requests.View())| <= 10
  {
    Interception.RedirectsBounded(Interception.MAX_REDIRECTS, run.requests.run);
  }

  // Nothing was launched.
  twostate predicate Untouched(run: BrowserRun)
    reads run
  {
    run.ops == [] && run.checks == [] && run.script == old(run.script) && run.local == old(run.local)
  }

  // ---- Flow runs ------------------------------------------------------------------

  // The context and settings of a flow run, and of a task.
  function FlowEnv(run: BrowserRun, ctx: Context): Setting {
    run.Env(WithTimeout(ctx, run.began, run.config.flowTimeout))
  }

  function TaskEnv(run: BrowserRun, ctx: Context): Setting {
    run.Env(WithTimeout(ctx, run.began, run.config.taskTimeout))
  }

  // A browser that has just been launched.
  ghost predicate Running(run: BrowserRun, ctx: Context, launch: LaunchOutcome, start: Local)
    requires HasDeadline(ctx)
    reads run.Footprint()
  {
    && run.Valid() && Launched(run.Past(), launch, ctx, None) && run.OpsWithin(0, Deadline(ctx))
    && run.local == start.(profile := true, browser := true) && !start.profile && !start.browser
  }

  lemma LaunchKeeps(run: BrowserRun, flowCtx: Context, launch: LaunchOutcome, parse: Doc.URLPolicy)
    requires HasDeadline(flowCtx) && Launched(run.Past(), launch, flowCtx, None) && run.OpsWithin(0, Deadline(flowCtx))
    ensures run.OpsKeep(0, Deadline(flowCtx), parse)
  {
  }

  method ReplayLaunched(run: BrowserRun, flowCtx: Context, ghost launch: LaunchOutcome, flow: Doc.Flow, capture: bool,
                        ghost parse: Doc.URLPolicy)
    returns (r: RunResult)
    requires HasDeadline(flowCtx) && Doc.WellFormedFlow(flow, parse)
    requires run.Valid() && Launched(run.Past(), launch, flowCtx, None) && run.OpsKeep(0, Deadline(flowCtx), parse)
    requires run.local.browser
    modifies run.Footprint()
    ensures run.Valid() && run.unsupported == old(run.unsupported) && run.local.browser
    ensures FlowOutcome(run.Env(flowCtx), run.Past(), launch, flow, r, capture)
    ensures Kept(old(run.local), run.local, Refs(r)) && run.OpsKeep(0, Deadline(flowCtx), parse)
  {
    r := run.Replay(flowCtx, flow, capture, parse);
    ReplayIsOutcome(run.Env(flowCtx), old(run.Past()), run.Past(), launch, flow, r, capture);
    KeepsOn(old(run.ops), run.ops, 0, Deadline(flowCtx), parse);
  }

  method ReplayAndClose(run: BrowserRun, flowCtx: Context, ghost launch: LaunchOutcome, flow: Doc.Flow, capture: bool,
                        ghost parse: Doc.URLPolicy, ghost start: Local)
    returns (r: RunResult)
    requires HasDeadline(flowCtx) && Doc.WellFormedFlow(flow, parse) && Running(run, flowCtx, launch, start)
    modifies run.Footprint()
    ensures run.Valid() && run.unsupported == old(run.unsupported)
    ensures FlowOutcome(run.Env(flowCtx), run.Past(), launch, flow, r, capture)
    ensures Kept(start, run.local, Refs(r)) && run.OpsKeep(0, Deadline(flowCtx), parse)
  {
    LaunchKeeps(run, flowCtx, launch, parse);
    r := ReplayLaunched(run, flowCtx, launch, flow, capture, parse);
    Close(run, start, Refs(r));
  }

  lemma FlowLaunchFailure(run: BrowserRun, flowCtx: Context, launch: LaunchOutcome, flow: Doc.Flow, err: BrowserError,
                          capture: bool, parse: Doc.URLPolicy)
    requires HasDeadline(flowCtx) && Launched(run.Past(), launch, flowCtx, Some(err))
    requires run.OpsWithin(0, Deadline(flowCtx))
    ensures FlowOutcome(run.Env(flowCtx), run.Past(), launch, flow, FailedRun(err), capture)
    ensures Kept(run.local, run.local, Refs(FailedRun(err))) && run.OpsKeep(0, Deadline(flowCtx), parse)
  {
    LaunchFailure(run.Env(flowCtx), run.Past(), launch, flow, err, capture);
    GainNothing(run.local);
  }

  // runFlow from the launch on: whatever happens, the browser is cancelled and
  // its profile removed before it returns.
  method LaunchAndReplay(run: BrowserRun, flowCtx: Context, launch: LaunchOutcome,
                         flow: Doc.Flow, capture: bool, ghost parse: Doc.URLPolicy)
    returns (r: RunResult)
    requires Unstarted(run) && HasDeadline(flowCtx) && Doc.WellFormedFlow(flow, parse)
    modifies run.Footprint()
    ensures run.Valid() && run.unsupported == 0
    ensures FlowOutcome(run.Env(flowCtx), run.Past(), launch, flow, r, capture)
    ensures Kept(old(run.local), run.local, Refs(r)) && run.OpsKeep(0, Deadline(flowCtx), parse)
  {
    var err := Launch(run, flowCtx, launch);
    if err.Some? {
      r := FailedRun(err.value);
      FlowLaunchFailure(run, flowCtx, launch, flow, err.value, capture, parse);
    } else {
      r := ReplayAndClose(run, flowCtx, launch, flow, capture, parse, old(run.local));
    }
  }

  // The operations of a flow run: bounded together, and asking only for what a
  // well-formed flow may ask for.
  predicate Orderly(ops: seq<Op>, began: Time, timeout: nat, parse: Doc.URLPolicy) {
    Bounded(ops, began, timeout) && forall i :: 0 <= i < |ops| ==> ProperKind(ops[i].kind, parse)
  }

  // The two judgements before the launch (replay.go:84-103).
  method JudgeFlow(flow: Doc.Flow, parse: Doc.URLPolicy, destination: Doc.URLPolicy) returns (refusal: MaybeError)
    ensures refusal.Some? <==> FlowRefused(flow, parse, destination)
    ensures refusal.Some? ==>
      if !Doc.WellFormedFlow(flow, parse) then Doc.Refused(flow, parse, refusal)
      else refusal == destination(FirstNavigationURL(flow))
  {
    refusal := Doc.Validate(Some(flow), parse);
    if refusal.None? {
      var initialURL := FirstNavigationURL(flow);
      refusal := if initialURL == "" then None else destination(initialURL);
    }
  }

  // runFlow (replay.go:79-203). destination is the outcome of the resolving policy
  // check, launch that of starting a browser.
  method RunFlow(run: BrowserRun, ctx: Context, launch: LaunchOutcome, flow: Doc.Flow, capture: bool,
                 parse: Doc.URLPolicy, destination: Doc.URLPolicy)
    returns (r: RunResult)
    requires Unstarted(run)
    modifies run.Footprint()
    ensures run.Valid() && run.unsupported == 0
    ensures FlowAnswer(FlowEnv(run, ctx), run.Past(), launch, flow, parse, destination, r, capture)
    ensures FlowRefused(flow, parse, destination) ==> Untouched(run)
    ensures Kept(old(run.local), run.local, Refs(r))
    ensures Orderly(run.ops, run.began, run.config.flowTimeout, parse)
    ensures |run.ops| > 1 && run.ops[1].kind.NavigateTo? ==> destination(run.ops[1].kind.url).None?
  {
    var refusal := JudgeFlow(flow, parse, destination);
    if refusal.Some? {
      r := FailedRun(refusal.value);
      GainNothing(run.local);
    } else {
      r := LaunchAndReplay(run, WithTimeout(ctx, run.now, run.config.flowTimeout), launch, flow, capture, parse);
    }
    RunIsBounded(run, run.config.flowTimeout);
    FirstVisitAccepted(run, ctx, launch, flow, capture, parse, destination, r);
  }

  lemma FirstVisitAccepted(run: BrowserRun, ctx: Context, launch: LaunchOutcome, flow: Doc.Flow, capture: bool,
                           parse: Doc.URLPolicy, destination: Doc.URLPolicy, r: RunResult)
    requires FlowAnswer(FlowEnv(run, ctx), run.Past(), launch, flow, parse, destination, r, capture)
    requires FlowRefused(flow, parse, destination) ==> run.ops == []
    ensures |run.ops| > 1 && run.ops[1].kind.NavigateTo? ==> destination(run.ops[1].kind.url).None?
  {
    if Doc.WellFormedFlow(flow, parse) {
      FirstVisitWasAccepted(FlowEnv(run, ctx), run.Past(), launch, flow, parse, destination, r, capture);
    }
  }

  // What a whole flow run takes: each operation keeps to its own timeout.
  lemma FlowRunKeepsTimeouts(run: BrowserRun, ctx: Context, launch: LaunchOutcome, flow: Doc.Flow, r: RunResult,
                             capture: bool)
    requires FlowOutcome(FlowEnv(run, ctx), run.Past(), launch, flow, r, capture) && !NotStarted(r)
    requires Bounded(run.ops, run.began, run.config.flowTimeout)
    ensures FlowKeepsTimeouts(FlowEnv(run, ctx), run.Past(), flow, r, capture)
  {
    ReplayKeepsTimeouts(FlowEnv(run, ctx), run.Past(), flow, r, capture, run.began + run.config.flowTimeout);
  }

  // ---- Checked operations ---------------------------------------------------------------

  // navigationError: some classification of a failed navigation.
  method NavigationError() returns (err: BrowserError)
    ensures err in NAVIGATION_ERRORS
  {
    var which: nat :| true;
    err := match which
      case 0 => BrowserError(NavigationTimeout, ClientCancelled)
      case 1 => BrowserError(TaskTimeout, DeadlineExceeded)
      case 2 => BrowserError(NavigationTimeout, NavigationTimedOut)
      case 3 => BrowserError(BlockedDestination, DestinationNotPermitted)
      case _ => BrowserError(NavigationTimeout, NavigationFailed);
  }

  // One operation under its own timeout and the policy check after it; a violation
  // comes before the operation's own error.
  method CheckedOp(run: BrowserRun, kind: OpKind, ctx: Context, timeout: nat, failure: BrowserError,
                   ghost causes: Causes)
    returns (err: MaybeError)
    requires run.Valid() && failure in causes
    modifies run.Footprint()
    ensures run.Valid() && run.Advances() && run.local == old(run.local)
    ensures CheckedLast(run.Env(ctx), run.Past(), |old(run.ops)|, |old(run.checks)|, kind, timeout, causes, err)
    ensures HasDeadline(ctx) ==> run.OpsWithin(|old(run.ops)|, Deadline(ctx))
  {
    var outcome := run.OwnOp(kind, ctx, timeout);
    err := run.Violation();
    if err.None? && outcome.OpFailed? {
      err := Some(failure);
    }
  }

  method Navigate(run: BrowserRun, ctx: Context, url: string) returns (err: MaybeError)
    requires run.Valid()
    modifies run.Footprint()
    ensures run.Valid() && run.Advances() && run.local == old(run.local)
    ensures Navigated(run.Env(ctx), run.Past(), |old(run.ops)|, |old(run.checks)|, url, err)
    ensures Ended(run.Past(), |old(run.ops)| + 1, |old(run.checks)| + 1)
    ensures HasDeadline(ctx) ==> run.OpsWithin(|old(run.ops)|, Deadline(ctx))
  {
    var failure := NavigationError();
    err := CheckedOp(run, NavigateTo(url), ctx, run.config.navigationTimeout, failure, NAVIGATION_ERRORS);
  }

  // ---- Tasks ------------------------------------------------------------------------

  method ExtractForTask(run: BrowserRun, browserCtx: Context) returns (err: MaybeError)
    requires run.Valid()
    modifies run.Footprint()
    ensures run.Valid() && run.Advances() && run.local == old(run.local)
    ensures Extracted(run.Env(browserCtx), run.Past(), |old(run.ops)|, |old(run.checks)|, EXTRACTION_ERRORS, err)
    ensures Ended(run.Past(), |old(run.ops)| + 1, |old(run.checks)| + 1)
    ensures HasDeadline(browserCtx) ==> run.OpsWithin(|old(run.ops)|, Deadline(browserCtx))
  {
    var late: bool :| true;
    var failure := if late then BrowserError(TaskTimeout, DeadlineExceeded) else EXTRACTION_ERROR;
    err := CheckedOp(run, ExtractPage, browserCtx, run.config.extractionTimeout, failure, EXTRACTION_ERRORS);
  }

  // The screenshot at the end of a task.
  method CaptureTask(run: BrowserRun, browserCtx: Context) returns (r: BrowserResult)
    requires run.Valid() && run.local.browser && HasDeadline(browserCtx)
    modifies run.Footprint()
    ensures run.Valid() && run.Advances() && run.local.browser && r == Settled(r.screenshot, r.error)
    ensures ShotOutcome(run.Env(browserCtx), run.Past(), |old(run.ops)|, |old(run.checks)|, r.screenshot, r.error)
    ensures Kept(old(run.local), run.local, OptionSeq(r.screenshot))
    ensures run.OpsWithin(|old(run.ops)|, Deadline(browserCtx))
  {
    var id, err := run.FinalScreenshot(browserCtx);
    GainNothing(old(run.local));
    FinalLedger(old(run.local), old(run.local), [], id, run.local);
    assert OptionSeq(id) + [] == OptionSeq(id);
    r := Settled(id, err);
  }

  // The part of run after the navigation (worker.go:302-348).
  method ReadPage(run: BrowserRun, browserCtx: Context, req: TaskRequest) returns (r: BrowserResult)
    requires run.Valid() && run.local.browser && HasDeadline(browserCtx)
    modifies run.Footprint()
    ensures run.Valid() && run.Advances() && run.local.browser && r == Settled(r.screenshot, r.error)
    ensures Read(run.Env(browserCtx), run.Past(), |old(run.ops)|, |old(run.checks)|, req, r)
    ensures Kept(old(run.local), run.local, OptionSeq(r.screenshot))
    ensures run.OpsWithin(|old(run.ops)|, Deadline(browserCtx))
  {
    var err := ExtractForTask(run, browserCtx);
    GainNothing(old(run.local));
    if err.Some? || !req.capture {
      return Settled(None, err);
    }
    ghost var extracted := run.Past();
    r := CaptureTask(run, browserCtx);
    CheckedLater(run.Env(browserCtx), extracted, run.Past(), |old(run.ops)|, |old(run.checks)|, ExtractPage,
                 run.config.extractionTimeout, EXTRACTION_ERRORS, None);
    GrowsTwice(old(run.Past()), extracted, run.Past());
  }

  // run once the browser is up (worker.go:289-348).
  method PerformTask(run: BrowserRun, browserCtx: Context, req: TaskRequest) returns (r: BrowserResult)
    requires run.Valid() && run.local.browser && HasDeadline(browserCtx)
    modifies run.Footprint()
    ensures run.Valid() && run.Advances() && run.local.browser
    ensures Attempted(run.Env(browserCtx), run.Past(), |old(run.ops)|, |old(run.checks)|, req, r)
    ensures Kept(old(run.local), run.local, OptionSeq(r.screenshot))
    ensures run.OpsWithin(|old(run.ops)|, Deadline(browserCtx))
  {
    var err := Navigate(run, browserCtx, req.url);
    if err.Some? {
      GainNothing(old(run.local));
      return FailedResult(err.value);
    }
    ghost var visited := run.Past();
    r := ReadPage(run, browserCtx, req);
    CheckedLater(run.Env(browserCtx), visited, run.Past(), |old(run.ops)|, |old(run.checks)|, NavigateTo(req.url),
                 run.config.navigationTimeout, NAVIGATION_ERRORS, None);
    GrowsTwice(old(run.Past()), visited, run.Past());
  }

  method PerformAndClose(run: BrowserRun, taskCtx: Context, ghost launch: LaunchOutcome, req: TaskRequest,
                         ghost start: Local)
    returns (r: BrowserResult)
    requires HasDeadline(taskCtx) && Running(run, taskCtx, launch, start)
    modifies run.Footprint()
    ensures run.Valid() && TaskOutcome(run.Env(taskCtx), run.Past(), launch, req, r)
    ensures Kept(start, run.local, OptionSeq(r.screenshot)) && run.OpsWithin(0, Deadline(taskCtx))
  {
    r := PerformTask(run, taskCtx, req);
    Close(run, start, OptionSeq(r.screenshot));
  }

  method LaunchAndPerform(run: BrowserRun, taskCtx: Context, launch: LaunchOutcome, req: TaskRequest)
    returns (r: BrowserResult)
    requires Unstarted(run) && HasDeadline(taskCtx)
    modifies run.Footprint()
    ensures run.Valid() && TaskOutcome(run.Env(taskCtx), run.Past(), launch, req, r)
    ensures Kept(old(run.local), run.local, OptionSeq(r.screenshot)) && run.OpsWithin(0, Deadline(taskCtx))
  {
    var err := Launch(run, taskCtx, launch);
    if err.Some? {
      GainNothing(old(run.local));
      r := FailedResult(err.value);
    } else {
      r := PerformAndClose(run, taskCtx, launch, req, old(run.local));
    }
  }

  // A task is refused before anything is launched.
  predicate TaskRefused(req: TaskRequest, destination: Doc.URLPolicy) {
    ValidateRequest(req).Some? || destination(req.url).Some?
  }

  // run (worker.go:212-349).
  method RunTask(run: BrowserRun, ctx: Context, launch: LaunchOutcome, req: TaskRequest, destination: Doc.URLPolicy)
    returns (r: BrowserResult)
    requires Unstarted(run)
    modifies run.Footprint()
    ensures run.Valid() && TaskAnswer(TaskEnv(run, ctx), run.Past(), launch, req, destination, r)
    ensures TaskRefused(req, destination) ==> Untouched(run)
    ensures Kept(old(run.local), run.local, OptionSeq(r.screenshot))
    ensures Bounded(run.ops, run.began, run.config.taskTimeout)
    ensures run.ops != [] ==> ValidRequest(req) && destination(req.url).None?
  {
    var refusal := ValidateRequest(req);
    refusal := if refusal.Some? then refusal else destination(req.url);
    if refusal.Some? {
      r := FailedResult(refusal.value);
      GainNothing(run.local);
    } else {
      r := LaunchAndPerform(run, WithTimeout(ctx, run.now, run.config.taskTimeout), launch, req);
    }
    RunIsBounded(run, run.config.taskTimeout);
    TaskRefusalMeans(TaskEnv(run, ctx), run.Past(), launch, req, destination, r);
  }

  // ---- Interactive sessions ---------------------------------------------------------------

  // startInteractive (worker.go:530-648). None hands browser and profile to the
  // session; an error leaves neither.
  method StartInteractive(run: BrowserRun, serviceCtx: Context, launch: LaunchOutcome, url: string,
                          destination: Doc.URLPolicy)
    returns (err: MaybeError)
    requires Unstarted(run)
    modifies run.Footprint()
    ensures run.Valid() && SessionStart(run.Env(serviceCtx), run.Past(), launch, url, destination, err)
    ensures run.local == if err.None? then old(run.local).(profile := true, browser := true) else old(run.local)
  {
    err := SessionRefusal(url, destination);
    if err.None? {
      err := Launch(run, serviceCtx, launch);
      if err.None? {
        err := OpenSession(run, serviceCtx, url);
      } else if ContextEnds(launch) {
        err := Some(SHUTTING_DOWN);
      }
    }
  }

  // The navigation of a launched session; what fails is torn down.
  method OpenSession(run: BrowserRun, serviceCtx: Context, url: string) returns (err: MaybeError)
    requires run.Valid() && run.local.profile
    modifies run.Footprint()
    ensures run.Valid() && run.Advances()
    ensures Navigated(run.Env(serviceCtx), run.Past(), |old(run.ops)|, |old(run.checks)|, SessionURL(url), err)
    ensures Ended(run.Past(), |old(run.ops)| + 1, |old(run.checks)| + 1)
    ensures run.local == if err.None? then old(run.local) else old(run.local).(profile := false, browser := false)
  {
    err := Navigate(run, serviceCtx, SessionURL(url));
    if err.Some? {
      TearDown(run);
    }
  }

  // extractAfterInteraction (worker.go:652-700). Unlike the others it never
  // deletes. stored is the artifact it stored, if any.
  method ExtractAfterInteraction(run: BrowserRun, browserCtx: Context, capture: bool)
    returns (r: BrowserResult, ghost stored: Option<ArtifactId>)
    requires run.Valid() && run.local.browser
    modifies run.Footprint()
    ensures run.Valid() && run.Advances() && Gained(old(run.local), run.local, OptionSeq(stored))
    ensures Extraction(run.Env(browserCtx), run.Past(), |old(run.ops)|, |old(run.checks)|, capture, r, stored)
  {
    var v := run.Violation();
    if v.Some? {
      GainNothing(run.local);
      return FailedResult(v.value), None;
    }
    ghost var checked := run.Past();
    r, stored := ExtractSession(run, browserCtx, capture, |old(run.checks)|);
    GrowsTwice(old(run.Past()), checked, run.Past());
  }

  // The part after the first check.
  method ExtractSession(run: BrowserRun, browserCtx: Context, capture: bool, ghost q: nat)
    returns (r: BrowserResult, ghost stored: Option<ArtifactId>)
    requires run.Valid() && run.local.browser && |run.checks| == q + 1
    requires CheckedAfter(run.Past(), q, |run.ops|) && Visible(run.Past(), q).None?
    modifies run.Footprint()
    ensures run.Valid() && run.Advances() && Gained(old(run.local), run.local, OptionSeq(stored))
    ensures Extraction(run.Env(browserCtx), run.Past(), |old(run.ops)|, q, capture, r, stored)
  {
    stored := None;
    var err := CheckedOp(run, ExtractPage, browserCtx, run.config.extractionTimeout, EXTRACTION_ERROR,
      {EXTRACTION_ERROR});
    if err.Some? || !capture {
      ExtractionWithoutShot(run.Env(browserCtx), old(run.Past()), run.Past(), |old(run.ops)|, q, capture, err);
      GainNothing(run.local);
      return Settled(None, err), None;
    }
    ghost var extracted := run.Past();
    r, stored := CaptureSession(run, browserCtx);
    ExtractionWithShot(run.Env(browserCtx), old(run.Past()), extracted, run.Past(), |old(run.ops)|, q, r, stored);
    GrowsTwice(old(run.Past()), extracted, run.Past());
  }

  // The screenshot of a session and the check after a stored one.
  method CaptureSession(run: BrowserRun, browserCtx: Context)
    returns (r: BrowserResult, ghost stored: Option<ArtifactId>)
    requires run.Valid() && run.local.browser
    modifies run.Footprint()
    ensures run.Valid() && run.Advances() && Gained(old(run.local), run.local, OptionSeq(stored))
    ensures SessionShot(run.Env(browserCtx), run.Past(), |old(run.ops)|, |old(run.checks)|, r, stored)
  {
    var id, err := run.Screenshot(browserCtx);
    stored := id;
    GainOne(old(run.local), run.local, id);
    if err.None? {
      err := run.Violation();
    }
    r := Settled(id, err);
  }
}
