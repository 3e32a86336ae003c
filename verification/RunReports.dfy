// What a browser run reports and how that is judged against its log: the
// operations, the policy checks and the steps of the request handlers
// (internal/browser/replay.go, worker.go).
module RunReports {
  import opened Models
  import opened Deadlines
  import opened Interception
  import opened Ledger
  import Doc = FlowDocument
  import Selector

  datatype Config = Config(taskTimeout: nat, navigationTimeout: nat, extractionTimeout: nat, flowTimeout: nat)

  datatype StepResult = StepResult(
    id: string, kind: Doc.StepType, status: Status, screenshot: Option<ArtifactId>, error: MaybeError)

  datatype RunResult = RunResult(
    status: Status, finalURL: string, steps: seq<StepResult>, finalScreenshot: Option<ArtifactId>, error: MaybeError)

  function FailedRun(error: BrowserError): RunResult { RunResult(Failed, "", [], None, Some(error)) }

  // The identifiers of a result, in the order handleFlowRun collects them.
  function StepRefs(steps: seq<StepResult>): seq<ArtifactId> {
    if steps == [] then [] else StepRefs(steps[..|steps| - 1]) + OptionSeq(steps[|steps| - 1].screenshot)
  }

  function Refs(r: RunResult): seq<ArtifactId> { OptionSeq(r.finalScreenshot) + StepRefs(r.steps) }

  lemma StepRefsAppend(steps: seq<StepResult>, r: StepResult)
    ensures StepRefs(steps + [r]) == StepRefs(steps) + OptionSeq(r.screenshot)
  {
    assert (steps + [r])[..|steps|] == steps;
  }

  // ---- The log of a run ---------------------------------------------------------

  // A policy check: how many operations had returned before it and how many
  // steps the request handlers had taken.
  datatype PolicyCheck = PolicyCheck(ops: nat, steps: nat)

  datatype Log = Log(ops: seq<Op>, checks: seq<PolicyCheck>, run: seq<Interception.Step>)

  predicate Grows(g: Log, h: Log) { g.ops <= h.ops && g.checks <= h.checks && g.run <= h.run }

  lemma GrowsTwice(f: Log, g: Log, h: Log)
    requires Grows(f, g) && Grows(g, h)
    ensures Grows(f, h)
  {
  }

  // Check q came after exactly n operations and saw whatever handlers had done
  // when the last of these returned.
  predicate CheckedAfter(g: Log, q: nat, n: nat) {
    && q < |g.checks| && n <= |g.ops| && g.checks[q].ops == n && g.checks[q].steps <= |g.run|
    && (n > 0 ==> g.ops[n - 1].seen <= g.checks[q].steps)
  }

  // The violation that check q found: the first one recorded before it.
  function Visible(g: Log, q: nat): MaybeError {
    if q < |g.checks| && g.checks[q].steps <= |g.run| then FirstFailure(g.run[..g.checks[q].steps]) else None
  }

  lemma CheckStays(g: Log, h: Log, q: nat, n: nat)
    requires Grows(g, h) && CheckedAfter(g, q, n)
    ensures CheckedAfter(h, q, n) && Visible(h, q) == Visible(g, q)
  {
    assert h.run[..g.checks[q].steps] == g.run[..g.checks[q].steps];
  }

  // A violation recorded before an operation returned is found by every check
  // after it, or an earlier one is.
  lemma CheckSeesOperation(g: Log, q: nat, n: nat, i: nat)
    requires CheckedAfter(g, q, n) && i < n && Sequential(g.ops, 0)
    requires FirstFailure(g.run[..g.ops[i].seen]).Some?
    ensures Visible(g, q) == FirstFailure(g.run[..g.ops[i].seen])
  {
    var early, late := g.run[..g.ops[i].seen], g.run[..g.checks[q].steps];
    assert late == early + late[|early|..];
    FirstFailureAppend(early, late[|early|..]);
  }

  predicate ChecksInOrder(checks: seq<PolicyCheck>, steps: nat) {
    && (forall i :: 0 <= i < |checks| ==> checks[i].steps <= steps)
    && (forall i, j :: 0 <= i < j < |checks| ==> checks[i].steps <= checks[j].steps)
  }

  // Nothing happened after n operations and q checks.
  predicate Ended(g: Log, n: nat, q: nat) { |g.ops| == n && |g.checks| == q }

  predicate Queries(k: OpKind) { k.ClickOn? || k.FillIn? || k.ChooseOption? || k.AwaitVisible? }

  // What an operation of a well-formed flow may ask of the browser.
  predicate ProperKind(k: OpKind, parse: Doc.URLPolicy) {
    (k.NavigateTo? ==> parse(k.url).None?) && (Queries(k) ==> k.selector != "")
  }

  // From the n-th on, the operations run under limit and ask only for what a
  // well-formed flow may ask for.
  predicate KeepsTo(ops: seq<Op>, n: nat, limit: Time, parse: Doc.URLPolicy) {
    n <= |ops| && forall i :: n <= i < |ops| ==> Timely(ops[i], limit) && ProperKind(ops[i].kind, parse)
  }

  lemma KeepsLonger(earlier: seq<Op>, ops: seq<Op>, n: nat, limit: Time, parse: Doc.URLPolicy)
    requires earlier <= ops && KeepsTo(earlier, n, limit, parse)
    requires forall i :: |earlier| <= i < |ops| ==> Timely(ops[i], limit) && ProperKind(ops[i].kind, parse)
    ensures KeepsTo(ops, n, limit, parse)
  {
    assert forall i :: n <= i < |earlier| ==> ops[i] == earlier[i];
  }

  lemma KeepsOn(earlier: seq<Op>, ops: seq<Op>, n: nat, limit: Time, parse: Doc.URLPolicy)
    requires earlier <= ops && KeepsTo(earlier, n, limit, parse) && KeepsTo(ops, |earlier|, limit, parse)
    ensures KeepsTo(ops, n, limit, parse)
  {
    KeepsLonger(earlier, ops, n, limit, parse);
  }

  function StepTimeout(s: Doc.Step): nat { if s.timeoutMs <= 0 then Doc.DEFAULT_STEP_TIMEOUT_MS else s.timeoutMs }

  // The operation that a step asks of the browser.
  function StepOp(s: Doc.Step): OpKind
    requires !s.kind.Unknown?
  {
    match s.kind
    case Navigate => NavigateTo(s.url)
    case Click => ClickOn(Selector.CSSSelector(s.locator))
    case Fill => FillIn(Selector.CSSSelector(s.locator), s.value)
    case Select => ChooseOption(Selector.CSSSelector(s.locator), s.value)
    case WaitVisible => AwaitVisible(Selector.CSSSelector(s.locator))
    case AssertVisible => AwaitVisible(Selector.CSSSelector(s.locator))
    case AssertURL => ReadLocation
    case Screenshot => Capture
  }

  lemma WellFormedStepIsProper(s: Doc.Step, parse: Doc.URLPolicy)
    requires Doc.WellFormedStep(s, parse)
    ensures !s.kind.Unknown? && ProperKind(StepOp(s), parse)
  {
    if Doc.GoodLocator(s.locator) {
      Doc.GoodLocatorNeverEmpty(s.locator);
    }
  }

  // ---- One step -------------------------------------------------------------------

  // Where a run executes its steps: with or without a store, with the worker's
  // timeouts, under the context of its browser.
  datatype Setting = Setting(store: bool, config: Config, ctx: Context)

  // The step's operation runs under the step's own context, a child of the run's.
  predicate OwnContext(env: Setting, ops: seq<Op>, n: nat, step: Doc.Step)
    requires n < |ops|
  {
    var c := ops[n].context;
    if step.kind.Screenshot? then
      && c.WithTimeout? && c.timeout == env.config.extractionTimeout && c.at <= ops[n].start
      && DerivedFor(ops, n, c.parent, env.ctx, StepTimeout(step)) && c.parent.at <= c.at
    else Under(ops, n, env.ctx, StepTimeout(step))
  }

  // An operation of a step takes no longer than the step's timeout, and ends by
  // the run's deadline if it started by then.
  lemma StepTimeoutHolds(env: Setting, ops: seq<Op>, n: nat, step: Doc.Step, limit: Time)
    requires n < |ops| && OwnContext(env, ops, n, step) && Timely(ops[n], limit)
    ensures Brief(env, ops[n], StepTimeout(step))
  {
    var c := if step.kind.Screenshot? then ops[n].context.parent else ops[n].context;
    OwnTimeoutHolds(ops, n, c, env.ctx, StepTimeout(step), limit);
  }

  // How many operations the step itself asks for.
  function Attempts(env: Setting, step: Doc.Step): nat {
    if step.kind.Unknown? || (step.kind.Screenshot? && !env.store) then 0 else 1
  }

  // op is the step's own operation and did what the step demands.
  predicate Succeeded(s: Doc.Step, op: Op) {
    && !s.kind.Unknown? && op.kind == StepOp(s) && op.outcome.OpDone?
    && (s.kind.AssertURL? ==> op.outcome.location == s.url)
    && (s.kind.Screenshot? ==> op.outcome.identifier.Some?)
  }

  // The step's own operation, if it asks for one, was operation n and succeeded.
  predicate Works(env: Setting, ops: seq<Op>, n: nat, step: Doc.Step) {
    Attempts(env, step) == 1 && n < |ops| && Succeeded(step, ops[n])
  }

  const NO_STORE := BrowserError(ScreenshotFailed, NoArtifactStorage)
  const UNSUPPORTED := BrowserError(FlowStepFailed, UnsupportedStepType)

  // The error of a capture that failed or could not be saved.
  function ShotError(outcome: Outcome): BrowserError {
    BrowserError(ScreenshotFailed, if outcome.OpFailed? then CaptureFailed else StoreFailed)
  }

  // classifyStepError.
  function ClassifyStepError(outcome: Outcome): BrowserError
    requires outcome.OpFailed?
  {
    if outcome.passed.Some? then outcome.passed.value
    else BrowserError(FlowStepFailed, if outcome.contextDone then StepTimedOut else StepExecutionFailed)
  }

  // The error of a step that did not work.
  function StepError(env: Setting, ops: seq<Op>, n: nat, step: Doc.Step): BrowserError {
    if step.kind.Unknown? then UNSUPPORTED
    else if n >= |ops| || (step.kind.Screenshot? && !env.store) then NO_STORE
    else if step.kind.Screenshot? then ShotError(ops[n].outcome)
    else if ops[n].outcome.OpFailed? then ClassifyStepError(ops[n].outcome)
    else BrowserError(FlowStepFailed, AssertURLMismatch)
  }

  // The artifact that a screenshot step itself stored.
  function OwnShot(env: Setting, ops: seq<Op>, n: nat, step: Doc.Step): Option<ArtifactId> {
    if step.kind.Screenshot? && env.store && n < |ops| then Stored(ops[n].outcome) else None
  }

  // A failed step without a violation gets a diagnostic screenshot, unless it is
  // a screenshot step itself or there is no store.
  predicate Diagnosed(env: Setting, step: Doc.Step) { !step.kind.Screenshot? && env.store }

  // Operation m is that screenshot, and shot what was stored of it.
  predicate DiagnosticAt(env: Setting, ops: seq<Op>, m: nat, step: Doc.Step, shot: Option<ArtifactId>) {
    if Diagnosed(env, step) then
      && m < |ops| && ops[m].kind == Capture && Under(ops, m, env.ctx, env.config.extractionTimeout)
      && shot == Stored(ops[m].outcome)
    else shot.None?
  }

  // The report of a step whose first operation is the n-th and whose policy check
  // is the q-th. The check follows the step's own operation directly; what it
  // found overrides everything, otherwise the operation decides.
  predicate Executed(env: Setting, g: Log, n: nat, q: nat, step: Doc.Step, res: StepResult) {
    && res.id == step.id && res.kind == step.kind
    && CheckedAfter(g, q, n + Attempts(env, step))
    && (Attempts(env, step) == 1 ==> g.ops[n].kind == StepOp(step) && OwnContext(env, g.ops, n, step))
    && (if Visible(g, q).Some? then
          res.status == Failed && res.error == Visible(g, q) && res.screenshot == OwnShot(env, g.ops, n, step)
        else if Works(env, g.ops, n, step) then
          res.status == Completed && res.error.None? && res.screenshot == OwnShot(env, g.ops, n, step)
        else
          && res.status == Failed && res.error == Some(StepError(env, g.ops, n, step))
          && DiagnosticAt(env, g.ops, n + Attempts(env, step), step, res.screenshot))
  }

  // The step's own operation, if it asked for one, was operation n, the last so
  // far: what it was and what it came to.
  predicate Dispatched(env: Setting, ops: seq<Op>, n: nat, step: Doc.Step, shot: Option<ArtifactId>, err: MaybeError) {
    && |ops| == n + Attempts(env, step)
    && (|ops| > n ==> ops[n].kind == StepOp(step) && OwnContext(env, ops, n, step))
    && err == (if Works(env, ops, n, step) then None else Some(StepError(env, ops, n, step)))
    && shot == OwnShot(env, ops, n, step)
  }

  // The number of operations when the step is over.
  function StepEnd(env: Setting, g: Log, n: nat, q: nat, step: Doc.Step): nat {
    n + Attempts(env, step)
    + if Visible(g, q).None? && !Works(env, g.ops, n, step) && Diagnosed(env, step) then 1 else 0
  }

  // Everything a step does is over: its report stands, nothing follows it.
  predicate StepDone(env: Setting, g: Log, n: nat, q: nat, step: Doc.Step, res: StepResult) {
    Executed(env, g, n, q, step, res) && Ended(g, StepEnd(env, g, n, q, step), q + 1)
  }

  // The report when the check found a violation or the step worked.
  lemma ReportedAtCheck(env: Setting, g: Log, n: nat, q: nat, step: Doc.Step, shot: Option<ArtifactId>, err: MaybeError)
    requires Dispatched(env, g.ops, n, step, shot, err) && CheckedAfter(g, q, |g.ops|) && |g.checks| == q + 1
    requires Visible(g, q).Some? || err.None?
    ensures var error := Visible(g, q);
      StepDone(env, g, n, q, step,
        StepResult(step.id, step.kind, if error.Some? then Failed else Completed, shot, error))
  {
  }

  // The report when the step did not work and the check found nothing.
  lemma ReportedAfterDiagnosis(env: Setting, g: Log, h: Log, n: nat, q: nat, step: Doc.Step, shot: Option<ArtifactId>,
                               err: MaybeError, diagnostic: Option<ArtifactId>)
    requires Dispatched(env, g.ops, n, step, shot, err) && CheckedAfter(g, q, |g.ops|)
    requires Visible(g, q).None? && err.Some? && Grows(g, h)
    requires DiagnosticAt(env, h.ops, |g.ops|, step, diagnostic)
    requires Ended(h, |g.ops| + (if Diagnosed(env, step) then 1 else 0), q + 1)
    ensures StepDone(env, h, n, q, step, StepResult(step.id, step.kind, Failed, diagnostic, err))
  {
    CheckStays(g, h, q, |g.ops|);
  }

  lemma ExecutedLater(env: Setting, g: Log, h: Log, n: nat, q: nat, step: Doc.Step, res: StepResult)
    requires Grows(g, h) && Executed(env, g, n, q, step, res)
    ensures Executed(env, h, n, q, step, res) && StepEnd(env, h, n, q, step) == StepEnd(env, g, n, q, step)
  {
    CheckStays(g, h, q, n + Attempts(env, step));
  }

  // ---- The loop ---------------------------------------------------------------------

  predicate AllCompleted(done: seq<StepResult>) { forall i :: 0 <= i < |done| ==> done[i].status == Completed }

  // The reports are those of a prefix of the steps, completed but possibly for
  // the last; step j has operation n + j and check q + j.
  predicate InOrder(env: Setting, g: Log, n: nat, q: nat, steps: seq<Doc.Step>, done: seq<StepResult>) {
    && |done| <= |steps|
    && (forall j :: 0 <= j < |done| ==> Executed(env, g, n + j, q + j, steps[j], done[j]))
    && (forall j :: 0 <= j < |done| - 1 ==> done[j].status == Completed)
  }

  // The number of operations after k reported steps.
  function LoopEnd(env: Setting, g: Log, n: nat, q: nat, steps: seq<Doc.Step>, k: nat): nat
    requires k <= |steps|
  {
    if k == 0 then n else StepEnd(env, g, n + k - 1, q + k - 1, steps[k - 1])
  }

  lemma CompletedEnd(env: Setting, g: Log, n: nat, q: nat, steps: seq<Doc.Step>, done: seq<StepResult>)
    requires InOrder(env, g, n, q, steps, done) && AllCompleted(done)
    ensures LoopEnd(env, g, n, q, steps, |done|) == n + |done|
  {
    if done != [] {
      var k := |done| - 1;
      assert Executed(env, g, n + k, q + k, steps[k], done[k]);
    }
  }

  lemma InOrderLater(env: Setting, g: Log, h: Log, n: nat, q: nat, steps: seq<Doc.Step>, done: seq<StepResult>)
    requires Grows(g, h) && InOrder(env, g, n, q, steps, done)
    ensures InOrder(env, h, n, q, steps, done)
    ensures LoopEnd(env, h, n, q, steps, |done|) == LoopEnd(env, g, n, q, steps, |done|)
  {
    forall j | 0 <= j < |done|
      ensures Executed(env, h, n + j, q + j, steps[j], done[j])
      ensures StepEnd(env, h, n + j, q + j, steps[j]) == StepEnd(env, g, n + j, q + j, steps[j])
    {
      ExecutedLater(env, g, h, n + j, q + j, steps[j], done[j]);
    }
  }

  lemma InOrderMore(env: Setting, g: Log, h: Log, n: nat, q: nat, steps: seq<Doc.Step>, done: seq<StepResult>,
                    res: StepResult)
    requires Grows(g, h) && InOrder(env, g, n, q, steps, done) && AllCompleted(done) && |done| < |steps|
    requires Executed(env, h, n + |done|, q + |done|, steps[|done|], res)
    ensures InOrder(env, h, n, q, steps, done + [res])
  {
    InOrderLater(env, g, h, n, q, steps, done);
    var longer := done + [res];
    forall j | 0 <= j < |longer| ensures Executed(env, h, n + j, q + j, steps[j], longer[j]) {
      assert j < |done| ==> longer[j] == done[j];
    }
  }

  // What the loop has reported so far, from operation n and check q on.
  predicate Replayed(env: Setting, g: Log, n: nat, q: nat, steps: seq<Doc.Step>, done: seq<StepResult>) {
    InOrder(env, g, n, q, steps, done) && Ended(g, LoopEnd(env, g, n, q, steps, |done|), q + |done|)
  }

  lemma ReplayedMore(env: Setting, g: Log, h: Log, n: nat, q: nat, steps: seq<Doc.Step>, done: seq<StepResult>,
                     res: StepResult)
    requires Replayed(env, g, n, q, steps, done) && AllCompleted(done) && |done| < |steps| && Grows(g, h)
    requires StepDone(env, h, |g.ops|, |g.checks|, steps[|done|], res)
    ensures Replayed(env, h, n, q, steps, done + [res])
    ensures (res.error.None? ==> AllCompleted(done + [res])) && LastError(done + [res]) == res.error
  {
    CompletedEnd(env, g, n, q, steps, done);
    InOrderMore(env, g, h, n, q, steps, done, res);
  }

  // A completed last step has no error, a failed one has.
  lemma LastStepSettled(env: Setting, g: Log, n: nat, q: nat, steps: seq<Doc.Step>, done: seq<StepResult>)
    requires InOrder(env, g, n, q, steps, done) && done != []
    ensures var last := done[|done| - 1];
      (last.status == Completed && last.error.None? && AllCompleted(done))
        || (last.status == Failed && last.error.Some?)
  {
    var k := |done| - 1;
    assert Executed(env, g, n + k, q + k, steps[k], done[k]);
  }

  // ---- The end of a run -----------------------------------------------------------------

  // A screenshot: operation n, if there is a store, and what was stored of it.
  predicate ShotTaken(env: Setting, ops: seq<Op>, n: nat, shot: Option<ArtifactId>, err: MaybeError) {
    if !env.store then |ops| == n && shot.None? && err == Some(NO_STORE)
    else
      && |ops| == n + 1 && ops[n].kind == Capture && Under(ops, n, env.ctx, env.config.extractionTimeout)
      && shot == Stored(ops[n].outcome) && err == if shot.None? then Some(ShotError(ops[n].outcome)) else None
  }

  // The final screenshot is operation n. One that was stored is followed by
  // check q, and a violation found there takes it away again.
  predicate ShotOutcome(env: Setting, g: Log, n: nat, q: nat, shot: Option<ArtifactId>, err: MaybeError) {
    if !env.store then Ended(g, n, q) && shot.None? && err == Some(NO_STORE)
    else
      && |g.ops| == n + 1 && g.ops[n].kind == Capture && Under(g.ops, n, env.ctx, env.config.extractionTimeout)
      && (if Stored(g.ops[n].outcome).None? then
            |g.checks| == q && shot.None? && err == Some(ShotError(g.ops[n].outcome))
          else
            && |g.checks| == q + 1 && CheckedAfter(g, q, n + 1) && err == Visible(g, q)
            && shot == if err.Some? then None else Stored(g.ops[n].outcome))
  }

  lemma ShotNotTaken(env: Setting, g: Log, n: nat, q: nat, err: MaybeError)
    requires ShotTaken(env, g.ops, n, None, err) && |g.checks| == q
    ensures ShotOutcome(env, g, n, q, None, err)
  {
  }

  // Operation n reads the final URL.
  predicate FinalRead(env: Setting, ops: seq<Op>, n: nat, url: string) {
    && n < |ops| && ops[n].kind == ReadLocation && Under(ops, n, env.ctx, env.config.extractionTimeout)
    && url == Located(ops[n].outcome)
  }

  // The result of a run that stopped with this error after k steps.
  predicate Stopped(r: RunResult,
                    error: MaybeError) { r.status == Failed && r.error == error && r.finalScreenshot.None? }

  // The loop over the steps, the check after it, the final URL and the end of
  // the run, with first operation n and first check q.
  predicate StepsOutcome(env: Setting, g: Log, n: nat, q: nat, steps: seq<Doc.Step>, r: RunResult, capture: bool) {
    && r.steps != [] && InOrder(env, g, n, q, steps, r.steps)
    && var k, e := |r.steps|, LoopEnd(env, g, n, q, steps, |r.steps|);
    && (r.steps[k - 1].status == Completed ==> k == |steps|)
    && CheckedAfter(g, q + k, e) && FinalRead(env, g.ops, e, r.finalURL)
    && (if Visible(g, q + k).Some? then Ended(g, e + 1, q + k + 1) && Stopped(r, Visible(g, q + k))
        else if r.steps[k - 1].status == Failed then Ended(g, e + 1, q + k + 1) && Stopped(r, r.steps[k - 1].error)
        else if !capture then
          Ended(g, e + 1, q + k + 1) && r.status == Completed && r.error.None? && r.finalScreenshot.None?
        else
          && r.status == (if r.error.Some? then Failed else Completed)
          && ShotOutcome(env, g, e + 1, q + k + 1, r.finalScreenshot, r.error))
  }

  // The loop and the check after it are over; error is what stops the run, if
  // anything does.
  predicate Looped(env: Setting, g: Log, n: nat, q: nat, steps: seq<Doc.Step>, done: seq<StepResult>,
                   error: MaybeError) {
    && done != [] && InOrder(env, g, n, q, steps, done)
    && (done[|done| - 1].status == Completed ==> |done| == |steps|)
    && CheckedAfter(g, q + |done|, LoopEnd(env, g, n, q, steps, |done|))
    && error == (if Visible(g, q + |done|).Some? then Visible(g, q + |done|) else done[|done| - 1].error)
  }

  // Nothing happened since.
  predicate LoopOver(env: Setting, g: Log, n: nat, q: nat, steps: seq<Doc.Step>, done: seq<StepResult>,
                     error: MaybeError) {
    && Looped(env, g, n, q, steps, done, error)
    && Ended(g, LoopEnd(env, g, n, q, steps, |done|), q + |done| + 1)
  }

  // The error of the last report.
  function LastError(done: seq<StepResult>): MaybeError { if done == [] then None else done[|done| - 1].error }

  // How the loop ends: all steps completed, or the last report's error.
  predicate LoopStopped(steps: seq<Doc.Step>, done: seq<StepResult>, error: MaybeError) {
    done != [] && error == LastError(done) && (error.None? ==> |done| == |steps| && AllCompleted(done))
  }

  lemma LoopedAfterCheck(env: Setting, g: Log, h: Log, n: nat, q: nat, steps: seq<Doc.Step>, done: seq<StepResult>,
                         error: MaybeError)
    requires Replayed(env, g, n, q, steps, done) && LoopStopped(steps, done, error)
    requires Grows(g, h) && h.ops == g.ops && |h.checks| == |g.checks| + 1 && CheckedAfter(h, |g.checks|, |g.ops|)
    ensures LoopOver(env, h, n, q, steps, done, if Visible(h, |g.checks|).Some? then Visible(h, |g.checks|) else error)
  {
    InOrderLater(env, g, h, n, q, steps, done);
    LastStepSettled(env, g, n, q, steps, done);
  }

  lemma LoopedLater(env: Setting, g: Log, h: Log, n: nat, q: nat, steps: seq<Doc.Step>, done: seq<StepResult>,
                    error: MaybeError)
    requires Grows(g, h) && Looped(env, g, n, q, steps, done, error)
    ensures Looped(env, h, n, q, steps, done, error)
    ensures LoopEnd(env, h, n, q, steps, |done|) == LoopEnd(env, g, n, q, steps, |done|)
  {
    InOrderLater(env, g, h, n, q, steps, done);
    CheckStays(g, h, q + |done|, LoopEnd(env, g, n, q, steps, |done|));
  }

  // The final URL has been read too.
  predicate URLRead(env: Setting, g: Log, n: nat, q: nat, steps: seq<Doc.Step>, done: seq<StepResult>,
                    error: MaybeError, finalURL: string) {
    && Looped(env, g, n, q, steps, done, error)
    && FinalRead(env, g.ops, LoopEnd(env, g, n, q, steps, |done|), finalURL)
  }

  // That was the last thing so far.
  predicate Concluded(env: Setting, g: Log, n: nat, q: nat, steps: seq<Doc.Step>, done: seq<StepResult>,
                      error: MaybeError, finalURL: string) {
    && URLRead(env, g, n, q, steps, done, error, finalURL)
    && Ended(g, LoopEnd(env, g, n, q, steps, |done|) + 1, q + |done| + 1)
  }

  lemma ConcludedAfterRead(env: Setting, g: Log, h: Log, n: nat, q: nat, steps: seq<Doc.Step>, done: seq<StepResult>,
                           error: MaybeError, finalURL: string)
    requires LoopOver(env, g, n, q, steps, done, error) && Grows(g, h) && Ended(h, |g.ops| + 1, |g.checks|)
    requires FinalRead(env, h.ops, |g.ops|, finalURL)
    ensures Concluded(env, h, n, q, steps, done, error, finalURL)
  {
    LoopedLater(env, g, h, n, q, steps, done, error);
  }

  // The result of a run that ends without a final screenshot.
  function PlainResult(done: seq<StepResult>, error: MaybeError, finalURL: string): RunResult {
    RunResult(if error.Some? then Failed else Completed, finalURL, done, None, error)
  }

  lemma PlainOutcome(env: Setting, g: Log, n: nat, q: nat, steps: seq<Doc.Step>, done: seq<StepResult>,
                     error: MaybeError, finalURL: string, capture: bool)
    requires Concluded(env, g, n, q, steps, done, error, finalURL) && (error.Some? || !capture)
    ensures StepsOutcome(env, g, n, q, steps, PlainResult(done, error, finalURL), capture)
  {
    LastStepSettled(env, g, n, q, steps, done);
  }

  lemma ShotAfterSteps(env: Setting, g: Log, h: Log, n: nat, q: nat, steps: seq<Doc.Step>, done: seq<StepResult>,
                       finalURL: string, shot: Option<ArtifactId>, err: MaybeError)
    requires Concluded(env, g, n, q, steps, done, None, finalURL) && Grows(g, h)
    requires ShotOutcome(env, h, |g.ops|, |g.checks|, shot, err)
    ensures StepsOutcome(env, h, n, q, steps, PlainResult(done, err, finalURL).(finalScreenshot := shot), true)
  {
    LoopedLater(env, g, h, n, q, steps, done, None);
    ShotEnds(env, h, n, q, steps, done, finalURL, shot, err);
  }

  lemma ShotEnds(env: Setting, g: Log, n: nat, q: nat, steps: seq<Doc.Step>, done: seq<StepResult>,
                 finalURL: string, shot: Option<ArtifactId>, err: MaybeError)
    requires URLRead(env, g, n, q, steps, done, None, finalURL)
    requires ShotOutcome(env, g, LoopEnd(env, g, n, q, steps, |done|) + 1, q + |done| + 1, shot, err)
    ensures StepsOutcome(env, g, n, q, steps, PlainResult(done, err, finalURL).(finalScreenshot := shot), true)
  {
    LastStepSettled(env, g, n, q, steps, done);
  }

  const START_URL_ID := "start_url"

  function StartStep(url: string): Doc.Step { Doc.Step(START_URL_ID, Doc.Navigate, None, url, "", 0) }

  // The start URL was visited; its report is dropped.
  predicate StartVisited(env: Setting, g: Log, n: nat, q: nat, url: string) {
    Executed(env, g, n, q, StartStep(url), StepResult(START_URL_ID, Doc.Navigate, Completed, None, None))
  }

  // The start URL could not be opened: its report is the only one.
  predicate StartFailed(env: Setting, g: Log, n: nat, q: nat, url: string, r: RunResult) {
    && |r.steps| == 1 && r.steps[0].status == Failed && Executed(env, g, n, q, StartStep(url), r.steps[0])
    && Stopped(r, r.steps[0].error)
    && var e := StepEnd(env, g, n, q, StartStep(url));
       FinalRead(env, g.ops, e, r.finalURL) && Ended(g, e + 1, q + 1)
  }

  // Number of operations, and of checks, before the first step's.
  function Lead(flow: Doc.Flow): nat { if flow.startURL != "" then 1 else 0 }

  // The start URL, if any, was visited.
  predicate Opened(env: Setting, g: Log, n: nat, q: nat, flow: Doc.Flow) {
    flow.startURL != "" ==> StartVisited(env, g, n, q, flow.startURL)
  }

  // A completed visit of the start URL stores nothing that is kept.
  lemma OpenedByVisit(env: Setting, g: Log, n: nat, q: nat, flow: Doc.Flow, res: StepResult)
    requires StepDone(env, g, n, q, StartStep(flow.startURL), res) && res.status == Completed
    ensures Opened(env, g, n, q, flow) && Ended(g, n + 1, q + 1) && res.screenshot.None?
  {
  }

  lemma OpenedLater(env: Setting, g: Log, h: Log, n: nat, q: nat, flow: Doc.Flow)
    requires Grows(g, h) && Opened(env, g, n, q, flow)
    ensures Opened(env, h, n, q, flow)
  {
    if flow.startURL != "" {
      ExecutedLater(env, g, h, n, q, StartStep(flow.startURL),
        StepResult(START_URL_ID, Doc.Navigate, Completed, None, None));
    }
  }

  function StartReport(res: StepResult, finalURL: string): (r: RunResult)
    ensures Refs(r) == OptionSeq(res.screenshot)
  {
    StepRefsAppend([], res);
    assert [] + [res] == [res];
    RunResult(Failed, finalURL, [res], None, res.error)
  }

  // The start URL, if any, was visited, and the steps were replayed.
  predicate AllReplayed(env: Setting, g: Log, n: nat, q: nat, flow: Doc.Flow, r: RunResult, capture: bool) {
    Opened(env, g, n, q, flow) && StepsOutcome(env, g, n + Lead(flow), q + Lead(flow), flow.steps, r, capture)
  }

  // What a replay returns, determined by its log from operation n and check q on.
  predicate ReplayOutcome(env: Setting, g: Log, n: nat, q: nat, flow: Doc.Flow, r: RunResult, capture: bool) {
    || (flow.startURL != "" && StartFailed(env, g, n, q, flow.startURL, r))
    || AllReplayed(env, g, n, q, flow, r, capture)
  }

  // The operation takes no longer than timeout, and ends by the run's deadline
  // if it started by then.
  predicate Brief(env: Setting, op: Op, timeout: nat) {
    && op.end <= op.start + timeout
    && (HasDeadline(env.ctx) && op.start <= Deadline(env.ctx) ==> op.end <= Deadline(env.ctx))
  }

  // Operation n + j keeps to the timeout of steps[j], if that asks for one.
  predicate StepsBrief(env: Setting, ops: seq<Op>, n: nat, steps: seq<Doc.Step>, k: nat)
    requires k <= |steps|
  {
    forall j :: 0 <= j < k && Attempts(env, steps[j]) == 1 ==>
      n + j < |ops| && Brief(env, ops[n + j], StepTimeout(steps[j]))
  }

  lemma StepsKeepTimeouts(env: Setting, g: Log, n: nat, q: nat, steps: seq<Doc.Step>, done: seq<StepResult>,
                          limit: Time)
    requires InOrder(env, g, n, q, steps, done)
    requires forall i :: n <= i < |g.ops| ==> Timely(g.ops[i], limit)
    ensures StepsBrief(env, g.ops, n, steps, |done|)
  {
    forall j | 0 <= j < |done| && Attempts(env, steps[j]) == 1
      ensures n + j < |g.ops| && Brief(env, g.ops[n + j], StepTimeout(steps[j]))
    {
      assert Executed(env, g, n + j, q + j, steps[j], done[j]);
      StepTimeoutHolds(env, g.ops, n + j, steps[j], limit);
    }
  }

  lemma ShotKeepsTimeout(env: Setting, g: Log, n: nat, q: nat, steps: seq<Doc.Step>, r: RunResult, capture: bool,
                         limit: Time)
    requires StepsOutcome(env, g, n, q, steps, r, capture) && r.finalScreenshot.Some?
    requires forall i :: n <= i < |g.ops| ==> Timely(g.ops[i], limit)
    ensures g.ops != [] && Brief(env, g.ops[|g.ops| - 1], env.config.extractionTimeout)
  {
    var i := |g.ops| - 1;
    OwnTimeoutHolds(g.ops, i, g.ops[i].context, env.ctx, env.config.extractionTimeout, limit);
  }

  lemma StartKeepsTimeout(env: Setting, g: Log, n: nat, q: nat, url: string, res: StepResult, limit: Time)
    requires Executed(env, g, n, q, StartStep(url), res) && (n < |g.ops| ==> Timely(g.ops[n], limit))
    ensures n < |g.ops| && Brief(env, g.ops[n], Doc.DEFAULT_STEP_TIMEOUT_MS)
  {
    StepTimeoutHolds(env, g.ops, n, StartStep(url), limit);
  }

  lemma RestOutcome(env: Setting, g: Log, h: Log, n: nat, q: nat, flow: Doc.Flow, r: RunResult, capture: bool)
    requires Opened(env, g, n, q, flow) && Ended(g, n + Lead(flow), q + Lead(flow)) && Grows(g, h)
    requires StepsOutcome(env, h, |g.ops|, |g.checks|, flow.steps, r, capture)
    ensures ReplayOutcome(env, h, n, q, flow, r, capture)
  {
    OpenedLater(env, g, h, n, q, flow);
  }

  lemma StartFailureOutcome(env: Setting, g: Log, h: Log, n: nat, q: nat, flow: Doc.Flow, res: StepResult,
                            finalURL: string, capture: bool)
    requires StepDone(env, g, n, q, StartStep(flow.startURL), res) && res.status == Failed && flow.startURL != ""
    requires Grows(g, h) && Ended(h, |g.ops| + 1, |g.checks|) && FinalRead(env, h.ops, |g.ops|, finalURL)
    ensures ReplayOutcome(env, h, n, q, flow, StartReport(res, finalURL), capture)
  {
    ExecutedLater(env, g, h, n, q, StartStep(flow.startURL), res);
    assert StartFailed(env, h, n, q, flow.startURL, StartReport(res, finalURL));
  }

  // ---- What follows for callers -------------------------------------------------------

  // The number of the last policy check of a completed run.
  function LastCheck(g: Log): nat { if g.checks == [] then 0 else |g.checks| - 1 }

  // The reports are those of the steps, all completed, and operation n + j did
  // what step j demands.
  predicate AllWork(env: Setting, ops: seq<Op>, n: nat, steps: seq<Doc.Step>, done: seq<StepResult>) {
    && |done| == |steps|
    && forall j :: 0 <= j < |done| ==>
      && done[j].id == steps[j].id && done[j].kind == steps[j].kind && done[j].status == Completed
      && Works(env, ops, n + j, steps[j])
  }

  // The last check came after all operations but the last `rest`, and found nothing.
  predicate CleanAtLastCheck(g: Log, rest: nat) {
    rest <= |g.ops| && CheckedAfter(g, LastCheck(g), |g.ops| - rest) && Visible(g, LastCheck(g)).None?
  }

  // How many operations of a completed replay follow its last check: the reading
  // of the final URL, unless a screenshot was taken.
  function Unchecked(capture: bool): nat { if capture then 0 else 1 }

  // A completed replay did what every step demands, in order, and nothing else
  // than read the final URL and take the screenshot; its last check found nothing.
  lemma CompletedReplay(env: Setting, g: Log, n: nat, q: nat, flow: Doc.Flow, r: RunResult, capture: bool)
    requires ReplayOutcome(env, g, n, q, flow, r, capture) && r.status == Completed
    ensures AllWork(env, g.ops, n + Lead(flow), flow.steps, r.steps)
    ensures r.error.None? && (capture <==> r.finalScreenshot.Some?)
    ensures |g.ops| == n + Lead(flow) + |flow.steps| + (if capture then 2 else 1)
    ensures CleanAtLastCheck(g, Unchecked(capture))
  {
    CompletedIsReplayed(env, g, n, q, flow, r, capture);
    CompletedSteps(env, g, n + Lead(flow), q + Lead(flow), flow.steps, r, capture);
  }

  lemma CompletedIsReplayed(env: Setting, g: Log, n: nat, q: nat, flow: Doc.Flow, r: RunResult, capture: bool)
    requires ReplayOutcome(env, g, n, q, flow, r, capture) && r.status == Completed
    ensures Opened(env, g, n, q, flow)
    ensures StepsOutcome(env, g, n + Lead(flow), q + Lead(flow), flow.steps, r, capture)
    ensures InOrder(env, g, n + Lead(flow), q + Lead(flow), flow.steps, r.steps)
  {
  }

  lemma CompletedInOrder(env: Setting, g: Log, n: nat, q: nat, steps: seq<Doc.Step>, done: seq<StepResult>)
    requires InOrder(env, g, n, q, steps, done) && AllCompleted(done) && |done| == |steps|
    ensures AllWork(env, g.ops, n, steps, done)
  {
    forall j | 0 <= j < |done|
      ensures done[j].id == steps[j].id && done[j].kind == steps[j].kind && Works(env, g.ops, n + j, steps[j])
    {
      assert Executed(env, g, n + j, q + j, steps[j], done[j]);
    }
  }

  lemma CompletedSteps(env: Setting, g: Log, n: nat, q: nat, steps: seq<Doc.Step>, r: RunResult, capture: bool)
    requires StepsOutcome(env, g, n, q, steps, r, capture) && r.status == Completed
    ensures AllCompleted(r.steps) && AllWork(env, g.ops, n, steps, r.steps)
    ensures r.error.None? && (capture <==> r.finalScreenshot.Some?)
    ensures |g.ops| == n + |steps| + (if capture then 2 else 1)
    ensures CleanAtLastCheck(g, Unchecked(capture))
  {
    LastStepSettled(env, g, n, q, steps, r.steps);
    CompletedEnd(env, g, n, q, steps, r.steps);
    CompletedInOrder(env, g, n, q, steps, r.steps);
  }

  // Whatever check of a replay finds a violation, the run fails with exactly
  // that violation.
  lemma VisibleViolationFails(env: Setting, g: Log, n: nat, q: nat, flow: Doc.Flow, r: RunResult, capture: bool, c: nat)
    requires ReplayOutcome(env, g, n, q, flow, r, capture) && q <= c < |g.checks| && Visible(g, c).Some?
    requires ChecksInOrder(g.checks, |g.run|)
    ensures r.status == Failed && r.error == Visible(g, c)
  {
    VisibleStays(g, c, LastCheck(g));
    LastCheckDecides(env, g, n, q, flow, r, capture);
  }

  lemma VisibleStays(g: Log, c: nat, d: nat)
    requires c <= d < |g.checks| && g.checks[c].steps <= g.checks[d].steps <= |g.run| && Visible(g, c).Some?
    ensures Visible(g, d) == Visible(g, c)
  {
    var early, late := g.run[..g.checks[c].steps], g.run[..g.checks[d].steps];
    assert late == early + late[|early|..];
    FirstFailureAppend(early, late[|early|..]);
  }

  lemma LastCheckDecidesStart(env: Setting, g: Log, n: nat, q: nat, url: string, r: RunResult)
    requires StartFailed(env, g, n, q, url, r) && Visible(g, LastCheck(g)).Some?
    ensures r.status == Failed && r.error == Visible(g, LastCheck(g))
  {
  }

  lemma LastCheckDecidesSteps(env: Setting, g: Log, n: nat, q: nat, steps: seq<Doc.Step>, r: RunResult, capture: bool)
    requires StepsOutcome(env, g, n, q, steps, r, capture) && Visible(g, LastCheck(g)).Some?
    ensures r.status == Failed && r.error == Visible(g, LastCheck(g))
  {
  }

  lemma LastCheckDecides(env: Setting, g: Log, n: nat, q: nat, flow: Doc.Flow, r: RunResult, capture: bool)
    requires ReplayOutcome(env, g, n, q, flow, r, capture) && Visible(g, LastCheck(g)).Some?
    ensures r.status == Failed && r.error == Visible(g, LastCheck(g))
  {
    if StartFailed(env, g, n, q, flow.startURL, r) {
      LastCheckDecidesStart(env, g, n, q, flow.startURL, r);
    } else {
      LastCheckDecidesSteps(env, g, n + Lead(flow), q + Lead(flow), flow.steps, r, capture);
    }
  }

  // Fail closed: a run during which a violation was recorded before some
  // operation returned has failed, unless that was the reading of the final URL
  // that ends a run without a screenshot.
  lemma FailsClosed(env: Setting, g: Log, n: nat, q: nat, flow: Doc.Flow, r: RunResult, capture: bool, i: nat)
    requires ReplayOutcome(env, g, n, q, flow, r, capture) && Sequential(g.ops, 0)
    requires i < |g.ops| && g.ops[i].seen <= |g.run| && FirstFailure(g.run[..g.ops[i].seen]).Some?
    requires i + 1 < |g.ops| || capture
    ensures r.status == Failed && r.error.Some?
  {
    if r.status == Completed {
      CompletedReplay(env, g, n, q, flow, r, capture);
      CheckSeesOperation(g, LastCheck(g), |g.ops| - Unchecked(capture), i);
      assert false;
    }
    StatusFollowsError(env, g, n, q, flow, r, capture);
  }

  // A replay has failed exactly if it reports an error, and completed otherwise.
  lemma StatusFollowsError(env: Setting, g: Log, n: nat, q: nat, flow: Doc.Flow, r: RunResult, capture: bool)
    requires ReplayOutcome(env, g, n, q, flow, r, capture)
    ensures r.status == if r.error.Some? then Failed else Completed
  {
    if StartFailed(env, g, n, q, flow.startURL, r) {
      StartStatus(env, g, n, q, flow.startURL, r);
    } else {
      StepsStatus(env, g, n + Lead(flow), q + Lead(flow), flow.steps, r, capture);
    }
  }

  lemma StartStatus(env: Setting, g: Log, n: nat, q: nat, url: string, r: RunResult)
    requires StartFailed(env, g, n, q, url, r)
    ensures r.status == Failed && r.error.Some?
  {
  }

  lemma StepsStatus(env: Setting, g: Log, n: nat, q: nat, steps: seq<Doc.Step>, r: RunResult, capture: bool)
    requires StepsOutcome(env, g, n, q, steps, r, capture)
    ensures r.status == if r.error.Some? then Failed else Completed
  {
    LastStepSettled(env, g, n, q, steps, r.steps);
  }

  // A log that a run of the program can have left.
  ghost predicate WellLogged(g: Log) {
    && ValidRun(MAX_REDIRECTS, g.run) && Sequential(g.ops, 0) && ChecksInOrder(g.checks, |g.run|)
    && forall i :: 0 <= i < |g.ops| ==> g.ops[i].seen <= |g.run|
  }

  // The other half: what handlers do while that last URL is read is never looked
  // at. A completed run without a screenshot stays an outcome, completed, if they
  // do anything more by then, be it a violation.
  lemma LastReadIsUnchecked(env: Setting, g: Log, n: nat, q: nat, flow: Doc.Flow, r: RunResult,
                            more: seq<Interception.Step>)
    requires ReplayOutcome(env, g, n, q, flow, r, false) && r.status == Completed
    ensures g.ops != [] && ReplayOutcome(env, SeenLast(g, more), n, q, flow, r, false)
  {
    CompletedIsReplayed(env, g, n, q, flow, r, false);
    StepsSeen(env, g, more, n + Lead(flow), q + Lead(flow), flow.steps, r);
    OpenedSeen(env, g, more, n, q, flow);
    ReplayedOutcome(env, SeenLast(g, more), n, q, flow, r, false);
  }

  lemma SeenLastIsWellLogged(g: Log, more: seq<Interception.Step>)
    requires WellLogged(g) && g.ops != [] && ValidRun(MAX_REDIRECTS, g.run + more)
    ensures WellLogged(SeenLast(g, more))
    ensures var h := SeenLast(g, more); h.run[..h.ops[|h.ops| - 1].seen] == g.run + more
  {
  }

  // So the exception of FailsClosed is a real one for every flow that can complete:
  // whenever a run without a screenshot completes, it completes as well if a handler
  // records a violation before the last reading of the URL returns.
  lemma ViolationMayStayUnseen(env: Setting, g: Log, n: nat, q: nat, flow: Doc.Flow, r: RunResult, err: BrowserError)
    returns (h: Log)
    requires ReplayOutcome(env, g, n, q, flow, r, false) && r.status == Completed && WellLogged(g)
    ensures WellLogged(h) && ReplayOutcome(env, h, n, q, flow, r, false)
    ensures h.ops != [] && h.checks == g.checks && FirstFailure(h.run[..h.ops[|h.ops| - 1].seen]).Some?
  {
    var more := ViolationMayFollow(MAX_REDIRECTS, g.run, err);
    LastReadIsUnchecked(env, g, n, q, flow, r, more);
    SeenLastIsWellLogged(g, more);
    h := SeenLast(g, more);
  }

  lemma ReplayedOutcome(env: Setting, g: Log, n: nat, q: nat, flow: Doc.Flow, r: RunResult, capture: bool)
    requires Opened(env, g, n, q, flow)
    requires StepsOutcome(env, g, n + Lead(flow), q + Lead(flow), flow.steps, r, capture)
    ensures ReplayOutcome(env, g, n, q, flow, r, capture)
  {
  }

  lemma StepsSeen(env: Setting, g: Log, more: seq<Interception.Step>, n: nat, q: nat, steps: seq<Doc.Step>,
                  r: RunResult)
    requires StepsOutcome(env, g, n, q, steps, r, false) && r.status == Completed
    ensures |g.ops| > n + 1 && StepsOutcome(env, SeenLast(g, more), n, q, steps, r, false)
  {
    CompletedSteps(env, g, n, q, steps, r, false);
    InOrderSeen(env, g, more, n, q, steps, r.steps);
    CompletedEnd(env, g, n, q, steps, r.steps);
    CompletedEnd(env, SeenLast(g, more), n, q, steps, r.steps);
    OutcomeSeen(env, g, more, n, q, steps, r);
  }

  lemma OpenedSeen(env: Setting, g: Log, more: seq<Interception.Step>, n: nat, q: nat, flow: Doc.Flow)
    requires Opened(env, g, n, q, flow) && n + 1 < |g.ops|
    ensures Opened(env, SeenLast(g, more), n, q, flow)
  {
    if flow.startURL != "" {
      ExecutedSeen(env, g, more, n, q, StartStep(flow.startURL),
                   StepResult(START_URL_ID, Doc.Navigate, Completed, None, None));
    }
  }

  // The same log, but while the last operation ran handlers took more steps.
  function SeenLast(g: Log, more: seq<Interception.Step>): Log
    requires g.ops != []
  {
    var i := |g.ops| - 1;
    Log(g.ops[i := g.ops[i].(seen := |g.run| + |more|)], g.checks, g.run + more)
  }

  lemma CheckedSeen(g: Log, more: seq<Interception.Step>, q: nat, n: nat)
    requires n < |g.ops| && CheckedAfter(g, q, n)
    ensures CheckedAfter(SeenLast(g, more), q, n) && Visible(SeenLast(g, more), q) == Visible(g, q)
  {
    assert (g.run + more)[..g.checks[q].steps] == g.run[..g.checks[q].steps];
  }

  lemma ExecutedSeen(env: Setting, g: Log, more: seq<Interception.Step>, n: nat, q: nat, step: Doc.Step,
                     res: StepResult)
    requires Executed(env, g, n, q, step, res) && res.status == Completed && n + 1 < |g.ops|
    ensures Executed(env, SeenLast(g, more), n, q, step, res)
  {
    CheckedSeen(g, more, q, n + Attempts(env, step));
  }

  lemma InOrderSeen(env: Setting, g: Log, more: seq<Interception.Step>, n: nat, q: nat, steps: seq<Doc.Step>,
                    done: seq<StepResult>)
    requires InOrder(env, g, n, q, steps, done) && AllCompleted(done) && n + |done| < |g.ops|
    ensures InOrder(env, SeenLast(g, more), n, q, steps, done)
  {
    forall j | 0 <= j < |done| ensures Executed(env, SeenLast(g, more), n + j, q + j, steps[j], done[j]) {
      ExecutedSeen(env, g, more, n + j, q + j, steps[j], done[j]);
    }
  }

  lemma OutcomeSeen(env: Setting, g: Log, more: seq<Interception.Step>, n: nat, q: nat, steps: seq<Doc.Step>,
                    r: RunResult)
    requires StepsOutcome(env, g, n, q, steps, r, false) && r.status == Completed && |g.ops| == n + |r.steps| + 1
    requires LoopEnd(env, g, n, q, steps, |r.steps|) == n + |r.steps|
    requires LoopEnd(env, SeenLast(g, more), n, q, steps, |r.steps|) == n + |r.steps|
    requires InOrder(env, SeenLast(g, more), n, q, steps, r.steps)
    ensures StepsOutcome(env, SeenLast(g, more), n, q, steps, r, false)
  {
    CheckedSeen(g, more, q + |r.steps|, n + |r.steps|);
  }
}
