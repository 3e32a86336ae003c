// What a replay did, step type by step type, read off its log: what the browser was
// asked to do, under which timeout, and why a step failed (internal/browser/replay.go).
module ReplayMeaning {
  import opened Models
  import opened Deadlines
  import opened RunReports
  import opened Interception
  import opened Selector
  import Doc = FlowDocument

  // The selector is the locator's own text for a css locator; else a CSS parser reads
  // from it an attribute selector for id or name. (A value goes through the parser's
  // input preprocessing; one with a line break cannot be written in a string.)
  predicate Denotes(selector: string, loc: Option<Locator>) {
    loc.Some? &&
    if loc.value.strategy == "id" || loc.value.strategy == "name" then
      var value := Preprocess(loc.value.value);
      ParseAttribute(selector) == if '\n' in value then None else Some((loc.value.strategy, value))
    else selector == loc.value.value
  }

  // What a step of each type asks of the browser.
  predicate Asks(s: Doc.Step, kind: OpKind) {
    match s.kind
    case Navigate => kind.NavigateTo? && kind.url == s.url
    case Click => kind.ClickOn? && Denotes(kind.selector, s.locator)
    case Fill => kind.FillIn? && Denotes(kind.selector, s.locator) && kind.value == s.value
    case Select => kind.ChooseOption? && Denotes(kind.selector, s.locator) && kind.value == s.value
    case WaitVisible => kind.AwaitVisible? && Denotes(kind.selector, s.locator)
    case AssertVisible => kind.AwaitVisible? && Denotes(kind.selector, s.locator)
    case AssertURL => kind.ReadLocation?
    case Screenshot => kind.Capture?
    case Unknown(_) => false
  }

  lemma SelectorDenotes(loc: Option<Locator>)
    requires loc.Some?
    ensures Denotes(CSSSelector(loc), loc)
  {
    if loc.value.strategy == "id" || loc.value.strategy == "name" {
      SelectorMeaning(loc.value.strategy, loc.value.value);
    }
  }

  lemma StepOpIsAsked(s: Doc.Step, parse: Doc.URLPolicy)
    requires Doc.WellFormedStep(s, parse)
    ensures Asks(s, StepOp(s))
  {
    if s.locator.Some? {
      SelectorDenotes(s.locator);
    }
  }

  // The operation did what the step demands: assert_url found the expected URL, a
  // screenshot was stored.
  predicate Did(s: Doc.Step, op: Op) {
    && Asks(s, op.kind) && op.outcome.OpDone?
    && (s.kind.AssertURL? ==> op.outcome.location == s.url)
    && (s.kind.Screenshot? ==> op.outcome.identifier.Some?)
  }

  // The context that a step's timeout belongs to; a screenshot derives another one.
  function StepContext(s: Doc.Step, op: Op): Context {
    if s.kind.Screenshot? && op.context.WithTimeout? then op.context.parent else op.context
  }

  // It is a child of the run's, with the step's timeout or else five seconds.
  predicate TimedBy(env: Setting, s: Doc.Step, op: Op) {
    var c := StepContext(s, op);
    c.WithTimeout? && c.parent == env.ctx && c.timeout == (if s.timeoutMs > 0 then s.timeoutMs else 5000)
      && c.at <= op.start
  }

  // Why a step whose check found no violation failed; op is its operation, if any.
  predicate FailedFor(env: Setting, s: Doc.Step, op: Option<Op>, err: BrowserError) {
    match op
    case None =>
      if s.kind.Screenshot? then !env.store && err == BrowserError(ScreenshotFailed, NoArtifactStorage)
      else s.kind.Unknown? && err == BrowserError(FlowStepFailed, UnsupportedStepType)
    case Some(op) =>
      if op.outcome.OpFailed? then
        if s.kind.Screenshot? then err == BrowserError(ScreenshotFailed, CaptureFailed)
        else if op.outcome.passed.Some? then err == op.outcome.passed.value
        else if op.outcome.contextDone then err == BrowserError(FlowStepFailed, StepTimedOut)
        else err == BrowserError(FlowStepFailed, StepExecutionFailed)
      else
        || (s.kind.Screenshot? && op.outcome.identifier.None? && err == BrowserError(ScreenshotFailed, StoreFailed))
        || (s.kind.AssertURL? && op.outcome.location != s.url && err == BrowserError(FlowStepFailed, AssertURLMismatch))
  }

  // The step's own operation, if it has one.
  function OwnOp(env: Setting, g: Log, n: nat, s: Doc.Step): Option<Op> {
    if s.kind.Unknown? || (s.kind.Screenshot? && !env.store) || n >= |g.ops| then None else Some(g.ops[n])
  }

  // ---- One executed step ---------------------------------------------------------------

  // Whatever a well-formed step came to, what it asked for and under which timeout.
  lemma ExecutedAsks(env: Setting, g: Log, n: nat, q: nat, s: Doc.Step, res: StepResult, parse: Doc.URLPolicy)
    requires Executed(env, g, n, q, s, res) && Doc.WellFormedStep(s, parse)
    ensures OwnOp(env, g, n, s).None? <==> s.kind.Screenshot? && !env.store
    ensures OwnOp(env, g, n, s).Some? ==>
      n < |g.ops| && Asks(s, g.ops[n].kind) && TimedBy(env, s, g.ops[n])
  {
    StepOpIsAsked(s, parse);
  }

  lemma ExecutedDid(env: Setting, g: Log, n: nat, q: nat, s: Doc.Step, res: StepResult, parse: Doc.URLPolicy)
    requires Executed(env, g, n, q, s, res) && Doc.WellFormedStep(s, parse) && res.status == Completed
    ensures n < |g.ops| && Did(s, g.ops[n])
    ensures res.screenshot == if s.kind.Screenshot? then g.ops[n].outcome.identifier else None
  {
    StepOpIsAsked(s, parse);
  }

  // A step that failed without a violation says why.
  lemma ExecutedFailedFor(env: Setting, g: Log, n: nat, q: nat, s: Doc.Step, res: StepResult)
    requires Executed(env, g, n, q, s, res) && res.status == Failed && Visible(g, q).None?
    ensures res.error.Some? && FailedFor(env, s, OwnOp(env, g, n, s), res.error.value)
  {
  }

  // What the report of a failed step refers to: what a screenshot step stored itself,
  // when the check found a violation; else what a diagnostic screenshot stored, which
  // any other step gets where there is a store.
  lemma FailedStepShot(env: Setting, g: Log, n: nat, q: nat, s: Doc.Step, res: StepResult)
    requires Executed(env, g, n, q, s, res) && res.status == Failed
    ensures if Visible(g, q).Some? then
        res.screenshot == if s.kind.Screenshot? && env.store
          && g.ops[n].outcome.OpDone? then g.ops[n].outcome.identifier else None
      else if s.kind.Screenshot? || !env.store then res.screenshot.None?
      else
        var i := if s.kind.Unknown? then n else n + 1;
        && i < |g.ops| && g.ops[i].kind.Capture?
        && res.screenshot == if g.ops[i].outcome.OpDone? then g.ops[i].outcome.identifier else None
  {
  }

  // A completed step is one whose operation did it and whose check found nothing.
  lemma ExecutedExactly(env: Setting, g: Log, n: nat, q: nat, s: Doc.Step, res: StepResult, parse: Doc.URLPolicy)
    requires Executed(env, g, n, q, s, res) && Doc.WellFormedStep(s, parse)
    ensures res.status == Completed <==>
      Visible(g, q).None? && OwnOp(env, g, n, s).Some? && Did(s, OwnOp(env, g, n, s).value)
    ensures res.status == Failed <==> res.error.Some?
  {
    StepOpIsAsked(s, parse);
  }

  // ---- Replays --------------------------------------------------------------------------

  // Operation i did what the step demands, and the report shows what it stored.
  predicate DidAt(ops: seq<Op>, i: nat, s: Doc.Step, res: StepResult) {
    && i < |ops| && Did(s, ops[i]) && res.id == s.id && res.kind == s.kind
    && res.screenshot == if s.kind.Screenshot? then ops[i].outcome.identifier else None
  }

  predicate AllDid(ops: seq<Op>, n: nat, steps: seq<Doc.Step>, done: seq<StepResult>) {
    |done| == |steps| && forall j :: 0 <= j < |done| ==> DidAt(ops, n + j, steps[j], done[j])
  }

  lemma InOrderDid(env: Setting, g: Log, n: nat, q: nat, steps: seq<Doc.Step>, done: seq<StepResult>,
                   parse: Doc.URLPolicy)
    requires InOrder(env, g, n, q, steps, done) && AllCompleted(done) && |done| == |steps|
    requires Doc.AllWellFormed(steps, parse)
    ensures AllDid(g.ops, n, steps, done)
  {
    forall j | 0 <= j < |done| ensures DidAt(g.ops, n + j, steps[j], done[j]) {
      assert Executed(env, g, n + j, q + j, steps[j], done[j]);
      ExecutedDid(env, g, n + j, q + j, steps[j], done[j], parse);
    }
  }

  // The operation after k others read the location, which is the final URL.
  predicate EndsAt(ops: seq<Op>, k: nat, finalURL: string) {
    && k < |ops| && ops[k].kind.ReadLocation?
    && finalURL == if ops[k].outcome.OpDone? then ops[k].outcome.location else ""
  }

  // The last operation took the screenshot that the run reports, if one was wanted.
  predicate ShotAtEnd(ops: seq<Op>, capture: bool, shot: Option<ArtifactId>) {
    if !capture then shot.None?
    else
      && ops != [] && ops[|ops| - 1].kind.Capture? && ops[|ops| - 1].outcome.OpDone?
      && shot.Some? && shot == ops[|ops| - 1].outcome.identifier
  }

  // The steps from operation n on, the final URL and the screenshot.
  predicate FlowDone(ops: seq<Op>, n: nat, steps: seq<Doc.Step>, r: RunResult, capture: bool) {
    && AllDid(ops, n, steps, r.steps) && EndsAt(ops, n + |steps|, r.finalURL)
    && |ops| == n + |steps| + (if capture then 2 else 1) && ShotAtEnd(ops, capture, r.finalScreenshot)
  }

  // Operation n visited the URL.
  predicate VisitedAt(ops: seq<Op>, n: nat, url: string) {
    n < |ops| && ops[n].kind.NavigateTo? && ops[n].kind.url == url && ops[n].outcome.OpDone?
  }

  // A completed replay of a well-formed flow visited the start URL, if there is one,
  // did each step in order, read the final URL and, if asked to, took and stored the
  // screenshot that it reports.
  lemma CompletedReplayDid(env: Setting, g: Log, n: nat, q: nat, flow: Doc.Flow, r: RunResult, capture: bool,
                           parse: Doc.URLPolicy)
    requires ReplayOutcome(env, g, n, q, flow, r, capture) && r.status == Completed && Doc.WellFormedFlow(flow, parse)
    ensures flow.startURL != "" ==> VisitedAt(g.ops, n, flow.startURL)
    ensures FlowDone(g.ops, if flow.startURL == "" then n else n + 1, flow.steps, r, capture)
  {
    CompletedIsReplayed(env, g, n, q, flow, r, capture);
    StepsDid(env, g, n + Lead(flow), q + Lead(flow), flow.steps, r, capture, parse);
    if flow.startURL != "" {
      OpenedDid(env, g, n, q, flow);
    }
  }

  lemma OpenedDid(env: Setting, g: Log, n: nat, q: nat, flow: Doc.Flow)
    requires Opened(env, g, n, q, flow) && flow.startURL != ""
    ensures VisitedAt(g.ops, n, flow.startURL)
  {
  }

  lemma StepsDid(env: Setting, g: Log, n: nat, q: nat, steps: seq<Doc.Step>, r: RunResult, capture: bool,
                 parse: Doc.URLPolicy)
    requires StepsOutcome(env, g, n, q, steps, r, capture) && r.status == Completed && Doc.AllWellFormed(steps, parse)
    ensures FlowDone(g.ops, n, steps, r, capture)
  {
    CompletedSteps(env, g, n, q, steps, r, capture);
    InOrderDid(env, g, n, q, steps, r.steps, parse);
    ReadDid(env, g, n, q, steps, r, capture);
    ShotDid(env, g, n, q, steps, r, capture);
  }

  lemma ReadDid(env: Setting, g: Log, n: nat, q: nat, steps: seq<Doc.Step>, r: RunResult, capture: bool)
    requires StepsOutcome(env, g, n, q, steps, r, capture) && AllCompleted(r.steps) && |r.steps| == |steps|
    ensures EndsAt(g.ops, n + |steps|, r.finalURL)
  {
    CompletedEnd(env, g, n, q, steps, r.steps);
  }

  lemma ShotDid(env: Setting, g: Log, n: nat, q: nat, steps: seq<Doc.Step>, r: RunResult, capture: bool)
    requires StepsOutcome(env, g, n, q, steps, r, capture) && r.status == Completed
    ensures ShotAtEnd(g.ops, capture, r.finalScreenshot)
  {
    LastStepSettled(env, g, n, q, steps, r.steps);
  }

  // Operation i is what the step asks for, under the step's own timeout.
  predicate AskedAt(env: Setting, ops: seq<Op>, i: nat, s: Doc.Step) {
    i < |ops| && Asks(s, ops[i].kind) && TimedBy(env, s, ops[i])
  }

  // In every replay, failed or not, each reported step asked the browser for what its
  // type says, under its own timeout; only a screenshot without a store asked nothing.
  lemma ReplayAsked(env: Setting, g: Log, n: nat, q: nat, steps: seq<Doc.Step>, done: seq<StepResult>,
                    parse: Doc.URLPolicy)
    requires InOrder(env, g, n, q, steps, done) && Doc.AllWellFormed(steps, parse)
    ensures forall j :: 0 <= j < |done| && (steps[j].kind.Screenshot? ==> env.store) ==>
      AskedAt(env, g.ops, n + j, steps[j])
    ensures forall j :: 0 <= j < |done| ==> done[j].id == steps[j].id && done[j].kind == steps[j].kind
  {
    forall j | 0 <= j < |done| ensures done[j].id == steps[j].id && done[j].kind == steps[j].kind {
      assert Executed(env, g, n + j, q + j, steps[j], done[j]);
    }
    forall j | 0 <= j < |done| && (steps[j].kind.Screenshot? ==> env.store)
      ensures AskedAt(env, g.ops, n + j, steps[j])
    {
      assert Executed(env, g, n + j, q + j, steps[j], done[j]);
      ExecutedAsks(env, g, n + j, q + j, steps[j], done[j], parse);
    }
  }

  // ---- The policy checks ------------------------------------------------------------------

  // Check c came after n operations and found nothing.
  predicate CleanCheck(g: Log, c: nat, n: nat) { CheckedAfter(g, c, n) && Visible(g, c).None? }

  // The operation of step j has check q + j right after it.
  predicate StepCheck(g: Log, n: nat, q: nat, j: nat) { CleanCheck(g, q + j, n + j + 1) }

  // So it is for k steps; one more check comes after the loop, and one after the
  // screenshot.
  predicate AllChecked(g: Log, n: nat, q: nat, k: nat, capture: bool) {
    && (forall j :: 0 <= j < k ==> StepCheck(g, n, q, j)) && CleanCheck(g, q + k, n + k)
    && if capture then |g.checks| == q + k + 2 && CleanCheck(g, q + k + 1, |g.ops|) else |g.checks| == q + k + 1
  }

  // A completed replay was checked after the start URL, after each step, after the
  // loop and after the screenshot, and no check found anything.
  lemma CompletedReplayChecks(env: Setting, g: Log, n: nat, q: nat, flow: Doc.Flow, r: RunResult, capture: bool)
    requires ReplayOutcome(env, g, n, q, flow, r, capture) && r.status == Completed
    ensures flow.startURL != "" ==> CleanCheck(g, q, n + 1)
    ensures var k := if flow.startURL == "" then 0 else 1; AllChecked(g, n + k, q + k, |flow.steps|, capture)
  {
    CompletedIsReplayed(env, g, n, q, flow, r, capture);
    StepsAllChecked(env, g, n + Lead(flow), q + Lead(flow), flow.steps, r, capture);
    OpenedChecked(env, g, n, q, flow);
  }

  lemma StepsAllChecked(env: Setting, g: Log, n: nat, q: nat, steps: seq<Doc.Step>, r: RunResult, capture: bool)
    requires StepsOutcome(env, g, n, q, steps, r, capture) && r.status == Completed
    ensures AllChecked(g, n, q, |steps|, capture)
  {
    CompletedSteps(env, g, n, q, steps, r, capture);
    StepChecks(env, g, n, q, steps, r.steps);
    EndChecks(env, g, n, q, steps, r, capture);
  }

  lemma OpenedChecked(env: Setting, g: Log, n: nat, q: nat, flow: Doc.Flow)
    requires Opened(env, g, n, q, flow)
    ensures flow.startURL != "" ==> CleanCheck(g, q, n + 1)
  {
  }

  lemma StepChecks(env: Setting, g: Log, n: nat, q: nat, steps: seq<Doc.Step>, done: seq<StepResult>)
    requires InOrder(env, g, n, q, steps, done) && AllCompleted(done)
    ensures forall j :: 0 <= j < |done| ==> StepCheck(g, n, q, j)
  {
    forall j | 0 <= j < |done| ensures StepCheck(g, n, q, j) {
      CompletedCheck(env, g, n, q, steps, done, j);
    }
  }

  lemma CompletedCheck(env: Setting, g: Log, n: nat, q: nat, steps: seq<Doc.Step>, done: seq<StepResult>, j: nat)
    requires InOrder(env, g, n, q, steps, done) && j < |done| && done[j].status == Completed
    ensures StepCheck(g, n, q, j)
  {
    assert Executed(env, g, n + j, q + j, steps[j], done[j]);
  }

  lemma EndChecks(env: Setting, g: Log, n: nat, q: nat, steps: seq<Doc.Step>, r: RunResult, capture: bool)
    requires StepsOutcome(env, g, n, q, steps, r, capture) && r.status == Completed
    requires AllCompleted(r.steps) && |r.steps| == |steps|
    ensures CleanCheck(g, q + |steps|, n + |steps|)
    ensures if capture then |g.checks| == q + |steps| + 2 && CleanCheck(g, q + |steps| + 1, |g.ops|)
      else |g.checks| == q + |steps| + 1
  {
    CompletedEnd(env, g, n, q, steps, r.steps);
  }

  // A violation recorded before a step's operation returned ends the loop there, and
  // is that step's error.
  lemma StepStopsAtViolation(env: Setting, g: Log, n: nat, q: nat, steps: seq<Doc.Step>, done: seq<StepResult>, j: nat)
    requires InOrder(env, g, n, q, steps, done) && j < |done| && Sequential(g.ops, 0)
    requires OwnOp(env, g, n + j, steps[j]).Some? && g.ops[n + j].seen <= |g.run|
    requires FirstFailure(g.run[..g.ops[n + j].seen]).Some?
    ensures j == |done| - 1 && done[j].status == Failed && done[j].error == FirstFailure(g.run[..g.ops[n + j].seen])
  {
    assert Executed(env, g, n + j, q + j, steps[j], done[j]);
    CheckSeesOperation(g, q + j, n + j + 1, n + j);
  }

  // Only the reading of the final URL follows it.
  lemma ReplayStopsAtViolation(env: Setting, g: Log, n: nat, q: nat, steps: seq<Doc.Step>, r: RunResult, capture: bool,
                               j: nat)
    requires StepsOutcome(env, g, n, q, steps, r, capture) && j < |r.steps| && Sequential(g.ops, 0)
    requires OwnOp(env, g, n + j, steps[j]).Some? && g.ops[n + j].seen <= |g.run|
    requires FirstFailure(g.run[..g.ops[n + j].seen]).Some?
    ensures r.status == Failed && j == |r.steps| - 1 && |g.ops| == n + j + 2 && EndsAt(g.ops, n + j + 1, r.finalURL)
  {
    StepStopsAtViolation(env, g, n, q, steps, r.steps, j);
    assert Executed(env, g, n + j, q + j, steps[j], r.steps[j]);
    CheckSeesOperation(g, q + j, n + j + 1, n + j);
    LoopEndsThere(env, g, n, q, steps, r, capture, j);
  }

  lemma LoopEndsThere(env: Setting, g: Log, n: nat, q: nat, steps: seq<Doc.Step>, r: RunResult, capture: bool, j: nat)
    requires StepsOutcome(env, g, n, q, steps, r, capture) && j == |r.steps| - 1 && r.steps[j].status == Failed
    requires OwnOp(env, g, n + j, steps[j]).Some? && Visible(g, q + j).Some?
    ensures r.status == Failed && |g.ops| == n + j + 2 && EndsAt(g.ops, n + j + 1, r.finalURL)
  {
  }

  // Every replay that got to its steps reports the location that it read at the end,
  // before the screenshot if there is one.
  lemma ReplayReadsURL(env: Setting, g: Log, n: nat, q: nat, steps: seq<Doc.Step>, r: RunResult, capture: bool)
    requires StepsOutcome(env, g, n, q, steps, r, capture)
    ensures g.ops != []
    ensures EndsAt(g.ops, |g.ops| - 1, r.finalURL) ||
      (|g.ops| > 1 && EndsAt(g.ops, |g.ops| - 2, r.finalURL) && g.ops[|g.ops| - 1].kind.Capture?)
  {
  }

  // ---- Why a replay fails ---------------------------------------------------------------

  // A capture that was not stored, and its error.
  predicate ShotFailedFor(env: Setting, g: Log, err: BrowserError) {
    && err.code == ScreenshotFailed
    && if !env.store then err.message == NoArtifactStorage
       else
         && g.ops != [] && g.ops[|g.ops| - 1].kind.Capture?
         && if g.ops[|g.ops| - 1].outcome.OpFailed? then err.message == CaptureFailed
            else g.ops[|g.ops| - 1].outcome.identifier.None? && err.message == StoreFailed
  }

  // The last report failed, and why.
  predicate LastFailedFor(env: Setting, g: Log, n: nat, steps: seq<Doc.Step>, done: seq<StepResult>,
                          err: BrowserError) {
    && 0 < |done| <= |steps| && done[|done| - 1].status == Failed && done[|done| - 1].error == Some(err)
    && FailedFor(env, steps[|done| - 1], OwnOp(env, g, n + |done| - 1, steps[|done| - 1]), err)
  }

  // No check from the q-th on found a violation.
  predicate NoneFound(g: Log, q: nat) { forall c :: q <= c < |g.checks| ==> Visible(g, c).None? }

  predicate StepFailedFor(env: Setting, g: Log, n: nat, steps: seq<Doc.Step>, r: RunResult) {
    r.error.Some? && LastFailedFor(env, g, n, steps, r.steps, r.error.value)
  }

  predicate EndFailedFor(env: Setting, g: Log, r: RunResult, capture: bool) {
    capture && r.error.Some? && AllCompleted(r.steps) && ShotFailedFor(env, g, r.error.value)
  }

  // A replay that failed although none of its checks found a violation failed for the
  // start URL, its last step, or the screenshot.
  lemma FailedReplaySaysWhy(env: Setting, g: Log, n: nat, q: nat, flow: Doc.Flow, r: RunResult, capture: bool)
    requires ReplayOutcome(env, g, n, q, flow, r, capture) && r.status == Failed && NoneFound(g, q)
    ensures
      || (flow.startURL != "" && StepFailedFor(env, g, n, [StartStep(flow.startURL)], r))
      || StepFailedFor(env, g, n + Lead(flow), flow.steps, r) || EndFailedFor(env, g, r, capture)
  {
    if flow.startURL != "" && StartFailed(env, g, n, q, flow.startURL, r) {
      FailedStartSaysWhy(env, g, n, q, flow.startURL, r);
    } else {
      FailedRestSaysWhy(env, g, n, q, flow, r, capture);
    }
  }

  lemma FailedRestSaysWhy(env: Setting, g: Log, n: nat, q: nat, flow: Doc.Flow, r: RunResult, capture: bool)
    requires AllReplayed(env, g, n, q, flow, r, capture) && r.status == Failed && NoneFound(g, q)
    ensures StepFailedFor(env, g, n + Lead(flow), flow.steps, r) || EndFailedFor(env, g, r, capture)
  {
    assert NoneFound(g, q + Lead(flow));
    FailedStepsSayWhy(env, g, n + Lead(flow), q + Lead(flow), flow.steps, r, capture);
  }

  lemma FailedStartSaysWhy(env: Setting, g: Log, n: nat, q: nat, url: string, r: RunResult)
    requires StartFailed(env, g, n, q, url, r) && NoneFound(g, q)
    ensures StepFailedFor(env, g, n, [StartStep(url)], r)
  {
    ExecutedFailedFor(env, g, n, q, StartStep(url), r.steps[0]);
  }

  lemma FailedStepsSayWhy(env: Setting, g: Log, n: nat, q: nat, steps: seq<Doc.Step>, r: RunResult, capture: bool)
    requires StepsOutcome(env, g, n, q, steps, r, capture) && r.status == Failed && NoneFound(g, q)
    ensures StepFailedFor(env, g, n, steps, r) || EndFailedFor(env, g, r, capture)
  {
    var k := |r.steps| - 1;
    LastStepSettled(env, g, n, q, steps, r.steps);
    assert Executed(env, g, n + k, q + k, steps[k], r.steps[k]);
    if r.steps[k].status == Failed {
      ExecutedFailedFor(env, g, n + k, q + k, steps[k], r.steps[k]);
    }
  }

  // The only report of a start URL that could not be opened.
  lemma StartFailureMeans(env: Setting, g: Log, n: nat, q: nat, url: string, r: RunResult)
    requires StartFailed(env, g, n, q, url, r)
    ensures |r.steps| == 1 && r.steps[0].id == "start_url" && r.steps[0].kind == Doc.Navigate
    ensures r.steps[0].status == Failed && r.steps[0].error == r.error
    ensures n < |g.ops| && g.ops[n].kind.NavigateTo? && g.ops[n].kind.url == url
    ensures g.ops != [] && EndsAt(g.ops, |g.ops| - 1, r.finalURL)
  {
  }
}
