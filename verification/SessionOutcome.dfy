// Where the outcome of a session comes from: the one choice of its runner that
// decides it, and what that choice leads to (internal/browser/session.go:231-300).
module SessionOutcome {
  import opened Models
  import opened SessionProtocol
  import opened SessionInvariant
  import opened SessionSafety

  // A start that fails, a cancellation or the timeout in the select, the end of an
  // extraction.
  predicate Decisive(c: Choice) {
    c.FailEarly? || c.FailLaunch? || c.TakeCancel? || c.TakeServiceDone? || c.TakeTimeout? || c.Extracted?
  }

  // The session has failed, and reports exactly this error.
  predicate FailedWith(x: Session, e: BrowserError) {
    x.status == Failed && x.result.Some? && x.result.value.status == Failed && x.result.value.error == Some(e)
    && x.result.value.screenshot.None?
  }

  // What a decisive choice leads to: the runner is on its way there, or the session
  // has that status and exactly that result.
  predicate LedTo(c: Choice, x: Session) {
    match c
    case FailEarly(e) => x.pc == StartFailed(e) || (!Undecided(x.pc) && FailedWith(x, e))
    case FailLaunch(e) =>
      x.pc == AbortKill(e) || x.pc == AbortCleanup(e) || x.pc == StartFailed(e)
        || (!Undecided(x.pc) && FailedWith(x, e))
    case TakeTimeout =>
      || x.pc.Expiring?
      || (!Undecided(x.pc) && FailedWith(x, BrowserError(SessionExpired, SessionTimedOut)))
    case Extracted(res) =>
      || x.pc == Storing(res)
      || (!Undecided(x.pc) && x.result == Some(res) && x.status == if res.error.Some? then Failed else Completed)
    case _ => x.pc.Cancelling? || (!Undecided(x.pc) && x.status == Cancelled && x.result.None?)
  }

  // Step k is the decisive choice of session t's runner.
  predicate DecidedAt(run: seq<Step>, k: nat, t: Token) {
    k < |run| && run[k].Runner? && run[k].t == t && Decisive(run[k].c)
  }

  // The runner is past its decisive choice.
  predicate IsDecided(x: Session) {
    || x.pc.AbortKill? || x.pc.AbortCleanup? || x.pc.StartFailed? || x.pc.Cancelling? || x.pc.Expiring? || x.pc.Storing?
    || !Undecided(x.pc)
  }

  // ---- One step -----------------------------------------------------------------------

  lemma ChoiceLeads(x: Session, c: Choice, serviceDone: bool)
    requires SessionInv(x) && RunnerEnabled(x, c, serviceDone)
    ensures Decisive(c) ==> LedTo(c, RunnerNext(x, c))
    ensures IsDecided(RunnerNext(x, c)) && !IsDecided(x) ==> Decisive(c)
  {
  }

  lemma EndsStay(x: Session, c: Choice, serviceDone: bool, d: Choice)
    requires SessionInv(x) && RunnerEnabled(x, c, serviceDone) && Decisive(d) && LedTo(d, x) && !Undecided(x.pc)
    ensures LedTo(d, RunnerNext(x, c))
  {
  }

  lemma WayLeadsOn(x: Session, c: Choice, serviceDone: bool, d: Choice)
    requires SessionInv(x) && RunnerEnabled(x, c, serviceDone) && Decisive(d) && LedTo(d, x) && Undecided(x.pc)
    ensures LedTo(d, RunnerNext(x, c))
  {
  }

  lemma StepLeadsOn(s: State, step: Step, t: Token, d: Choice)
    requires Inv(s) && Enabled(s, step) && t in s.sessions && Decisive(d) && LedTo(d, s.sessions[t])
    ensures t in Apply(s, step).sessions && LedTo(d, Apply(s, step).sessions[t])
  {
    if !step.Runner? {
      CallStepSessions(s, step, t);
    } else if step.t == t {
      if Undecided(s.sessions[t].pc) {
        WayLeadsOn(s.sessions[t], step.c, s.serviceDone, d);
      } else {
        EndsStay(s.sessions[t], step.c, s.serviceDone, d);
      }
    }
  }

  lemma WhoDecides(s: State, step: Step, t: Token)
    requires Inv(s) && Enabled(s, step) && t in Apply(s, step).sessions && IsDecided(Apply(s, step).sessions[t])
    requires !(t in s.sessions && IsDecided(s.sessions[t]))
    ensures step.Runner? && step.t == t && Decisive(step.c)
  {
    if step.Runner? {
      ChoiceLeads(s.sessions[step.t], step.c, s.serviceDone);
    } else {
      CallsDecideNothing(s, step, t);
    }
  }

  lemma CallsDecideNothing(s: State, step: Step, t: Token)
    requires Inv(s) && Enabled(s, step) && !step.Runner? && t in Apply(s, step).sessions
    ensures IsDecided(Apply(s, step).sessions[t]) ==> t in s.sessions && IsDecided(s.sessions[t])
  {
    if t in s.sessions {
      CallStepSessions(s, step, t);
    } else {
      NewIsFresh(s, step, t);
    }
  }

  lemma NewIsFresh(s: State, step: Step, t: Token)
    requires Enabled(s, step) && t !in s.sessions && t in Apply(s, step).sessions
    ensures Apply(s, step).sessions[t] == FRESH_SESSION
  {
  }

  // ---- Runs -------------------------------------------------------------------------------

  // A decisive choice leads where it should, in every continuation.
  lemma {:induction false} DecisionHolds(m: int, run: seq<Step>, k: nat, t: Token)
    requires ValidRun(m, run) && DecidedAt(run, k, t)
    ensures t in After(m, run).sessions && LedTo(run[k].c, After(m, run).sessions[t])
    decreases |run|
  {
    var front := run[..|run| - 1];
    ReachableInv(m, front);
    if k < |front| {
      assert front[k] == run[k];
      DecisionHolds(m, front, k, t);
      StepLeadsOn(After(m, front), run[|run| - 1], t, run[k].c);
    } else {
      DecisionStep(After(m, front), t, run[k].c);
    }
  }

  lemma DecisionStep(s: State, t: Token, c: Choice)
    requires Inv(s) && Enabled(s, Runner(t, c)) && Decisive(c)
    ensures t in Apply(s, Runner(t, c)).sessions && LedTo(c, Apply(s, Runner(t, c)).sessions[t])
  {
    ChoiceLeads(s.sessions[t], c, s.serviceDone);
  }

  lemma {:induction false} DecisionExists(m: int, run: seq<Step>, t: Token) returns (k: nat)
    requires ValidRun(m, run) && t in After(m, run).sessions && IsDecided(After(m, run).sessions[t])
    ensures DecidedAt(run, k, t)
    decreases |run|
  {
    var front, step := run[..|run| - 1], run[|run| - 1];
    ReachableInv(m, front);
    if t in After(m, front).sessions && IsDecided(After(m, front).sessions[t]) {
      k := DecisionExists(m, front, t);
    } else {
      WhoDecides(After(m, front), step, t);
      k := |front|;
    }
  }

  // The status and the result of a session that is over are those of a choice its
  // runner made: a completed session has the very result that the extraction
  // returned, a failed one the error of its start, of its extraction or of the
  // timeout.
  ghost predicate OutcomeHasCause(m: int, run: seq<Step>, t: Token) {
    ValidRun(m, run) && t in After(m, run).sessions &&
    exists k: nat :: DecidedAt(run, k, t) && LedTo(run[k].c, After(m, run).sessions[t])
  }

  lemma DecidedHasCause(m: int, run: seq<Step>, t: Token)
    requires ValidRun(m, run) && t in After(m, run).sessions && After(m, run).sessions[t].status != Waiting
    ensures OutcomeHasCause(m, run, t)
  {
    ReachableInv(m, run);
    assert SessionInv(After(m, run).sessions[t]);
    var k := DecisionExists(m, run, t);
    DecisionHolds(m, run, k, t);
  }

  // Step k is the end of an extraction with this result.
  predicate ExtractedAt(run: seq<Step>, k: nat, t: Token, res: BrowserResult) {
    k < |run| && run[k] == Runner(t, Extracted(res))
  }

  // A session is completed exactly with a result that its extraction returned
  // without an error.
  lemma CompletedWasExtracted(m: int, run: seq<Step>, t: Token, res: BrowserResult)
    requires ValidRun(m, run) && t in After(m, run).sessions && After(m, run).sessions[t].status != Waiting
    ensures var x := After(m, run).sessions[t];
      x.status == Completed && x.result == Some(res) <==>
        res.error.None? && exists k: nat :: ExtractedAt(run, k, t, res)
  {
    DecidedHasCause(m, run, t);
    ReachableInv(m, run);
    var x := After(m, run).sessions[t];
    assert SessionInv(x);
    if x.status == Completed && x.result == Some(res) {
      var k: nat :| DecidedAt(run, k, t) && LedTo(run[k].c, x);
      assert ExtractedAt(run, k, t, res);
    }
    if k: nat :| ExtractedAt(run, k, t, res) {
      DecisionHolds(m, run, k, t);
    }
  }
}
