// What becomes of a session whose cancelCh has been closed, by an accepted Cancel
// or by Shutdown: when it can still end as cancelled, and when it must.
module SessionCancellation {
  import opened Models
  import opened SessionProtocol
  import opened SessionInvariant
  import opened SessionSafety
  import opened SessionHistory
  import opened SessionProgress

  // The select has not run yet, or it took a cancellation.
  predicate Cancellable(x: Session) {
    || x.pc.NotSpawned? || x.pc.Starting? || x.pc.Launching? || x.pc.Announcing? || x.pc.Selecting?
    || PastCancel(x)
  }

  lemma RunnerStaysUncancellable(x: Session, c: Choice, serviceDone: bool)
    requires SessionInv(x) && RunnerEnabled(x, c, serviceDone) && !Cancellable(x)
    ensures !Cancellable(RunnerNext(x, c))
  {
  }

  lemma StepStaysUncancellable(s: State, step: Step, t: Token)
    requires Inv(s) && Enabled(s, step) && t in s.sessions && !Cancellable(s.sessions[t])
    ensures t in Apply(s, step).sessions && !Cancellable(Apply(s, step).sessions[t])
  {
    if step.Runner? {
      if step.t == t { RunnerStaysUncancellable(s.sessions[t], step.c, s.serviceDone); }
    } else {
      CallStepSessions(s, step, t);
    }
  }

  // Once the select has taken another case, or the start has failed, no
  // continuation of the run ends the session as cancelled, although a Cancel is
  // still accepted while its status is waiting.
  lemma {:induction false} LateCancelNeverCancels(m: int, run: seq<Step>, k: nat, t: Token)
    requires ValidRun(m, run) && k <= |run| && ValidRun(m, run[..k])
    requires t in After(m, run[..k]).sessions && !Cancellable(After(m, run[..k]).sessions[t])
    ensures t in After(m, run).sessions && !Cancellable(After(m, run).sessions[t])
    ensures After(m, run).sessions[t].status != Cancelled
    decreases |run|
  {
    if k == |run| {
      assert run[..k] == run;
    } else {
      var front := run[..|run| - 1];
      assert front[..k] == run[..k];
      LateCancelNeverCancels(m, front, k, t);
      ReachableInv(m, front);
      StepStaysUncancellable(After(m, front), run[|run| - 1], t);
    }
  }

  // ---- Continuations ------------------------------------------------------------

  // The run goes on and then session t ends with this status.
  ghost predicate CanEnd(m: int, run: seq<Step>, t: Token, cancelled: bool) {
    exists more: seq<Step> :: EndsAs(m, run + more, t, cancelled)
  }

  ghost predicate EndsAs(m: int, run: seq<Step>, t: Token, cancelled: bool) {
    && ValidRun(m, run) && t in After(m, run).sessions
    && After(m, run).sessions[t].status != Waiting
    && (After(m, run).sessions[t].status == Cancelled <==> cancelled)
  }

  lemma CanEndEarlier(m: int, run: seq<Step>, step: Step, t: Token, cancelled: bool)
    requires CanEnd(m, run + [step], t, cancelled)
    ensures CanEnd(m, run, t, cancelled)
  {
    var more: seq<Step> :| EndsAs(m, run + [step] + more, t, cancelled);
    assert run + [step] + more == run + ([step] + more);
  }

  lemma CanEndNow(m: int, run: seq<Step>, t: Token, cancelled: bool)
    requires EndsAs(m, run, t, cancelled)
    ensures CanEnd(m, run, t, cancelled)
  {
    assert run + [] == run;
  }

  // A choice that leads on to `cancelled`, or away from it.
  function Lead(x: Session, cancelled: bool): Choice {
    match x.pc
    case Starting => if cancelled then MakeProfile else FailEarly(NOT_FOUND)
    case Launching => if cancelled then Launched else FailLaunch(NOT_FOUND)
    case Selecting => if cancelled then TakeCancel else TakeTimeout
    case Extracting => Extracted(BrowserResult(Completed, None, None))
    case _ => Proceed
  }

  // The session can still go that way.
  predicate Open(x: Session, cancelled: bool) { if cancelled then Cancellable(x) && x.cancelClosed else !PastCancel(x) }

  lemma LeadKeepsOpen(x: Session, cancelled: bool, serviceDone: bool)
    requires SessionInv(x) && Open(x, cancelled) && x.status == Waiting && !x.pc.NotSpawned?
    ensures RunnerEnabled(x, Lead(x, cancelled), serviceDone) && !x.pc.DeferRelease?
    ensures Open(RunnerNext(x, Lead(x, cancelled)), cancelled)
    ensures RunnerRank(RunnerNext(x, Lead(x, cancelled)).pc) < RunnerRank(x.pc)
  {
    RunnerRankDecreases(x, Lead(x, cancelled), serviceDone);
  }

  // The next step of that way: a step of the runner, or of the call that spawns it.
  lemma LeadStep(s: State, t: Token, cancelled: bool) returns (step: Step)
    requires Inv(s) && t in s.sessions && Open(s.sessions[t], cancelled) && s.sessions[t].status == Waiting
    ensures Enabled(s, step) && t in Apply(s, step).sessions && Open(Apply(s, step).sessions[t], cancelled)
    ensures RunnerRank(Apply(s, step).sessions[t].pc) < RunnerRank(s.sessions[t].pc)
  {
    var x := s.sessions[t];
    assert SessionInv(x);
    if x.pc.NotSpawned? {
      var a :| SpawningAt(s, a, t);
      step := Spawn(a);
    } else {
      LeadKeepsOpen(x, cancelled, s.serviceDone);
      step := Runner(t, Lead(x, cancelled));
    }
  }

  lemma {:induction false} OpenCanEnd(m: int, run: seq<Step>, t: Token, cancelled: bool)
    requires ValidRun(m, run) && t in After(m, run).sessions && Open(After(m, run).sessions[t], cancelled)
    ensures CanEnd(m, run, t, cancelled)
    decreases RunnerRank(After(m, run).sessions[t].pc)
  {
    ReachableInv(m, run);
    var x := After(m, run).sessions[t];
    assert SessionInv(x);
    if x.status == Waiting {
      var step := LeadStep(After(m, run), t, cancelled);
      ExtendRun(m, run, step);
      OpenCanEnd(m, run + [step], t, cancelled);
      CanEndEarlier(m, run, step, t, cancelled);
    } else {
      CanEndNow(m, run, t, cancelled);
    }
  }

  // A session whose cancelCh is closed can still end as cancelled exactly if its
  // select has not taken another case and its start has not failed.
  lemma CancelCanWinExactly(m: int, run: seq<Step>, t: Token)
    requires ValidRun(m, run) && t in After(m, run).sessions && After(m, run).sessions[t].cancelClosed
    ensures CanEnd(m, run, t, true) <==> Cancellable(After(m, run).sessions[t])
  {
    if Cancellable(After(m, run).sessions[t]) {
      OpenCanEnd(m, run, t, true);
    } else if more: seq<Step> :| EndsAs(m, run + more, t, true) {
      assert (run + more)[..|run|] == run;
      LateCancelNeverCancels(m, run + more, |run|, t);
      assert false;
    }
  }

  // It must end as cancelled exactly if its select has taken a cancellation: until
  // then the session can still fail, expire or be continued.
  lemma CancelMustWinExactly(m: int, run: seq<Step>, t: Token)
    requires ValidRun(m, run) && t in After(m, run).sessions
    ensures !CanEnd(m, run, t, false) <==> PastCancel(After(m, run).sessions[t])
  {
    if !PastCancel(After(m, run).sessions[t]) {
      OpenCanEnd(m, run, t, false);
    } else if more: seq<Step> :| EndsAs(m, run + more, t, false) {
      assert (run + more)[..|run|] == run;
      StaysPastCancel(m, run + more, |run|, t);
      ReachableInv(m, run + more);
      assert false;
    }
  }
}
