// Causality in the session protocol: what must have happened earlier in a run
// for a session to be completed or cancelled.
module SessionHistory {
  import opened Models
  import opened SessionProtocol
  import opened SessionInvariant
  import opened SessionSafety
  import opened SessionProgress

  // Step i of the run is call a's status check, and it saw session t waiting.
  ghost predicate SawWaiting(m: int, run: seq<Step>, i: nat, a: ActorId, sig: Signal, t: Token) {
    && i < |run|
    && run[i] == SignalCheck(a, sig, t)
    && ValidRun(m, run[..i])
    && t in After(m, run[..i]).sessions
    && After(m, run[..i]).sessions[t].status == Waiting
  }

  // Before step n, one call saw session t waiting and then closed its channel.
  ghost predicate SignalledBefore(m: int, run: seq<Step>, n: nat, sig: Signal, t: Token) {
    n <= |run| &&
    exists a, i: nat, j: nat :: i < j < n && SawWaiting(m, run, i, a, sig, t) && run[j] == SignalClose(a, sig, t)
  }

  // Before step n, cancelCh of session t was closed by Cancel or by Shutdown.
  ghost predicate CancelClosedBefore(m: int, run: seq<Step>, n: nat, t: Token) {
    && n <= |run|
    && (|| SignalledBefore(m, run, n, CancelSignal, t)
        || exists j: nat :: j < n && run[j].ShutdownClose? && run[j].t == t)
  }

  ghost predicate ServiceStoppedBefore(run: seq<Step>, n: nat) {
    n <= |run| && exists j: nat :: j < n && run[j] == ServiceStop
  }

  // The runner's select took the continue channel after a Continue had closed it.
  ghost predicate ContinuedAt(m: int, run: seq<Step>, k: nat, t: Token) {
    k < |run| && run[k] == Runner(t, TakeContinue) && SignalledBefore(m, run, k, ContinueSignal, t)
  }

  ghost predicate WasContinued(m: int, run: seq<Step>, t: Token) { exists k: nat :: ContinuedAt(m, run, k, t) }

  // The runner's select took a cancellation that had already been requested.
  ghost predicate CancelledAt(m: int, run: seq<Step>, k: nat, t: Token) {
    && k < |run|
    && (|| (run[k] == Runner(t, TakeCancel) && CancelClosedBefore(m, run, k, t))
        || (run[k] == Runner(t, TakeServiceDone) && ServiceStoppedBefore(run, k)))
  }

  ghost predicate WasCancelled(m: int, run: seq<Step>, t: Token) { exists k: nat :: CancelledAt(m, run, k, t) }

  // ---- Facts about one step ---------------------------------------------------

  lemma WhoStartsClosing(s: State, step: Step, a: ActorId, sig: Signal, t: Token)
    requires Enabled(s, step) && At(Apply(s, step), a, SignalClosing(sig, t)) && !At(s, a, SignalClosing(sig, t))
    ensures step == SignalCheck(a, sig, t) && t in s.sessions && s.sessions[t].status == Waiting
  {
  }

  lemma RunnerKeepsSignals(x: Session, c: Choice)
    ensures RunnerNext(x, c).continueClosed == x.continueClosed && RunnerNext(x, c).cancelClosed == x.cancelClosed
  {
    if x.pc.Selecting? || x.pc.Starting? || x.pc.Launching? {
    } else {
      BodyKeepsSignals(x, c);
    }
  }

  lemma BodyKeepsSignals(x: Session, c: Choice)
    requires !x.pc.Selecting? && !x.pc.Starting? && !x.pc.Launching?
    ensures RunnerNext(x, c).continueClosed == x.continueClosed && RunnerNext(x, c).cancelClosed == x.cancelClosed
  {
  }

  lemma WhoCloses(s: State, step: Step, t: Token)
    requires Inv(s) && Enabled(s, step) && t in Apply(s, step).sessions
    ensures t !in s.sessions ==> Apply(s, step).sessions[t] == FRESH_SESSION
    ensures t in s.sessions ==>
      var x, y := s.sessions[t], Apply(s, step).sessions[t];
      && (y.continueClosed && !x.continueClosed ==> 
            step.SignalClose? && step == SignalClose(step.a, ContinueSignal, t)
              && At(s, step.a, SignalClosing(ContinueSignal, t)))
      && (y.cancelClosed && !x.cancelClosed ==>
            || (step.SignalClose? && step == SignalClose(step.a, CancelSignal, t)
              && At(s, step.a, SignalClosing(CancelSignal, t)))
            || (step.ShutdownClose? && step.t == t))
  {
    if step.Runner? {
      RunnerKeepsSignals(s.sessions[step.t], step.c);
    } else if !step.SignalClose? && !step.ShutdownClose? {
      OthersKeepSignals(s, step, t);
    }
  }

  lemma OthersKeepSignals(s: State, step: Step, t: Token)
    requires Enabled(s, step) && t in Apply(s, step).sessions && !step.Runner? && !step.SignalClose?
      && !step.ShutdownClose?
    ensures t !in s.sessions ==> Apply(s, step).sessions[t] == FRESH_SESSION
    ensures t in s.sessions ==>
      Apply(s, step).sessions[t].continueClosed == s.sessions[t].continueClosed &&
      Apply(s, step).sessions[t].cancelClosed == s.sessions[t].cancelClosed
  {
  }

  // The session is being extracted or was extracted successfully.
  predicate PastContinue(x: Session) { x.pc.Extracting? || x.pc.Storing? || x.status == Completed }

  predicate PastCancel(x: Session) { x.pc.Cancelling? || x.status == Cancelled }

  lemma WhoContinues(x: Session, c: Choice, serviceDone: bool)
    requires SessionInv(x) && RunnerEnabled(x, c, serviceDone)
    ensures PastContinue(RunnerNext(x, c)) && !PastContinue(x) ==> c.TakeContinue? && x.continueClosed
    ensures PastCancel(RunnerNext(x, c)) && !PastCancel(x) ==>
      (c.TakeCancel? && x.cancelClosed) || (c.TakeServiceDone? && serviceDone)
  {
  }

  lemma WhoDecides(s: State, step: Step, t: Token)
    requires Inv(s) && Enabled(s, step) && t in Apply(s, step).sessions
    requires t !in s.sessions ==> Apply(s, step).sessions[t] == FRESH_SESSION
    ensures PastContinue(Apply(s, step).sessions[t]) ==>
      t in s.sessions &&
      (PastContinue(s.sessions[t]) || (step == Runner(t, TakeContinue) && s.sessions[t].continueClosed))
    ensures PastCancel(Apply(s, step).sessions[t]) ==>
      t in s.sessions &&
      (|| PastCancel(s.sessions[t])
       || (step == Runner(t, TakeCancel) && s.sessions[t].cancelClosed)
       || (step == Runner(t, TakeServiceDone) && s.serviceDone))
  {
    if t in s.sessions {
      if step.Runner? {
        if step.t == t { WhoContinues(s.sessions[t], step.c, s.serviceDone); }
      } else {
        CallStepSessions(s, step, t);
      }
    }
  }

  // ---- Extending a run keeps what happened in it -------------------------------

  lemma SawWaitingExtends(m: int, front: seq<Step>, step: Step, i: nat, a: ActorId, sig: Signal, t: Token)
    requires SawWaiting(m, front, i, a, sig, t)
    ensures SawWaiting(m, front + [step], i, a, sig, t)
  {
    assert (front + [step])[..i] == front[..i];
  }

  lemma SignalledExtends(m: int, front: seq<Step>, step: Step, n: nat, sig: Signal, t: Token)
    requires SignalledBefore(m, front, n, sig, t)
    ensures SignalledBefore(m, front + [step], n, sig, t)
  {
    var a, i: nat, j: nat :| i < j < n && SawWaiting(m, front, i, a, sig, t) && front[j] == SignalClose(a, sig, t);
    SawWaitingExtends(m, front, step, i, a, sig, t);
    assert (front + [step])[j] == front[j];
  }

  lemma SignalledLater(m: int, run: seq<Step>, n: nat, n': nat, sig: Signal, t: Token)
    requires SignalledBefore(m, run, n, sig, t) && n <= n' <= |run|
    ensures SignalledBefore(m, run, n', sig, t)
  {
  }

  lemma CancelClosedExtends(m: int, front: seq<Step>, step: Step, n: nat, t: Token)
    requires CancelClosedBefore(m, front, n, t)
    ensures CancelClosedBefore(m, front + [step], n, t)
  {
    if SignalledBefore(m, front, n, CancelSignal, t) {
      SignalledExtends(m, front, step, n, CancelSignal, t);
    } else {
      var j: nat :| j < n && front[j].ShutdownClose? && front[j].t == t;
      assert (front + [step])[j] == front[j];
    }
  }

  lemma ServiceStoppedExtends(front: seq<Step>, step: Step, n: nat)
    requires ServiceStoppedBefore(front, n)
    ensures ServiceStoppedBefore(front + [step], n)
  {
    var j: nat :| j < n && front[j] == ServiceStop;
    assert (front + [step])[j] == front[j];
  }

  // ---- Histories ---------------------------------------------------------------

  lemma {:induction false} ClosingSawWaiting(m: int, run: seq<Step>, a: ActorId, sig: Signal, t: Token)
    requires ValidRun(m, run) && At(After(m, run), a, SignalClosing(sig, t))
    ensures exists i: nat :: SawWaiting(m, run, i, a, sig, t)
    decreases |run|
  {
    var front, step := run[..|run| - 1], run[|run| - 1];
    assert run == front + [step];
    if At(After(m, front), a, SignalClosing(sig, t)) {
      ClosingSawWaiting(m, front, a, sig, t);
      var i: nat :| SawWaiting(m, front, i, a, sig, t);
      SawWaitingExtends(m, front, step, i, a, sig, t);
    } else {
      WhoStartsClosing(After(m, front), step, a, sig, t);
      assert SawWaiting(m, run, |front|, a, sig, t);
    }
  }

  // The last step of the run closes the channel of a call that saw waiting.
  lemma ClosedNow(m: int, run: seq<Step>, a: ActorId, sig: Signal, t: Token)
    requires ValidRun(m, run) && run != [] && run[|run| - 1] == SignalClose(a, sig, t)
    requires At(After(m, run[..|run| - 1]), a, SignalClosing(sig, t))
    ensures SignalledBefore(m, run, |run|, sig, t)
  {
    var front, step := run[..|run| - 1], run[|run| - 1];
    assert run == front + [step];
    ClosingSawWaiting(m, front, a, sig, t);
    var i: nat :| SawWaiting(m, front, i, a, sig, t);
    SawWaitingExtends(m, front, step, i, a, sig, t);
    assert run[|front|] == SignalClose(a, sig, t);
  }

  lemma {:induction false} ContinueClosedWasSignalled(m: int, run: seq<Step>, t: Token)
    requires ValidRun(m, run) && t in After(m, run).sessions && After(m, run).sessions[t].continueClosed
    ensures SignalledBefore(m, run, |run|, ContinueSignal, t)
    decreases |run|
  {
    var front, step := run[..|run| - 1], run[|run| - 1];
    assert run == front + [step];
    ReachableInv(m, front);
    var s := After(m, front);
    WhoCloses(s, step, t);
    if s.sessions[t].continueClosed {
      ContinueClosedWasSignalled(m, front, t);
      SignalledExtends(m, front, step, |front|, ContinueSignal, t);
      SignalledLater(m, run, |front|, |run|, ContinueSignal, t);
    } else {
      ClosedNow(m, run, step.a, ContinueSignal, t);
    }
  }

  lemma {:induction false} CancelClosedWasRequested(m: int, run: seq<Step>, t: Token)
    requires ValidRun(m, run) && t in After(m, run).sessions && After(m, run).sessions[t].cancelClosed
    ensures CancelClosedBefore(m, run, |run|, t)
    decreases |run|
  {
    var front, step := run[..|run| - 1], run[|run| - 1];
    assert run == front + [step];
    ReachableInv(m, front);
    var s := After(m, front);
    WhoCloses(s, step, t);
    if s.sessions[t].cancelClosed {
      CancelClosedWasRequested(m, front, t);
      CancelClosedExtends(m, front, step, |front|, t);
      if SignalledBefore(m, run, |front|, CancelSignal, t) {
        SignalledLater(m, run, |front|, |run|, CancelSignal, t);
      }
    } else if step.ShutdownClose? {
      assert run[|front|].ShutdownClose? && run[|front|].t == t;
    } else {
      ClosedNow(m, run, step.a, CancelSignal, t);
    }
  }

  lemma {:induction false} ServiceDoneWasStopped(m: int, run: seq<Step>)
    requires ValidRun(m, run) && After(m, run).serviceDone
    ensures ServiceStoppedBefore(run, |run|)
    decreases |run|
  {
    var front, step := run[..|run| - 1], run[|run| - 1];
    assert run == front + [step];
    if step == ServiceStop {
      assert run[|front|] == ServiceStop;
    } else {
      OnlyServiceStopSetsDone(After(m, front), step);
      ServiceDoneWasStopped(m, front);
      ServiceStoppedExtends(front, step, |front|);
    }
  }

  lemma OnlyServiceStopSetsDone(s: State, step: Step)
    requires Enabled(s, step) && step != ServiceStop
    ensures Apply(s, step).serviceDone == s.serviceDone
  {
  }

  // A session that is completed (or being extracted) was continued: a Continue
  // saw it waiting, later closed continueCh, and later still the select fired.
  lemma {:induction false} CompletedWasContinued(m: int, run: seq<Step>, t: Token)
    requires ValidRun(m, run) && t in After(m, run).sessions && PastContinue(After(m, run).sessions[t])
    ensures WasContinued(m, run, t)
    decreases |run|
  {
    var front, step := run[..|run| - 1], run[|run| - 1];
    assert run == front + [step];
    ReachableInv(m, front);
    var s := After(m, front);
    WhoCloses(s, step, t);
    WhoDecides(s, step, t);
    if PastContinue(s.sessions[t]) {
      CompletedWasContinued(m, front, t);
      var k: nat :| ContinuedAt(m, front, k, t);
      SignalledExtends(m, front, step, k, ContinueSignal, t);
      assert ContinuedAt(m, run, k, t);
    } else {
      ContinueClosedWasSignalled(m, front, t);
      SignalledExtends(m, front, step, |front|, ContinueSignal, t);
      assert ContinuedAt(m, run, |front|, t);
    }
  }

  lemma {:induction false} CancelledHadRequest(m: int, run: seq<Step>, t: Token)
    requires ValidRun(m, run) && t in After(m, run).sessions && PastCancel(After(m, run).sessions[t])
    ensures WasCancelled(m, run, t)
    decreases |run|
  {
    var front, step := run[..|run| - 1], run[|run| - 1];
    assert run == front + [step];
    ReachableInv(m, front);
    var s := After(m, front);
    WhoCloses(s, step, t);
    WhoDecides(s, step, t);
    if PastCancel(s.sessions[t]) {
      CancelledHadRequest(m, front, t);
      var k: nat :| CancelledAt(m, front, k, t);
      if front[k] == Runner(t, TakeCancel) {
        CancelClosedExtends(m, front, step, k, t);
      } else {
        ServiceStoppedExtends(front, step, k);
      }
      assert CancelledAt(m, run, k, t);
    } else {
      if step == Runner(t, TakeCancel) {
        CancelClosedWasRequested(m, front, t);
        CancelClosedExtends(m, front, step, |front|, t);
      } else {
        ServiceDoneWasStopped(m, front);
        ServiceStoppedExtends(front, step, |front|);
      }
      assert CancelledAt(m, run, |front|, t);
    }
  }

  lemma StepStaysPastCancel(s: State, step: Step, t: Token)
    requires Inv(s) && Enabled(s, step) && t in s.sessions && PastCancel(s.sessions[t])
    ensures t in Apply(s, step).sessions && PastCancel(Apply(s, step).sessions[t])
  {
    assert SessionInv(s.sessions[t]);
    if !step.Runner? {
      CallStepSessions(s, step, t);
    }
  }

  lemma CancelStep(s: State, t: Token, c: Choice)
    requires Enabled(s, Runner(t, c)) && (c.TakeCancel? || c.TakeServiceDone?)
    ensures t in Apply(s, Runner(t, c)).sessions && PastCancel(Apply(s, Runner(t, c)).sessions[t])
  {
  }

  lemma CancelTaken(m: int, run: seq<Step>, k: nat, t: Token)
    requires ValidRun(m, run) && k < |run| && (run[k] == Runner(t, TakeCancel) || run[k] == Runner(t, TakeServiceDone))
    ensures ValidRun(m, run[..k + 1])
    ensures t in After(m, run[..k + 1]).sessions && PastCancel(After(m, run[..k + 1]).sessions[t])
  {
    PrefixValid(m, run, k + 1);
    assert run[..k + 1][..k] == run[..k];
    CancelStep(After(m, run[..k]), t, run[k].c);
  }

  lemma {:induction false} StaysPastCancel(m: int, run: seq<Step>, k: nat, t: Token)
    requires ValidRun(m, run) && k <= |run| && ValidRun(m, run[..k])
    requires t in After(m, run[..k]).sessions && PastCancel(After(m, run[..k]).sessions[t])
    ensures t in After(m, run).sessions && PastCancel(After(m, run).sessions[t])
    decreases |run|
  {
    if k == |run| {
      assert run[..k] == run;
    } else {
      var front := run[..|run| - 1];
      assert front[..k] == run[..k];
      StaysPastCancel(m, front, k, t);
      ReachableInv(m, front);
      StepStaysPastCancel(After(m, front), run[|run| - 1], t);
    }
  }

  // A session is cancelled, or about to be, exactly if its select took cancelCh
  // after that had been closed, or the end of the service after it had ended.
  lemma CancelledWasRequested(m: int, run: seq<Step>, t: Token)
    requires ValidRun(m, run) && t in After(m, run).sessions
    ensures PastCancel(After(m, run).sessions[t]) <==> WasCancelled(m, run, t)
  {
    if PastCancel(After(m, run).sessions[t]) {
      CancelledHadRequest(m, run, t);
    } else if k: nat :| CancelledAt(m, run, k, t) {
      CancelTaken(m, run, k, t);
      StaysPastCancel(m, run, k + 1, t);
      assert false;
    }
  }

  // ---- What Shutdown's snapshot covers -------------------------------------------

  // The snapshot of Shutdown call a was taken at step k and listed the registry of that moment.
  ghost predicate SnapshotAt(m: int, run: seq<Step>, k: nat, a: ActorId, tokens: seq<Token>) {
    && k < |run|
    && run[k] == ShutdownSnapshot(a, tokens)
    && ValidRun(m, run[..k])
    && (forall t :: t in After(m, run[..k]).registry <==> t in tokens)
  }

  predicate LoopsOver(s: State, a: ActorId, tokens: seq<Token>) {
    a in s.calls && InShutdownLoop(s.calls[a]) && s.calls[a].tokens == tokens
  }

  lemma WhoSnapshots(s: State, step: Step, a: ActorId, tokens: seq<Token>)
    requires Enabled(s, step) && LoopsOver(Apply(s, step), a, tokens) && !LoopsOver(s, a, tokens)
    ensures step == ShutdownSnapshot(a, tokens)
  {
  }

  lemma {:induction false} LoopHasSnapshot(m: int, run: seq<Step>, a: ActorId, tokens: seq<Token>)
    requires ValidRun(m, run) && LoopsOver(After(m, run), a, tokens)
    ensures exists k: nat :: SnapshotAt(m, run, k, a, tokens)
    decreases |run|
  {
    var front, step := run[..|run| - 1], run[|run| - 1];
    assert run == front + [step];
    if LoopsOver(After(m, front), a, tokens) {
      LoopHasSnapshot(m, front, a, tokens);
      var k: nat :| SnapshotAt(m, front, k, a, tokens);
      assert run[..k] == front[..k];
      assert SnapshotAt(m, run, k, a, tokens);
    } else {
      WhoSnapshots(After(m, front), step, a, tokens);
      forall t ensures t in After(m, front).registry <==> t in tokens {
        assert t in (set u | u in tokens) <==> t in tokens;
      }
      assert SnapshotAt(m, run, |front|, a, tokens);
    }
  }

  // Once Shutdown has returned, there is an earlier moment such that every
  // session registered at that moment is done and keeps no profile directory.
  lemma ShutdownCoversRegistry(m: int, run: seq<Step>, a: ActorId) returns (k: nat)
    requires ValidRun(m, run) && a in After(m, run).calls && After(m, run).calls[a].ShutdownReturned?
    ensures k < |run| && ValidRun(m, run[..k])
    ensures forall t :: t in After(m, run[..k]).registry ==>
      && t in After(m, run).sessions
      && var x := After(m, run).sessions[t]; x.doneClosed && x.status != Waiting && !x.profile.Live? && !x.browser
  {
    var tokens := After(m, run).calls[a].tokens;
    LoopHasSnapshot(m, run, a, tokens);
    k :| SnapshotAt(m, run, k, a, tokens);
    ReachableInv(m, run);
    forall t | t in After(m, run[..k]).registry
      ensures t in After(m, run).sessions
      ensures var x := After(m, run).sessions[t]; x.doneClosed && x.status != Waiting && !x.profile.Live? && !x.browser
    {
      assert t in tokens;
      var j :| 0 <= j < |tokens| && tokens[j] == t;
      ShutdownWaitsForAll(m, run, a, tokens, j);
      assert SessionInv(After(m, run).sessions[t]);
    }
  }
}
