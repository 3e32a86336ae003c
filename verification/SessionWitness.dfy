// Runs that show what Shutdown and Cancel do not promise.
module SessionWitness {
  import opened Models
  import opened SessionProtocol

  ghost predicate Reachable(m: int, s: State) {
    exists run :: ValidRun(m, run) && After(m, run) == s
  }

  lemma Advance(m: int, s: State, step: Step) returns (s': State)
    requires Reachable(m, s) && Enabled(s, step)
    ensures s' == Apply(s, step) && Reachable(m, s')
  {
    var run :| ValidRun(m, run) && After(m, run) == s;
    assert (run + [step])[..|run|] == run;
    assert ValidRun(m, run + [step]);
    s' := After(m, run + [step]);
  }

  lemma Start(m: int) returns (s: State)
    ensures s == Init(m) && Reachable(m, s)
  {
    assert ValidRun(m, []);
    s := After(m, []);
  }

  // One created session whose runner has just been spawned.
  lemma OneSession() returns (s: State)
    ensures Reachable(1, s)
    ensures s ==
      State(1, 1, {7}, map[7 := FRESH_SESSION.(pc := Starting)], map[0 := CreateReturned(Some(7), None)], false)
  {
    s := Start(1);
    s := Advance(1, s, CallCreate(0, 0));
    s := Advance(1, s, TryAcquire(0));
    s := Advance(1, s, Register(0, 7));
    s := Advance(1, s, Spawn(0));
  }

  // The runner fails at once and reaches its deferred blocks.
  lemma FailedSession() returns (s: State)
    ensures Reachable(1, s) && s.registry == {7} && s.calls == map[0 := CreateReturned(Some(7), None)]
    ensures 7 in s.sessions && s.sessions[7].pc.DeferCancel? && !s.sessions[7].handed
  {
    s := OneSession();
    s := Advance(1, s, Runner(7, FailEarly(BrowserError(BrowserStartFailed, ChromiumDidNotStart))));
    s := Advance(1, s, Runner(7, Proceed));
  }

  // It stops just before it unregisters its session.
  lemma DoneButRegistered() returns (s: State)
    ensures Reachable(1, s) && s.registry == {7} && s.calls == map[0 := CreateReturned(Some(7), None)]
    ensures 7 in s.sessions && s.sessions[7].pc.DeferRemove? && s.sessions[7].doneClosed
  {
    s := FailedSession();
    s := Advance(1, s, Runner(7, Proceed));
    s := Advance(1, s, Runner(7, Proceed));
    s := Advance(1, s, Runner(7, Proceed));
  }

  // Shutdown can return while a session of its snapshot is still registered:
  // doneCh is closed before the session is removed.
  lemma ShutdownMayLeaveRegistered() returns (s: State)
    ensures Reachable(1, s) && At(s, 1, ShutdownReturned([7])) && s.registry == {7}
  {
    s := DoneButRegistered();
    s := Advance(1, s, CallShutdown(1));
    s := Advance(1, s, ShutdownSnapshot(1, [7]));
    s := Advance(1, s, ShutdownGet(1));
    s := Advance(1, s, ShutdownClose(1, 7));
    s := Advance(1, s, ShutdownAwait(1));
    s := Advance(1, s, ShutdownGet(1));
  }

  lemma LaunchedSession() returns (s: State)
    ensures Reachable(1, s) && s.registry == {7} && s.calls == map[0 := CreateReturned(Some(7), None)] && !s.serviceDone
    ensures s.sessions == map[7 := FRESH_SESSION.(pc := Announcing, profile := Live, browser := true, handed := true)]
  {
    s := OneSession();
    s := Advance(1, s, Runner(7, MakeProfile));
    s := Advance(1, s, Runner(7, Launched));
  }

  // A session whose browser is up and that waits for a signal.
  lemma WaitingSession() returns (s: State)
    ensures Reachable(1, s) && s.registry == {7} && s.calls == map[0 := CreateReturned(Some(7), None)] && !s.serviceDone
    ensures s.sessions == map[7 := FRESH_SESSION.(pc := Selecting, profile := Live, browser := true, handed := true)]
  {
    s := LaunchedSession();
    s := Advance(1, s, Runner(7, Proceed));
  }

  lemma SignalledSession() returns (s: State)
    ensures Reachable(1, s) && s.registry == {7} && 2 !in s.calls && 7 in s.sessions
    ensures s.sessions[7].pc.Selecting? && s.sessions[7].continueClosed && s.sessions[7].status == Waiting
  {
    s := WaitingSession();
    s := Advance(1, s, CallSignal(1, ContinueSignal, 7));
    s := Advance(1, s, SignalGet(1));
    s := Advance(1, s, SignalCheck(1, ContinueSignal, 7));
    s := Advance(1, s, SignalClose(1, ContinueSignal, 7));
  }

  // A Continue was accepted and the select has taken it; the session still
  // reports that it waits.
  lemma ContinuedSession() returns (s: State)
    ensures Reachable(1, s) && s.registry == {7} && 2 !in s.calls
    ensures 7 in s.sessions && s.sessions[7].pc.Extracting? && s.sessions[7].status == Waiting
  {
    s := SignalledSession();
    s := Advance(1, s, Runner(7, TakeContinue));
  }

  // A Cancel is accepted, without an error, while the session is being extracted.
  lemma AcceptedCancel() returns (s: State)
    ensures Reachable(1, s) && At(s, 2, SignalReturned(None))
    ensures 7 in s.sessions && s.sessions[7].cancelClosed && s.sessions[7].pc.Extracting?
  {
    s := ContinuedSession();
    s := Advance(1, s, CallSignal(2, CancelSignal, 7));
    s := Advance(1, s, SignalGet(2));
    s := Advance(1, s, SignalCheck(2, CancelSignal, 7));
    s := Advance(1, s, SignalClose(2, CancelSignal, 7));
  }

  // That session may complete.
  lemma AcceptedCancelCompletes() returns (s: State)
    ensures Reachable(1, s) && At(s, 2, SignalReturned(None))
    ensures 7 in s.sessions && s.sessions[7].cancelClosed && s.sessions[7].status == Completed
  {
    s := AcceptedCancel();
    s := Advance(1, s, Runner(7, Extracted(BrowserResult(Completed, None, None))));
    s := Advance(1, s, Runner(7, Proceed));
  }
}
