// SessionManager and sessionState of internal/browser/session.go as classes
// whose fields the methods update in place. Each atomic method performs one step
// of SessionProtocol on the heap; Create, Signal (Continue and Cancel), Status,
// Shutdown and RunSession are written as in the source, with the steps of every
// other actor interleaved between any two of their own.
module SessionManagement {
  import opened Models
  import opened SessionProtocol
  import opened SessionInvariant
  import opened SessionSafety
  import opened SessionHistory
  import opened SessionProgress
  import Outcome = SessionOutcome

  class SessionState {
    var status: Status
    var result: Option<BrowserResult>
    var continueClosed: bool
    var cancelClosed: bool
    var doneClosed: bool
    // Position and resources of the session's runner goroutine.
    var pc: RunnerPC
    var profile: Profile
    var browser: bool
    var handed: bool

    function View(): Session
      reads this
    {
      Session(status, result, continueClosed, cancelClosed, doneClosed, pc, profile, browser, handed)
    }

    constructor ()
      ensures View() == FRESH_SESSION
    {
      status, result := Waiting, None;
      continueClosed, cancelClosed, doneClosed := false, false, false;
      pc, profile, browser, handed := NotSpawned, NotMade, false, false;
    }

    // The setStatus and fail closures of runSession.
    method SetStatus(st: Status)
      modifies this`status
      ensures View() == old(View()).(status := st)
    {
      status := st;
    }

    method Fail(berr: BrowserError)
      modifies this`status, this`result
      ensures View() == old(View()).(status := Failed, result := Some(FailedResult(berr)))
    {
      status := Failed;
      result := Some(BrowserResult(Failed, Some(berr), None));
    }

    method MarkSpawned()
      modifies this`pc
      ensures View() == old(View()).(pc := Starting)
    {
      pc := Starting;
    }

    // One statement of startInteractive.
    method StartStep(c: Choice)
      requires RunnerEnabled(View(), c, false)
      requires pc.Starting? || pc.Launching? || pc.AbortKill? || pc.AbortCleanup?
      modifies this
      ensures View() == RunnerNext(old(View()), c)
    {
      match pc
      case Starting =>
        if c.FailEarly? {
          pc := StartFailed(c.err);
        } else {
          profile, browser, pc := Live, true, Launching;
        }
      case Launching =>
        if c.FailLaunch? {
          pc := AbortKill(c.err);
        } else {
          handed, pc := true, Announcing;
        }
      case AbortKill(err) => browser, pc := false, AbortCleanup(err);
      case AbortCleanup(err) => profile, pc := Removed, StartFailed(err);
    }

    // One statement of the body of runSession after startInteractive.
    method BodyStep(c: Choice, serviceDone: bool)
      requires RunnerEnabled(View(), c, serviceDone)
      requires pc.StartFailed? || pc.Announcing? || pc.Selecting? || pc.Cancelling? || pc.Expiring? || pc.Extracting?
        || pc.Storing?
      modifies this
      ensures View() == RunnerNext(old(View()), c)
    {
      match pc
      case StartFailed(err) => Fail(err); pc := DeferCancel;
      case Announcing => SetStatus(Waiting); pc := Selecting;
      case Selecting => pc := if c.TakeContinue? then Extracting else if c.TakeTimeout? then Expiring else Cancelling;
      case Cancelling => SetStatus(Cancelled); pc := DeferCancel;
      case Expiring => Fail(BrowserError(SessionExpired, SessionTimedOut)); pc := DeferCancel;
      case Extracting => pc := Storing(c.res);
      case Storing(res) =>
        status := if res.error.Some? then Failed else Completed;
        result := Some(res);
        pc := DeferCancel;
    }

    // One statement of the deferred blocks; the registry and the slot are the manager's.
    method DeferredStep()
      requires pc.DeferCancel? || pc.DeferCleanup? || pc.DeferClose? || pc.DeferRemove? || pc.DeferRelease?
      modifies this
      ensures View() == RunnerNext(old(View()), Proceed)
    {
      match pc
      case DeferCancel =>
        if handed { browser := false; }
        pc := DeferCleanup;
      case DeferCleanup =>
        if handed { profile := Removed; }
        pc := DeferClose;
      case DeferClose => doneClosed, pc := true, DeferRemove;
      case DeferRemove => pc := DeferRelease;
      case DeferRelease => pc := Finished;
    }

    method Step(c: Choice, serviceDone: bool)
      requires RunnerEnabled(View(), c, serviceDone)
      modifies this
      ensures View() == RunnerNext(old(View()), c)
    {
      if pc.Starting? || pc.Launching? || pc.AbortKill? || pc.AbortCleanup? {
        StartStep(c);
      } else if Undecided(pc) {
        BodyStep(c, serviceDone);
      } else {
        DeferredStep();
      }
    }
  }

  class SessionManager {
    const maxSessions: int                   // as passed to NewSessionManager
    const capacity: nat                      // of the slots channel
    var slots: nat                           // tokens in the slots channel
    var sessions: map<Token, SessionState>   // the registry
    var serviceDone: bool
    var all: map<Token, SessionState>        // every session ever registered
    var calls: map<ActorId, CallPC>          // position of every call
    ghost var run: seq<Step>                 // the steps so far

    function SessionViews(): map<Token, Session>
      reads this`all, all.Values
    {
      map t | t in all :: all[t].View()
    }

    function View(): State
      reads this, all.Values
    {
      State(capacity, slots, sessions.Keys, SessionViews(), calls, serviceDone)
    }

    ghost predicate Linked()
      reads this
    {
      && (forall t :: t in sessions ==> t in all && sessions[t] == all[t])
      && (forall t, u :: t in all && u in all && all[t] == all[u] ==> t == u)
    }

    // The heap is a state that the steps so far lead to.
    ghost predicate Valid()
      reads this, all.Values
    {
      Linked() && ValidRun(maxSessions, run) && After(maxSessions, run) == View()
    }

    // Sessions are only added, as new objects.
    twostate predicate Extends()
      reads this
    {
      && (forall t :: t in old(all) ==> t in all && all[t] == old(all)[t])
      && (forall t :: t in all && t !in old(all) ==> fresh(all[t]))
    }

    // Two advances in a row.
    static lemma RunsOn(first: seq<Step>, second: seq<Step>, third: seq<Step>)
      requires first <= second && second <= third
      ensures first <= third
    {
    }

    constructor (maxSessions: int)
      ensures Valid() && View() == Init(maxSessions) && this.maxSessions == maxSessions
    {
      this.maxSessions := maxSessions;
      capacity := if maxSessions < 1 then DEFAULT_MAX_INTERACTIVE_SESSIONS else maxSessions;
      slots, serviceDone, run := 0, false, [];
      sessions, all, calls := map[], map[], map[];
    }

    // ---- Updates in place ----------------------------------------------------------

    method MoveCall(a: ActorId, pc: CallPC)
      requires Linked()
      modifies this`calls
      ensures Linked() && View() == WithCall(old(View()), a, pc)
    {
      calls := calls[a := pc];
    }

    // select { case <-ch: default: close(ch) }
    method CloseContinue(t: Token)
      requires Linked() && t in all
      modifies all[t]
      ensures Linked()
      ensures View() == WithSession(old(View()), t, old(View()).sessions[t].(continueClosed := true))
    {
      all[t].continueClosed := true;
    }

    method CloseCancel(t: Token)
      requires Linked() && t in all
      modifies all[t]
      ensures Linked()
      ensures View() == WithSession(old(View()), t, old(View()).sessions[t].(cancelClosed := true))
    {
      all[t].cancelClosed := true;
    }

    function WithSession(s: State, t: Token, x: Session): State { s.(sessions := s.sessions[t := x]) }

    // go m.runSession(m.serviceCtx, s)
    method StartRunner(t: Token)
      requires Linked() && t in all
      modifies all[t]
      ensures Linked()
      ensures View() == old(View()).(sessions := old(View()).sessions[t := old(View()).sessions[t].(pc := Starting)])
    {
      all[t].MarkSpawned();
    }

    method AddSession(t: Token)
      requires Linked() && t !in all
      modifies this`sessions, this`all
      ensures Linked() && Extends()
      ensures View() == old(View()).(registry := old(View()).registry + {t},
                                     sessions := old(View()).sessions[t := FRESH_SESSION])
    {
      var s := new SessionState();
      Link(t, s);
    }

    method Link(t: Token, s: SessionState)
      requires Linked() && t !in all && s !in all.Values && s.View() == FRESH_SESSION
      modifies this`sessions, this`all
      ensures Linked() && all == old(all)[t := s]
      ensures View() == old(View()).(registry := old(View()).registry + {t},
                                     sessions := old(View()).sessions[t := FRESH_SESSION])
    {
      sessions := sessions[t := s];
      all := all[t := s];
      assert SessionViews() == old(SessionViews())[t := FRESH_SESSION];
    }

    // delete(m.sessions, token)
    method Unregister(t: Token)
      requires Linked()
      modifies this`sessions
      ensures Linked() && View() == old(View()).(registry := old(View()).registry - {t})
    {
      sessions := sessions - {t};
    }

    // <-m.slots
    method ReleaseSlot()
      requires Linked() && slots > 0
      modifies this`slots
      ensures Linked() && View() == old(View()).(slots := old(slots) - 1)
    {
      slots := slots - 1;
    }

    method AdvanceRunner(t: Token, c: Choice)
      requires Linked() && t in all && RunnerEnabled(all[t].View(), c, serviceDone)
      modifies all[t]
      ensures Linked()
      ensures View() == old(View()).(sessions := old(View()).sessions[t := RunnerNext(old(View()).sessions[t], c)])
    {
      all[t].Step(c, serviceDone);
    }

    // ---- Atomic steps --------------------------------------------------------------

    method CreateStep(step: Step)
      requires Linked() && Enabled(View(), step)
      requires step.CallCreate? || step.TryAcquire? || step.TokenFailed?
      modifies this`slots, this`calls
      ensures Linked() && View() == Apply(old(View()), step)
    {
      match step
      case CallCreate(a, n) =>
        MoveCall(a, if n < 0 then CreateReturned(None, Some(BrowserError(InvalidRequest, NegativeMaxTextChars)))
          else CreateTrying);
      case TryAcquire(a) =>
        if slots < capacity {
          slots := slots + 1;
          MoveCall(a, CreateHolding);
        } else {
          MoveCall(a, CreateReturned(None, Some(BrowserError(Overloaded, LimitReached))));
        }
      case TokenFailed(a) =>
        slots := slots - 1;
        MoveCall(a, CreateReturned(None, Some(BrowserError(BrowserStartFailed, NoToken))));
    }

    method RegisterStep(a: ActorId, t: Token)
      requires Linked() && Enabled(View(), Register(a, t))
      modifies this`sessions, this`all, this`calls
      ensures Linked() && View() == Apply(old(View()), Register(a, t)) && Extends()
    {
      AddSession(t);
      MoveCall(a, CreateSpawning(t));
    }

    method SpawnStep(a: ActorId)
      requires Linked() && Enabled(View(), Spawn(a))
      modifies this`calls, all.Values
      ensures Linked() && View() == Apply(old(View()), Spawn(a))
    {
      var t := calls[a].t;
      StartRunner(t);
      MoveCall(a, CreateReturned(Some(t), None));
    }

    method SignalStep(step: Step)
      requires Linked() && Enabled(View(), step)
      requires step.CallSignal? || step.SignalGet? || step.SignalCheck? || step.SignalClose?
      modifies this`calls, all.Values
      ensures Linked() && View() == Apply(old(View()), step)
    {
      match step
      case CallSignal(a, sig, t) => MoveCall(a, SignalGetting(sig, t));
      case SignalGet(a) =>
        var pc := calls[a];
        MoveCall(a, if pc.t in sessions then SignalChecking(pc.sig, pc.t) else SignalReturned(Some(NOT_FOUND)));
      case SignalCheck(a, sig, t) =>
        var st := all[t].status;
        MoveCall(a, if st == Waiting then SignalClosing(sig, t) else SignalReturned(Some(NotWaitingError(sig, st))));
      case SignalClose(a, sig, t) =>
        if sig.ContinueSignal? {
          CloseContinue(t);
        } else {
          CloseCancel(t);
        }
        MoveCall(a, SignalReturned(None));
    }

    method StatusStep(step: Step)
      requires Linked() && Enabled(View(), step)
      requires step.CallStatus? || step.StatusGet? || step.StatusRead?
      modifies this`calls
      ensures Linked() && View() == Apply(old(View()), step)
    {
      match step
      case CallStatus(a, t) => MoveCall(a, StatusGetting(t));
      case StatusGet(a) =>
        MoveCall(a, if calls[a].t in sessions then StatusReading(calls[a].t)
          else StatusReturned(None, Some(NOT_FOUND)));
      case StatusRead(a) =>
        var s := all[calls[a].t];
        var out := StatusView(s.status, None);
        if s.status == Completed || s.status == Failed {
          out := out.(result := s.result);
        }
        MoveCall(a, StatusReturned(Some(out), None));
    }

    method ShutdownCloseStep(a: ActorId, t: Token)
      requires Linked() && Enabled(View(), ShutdownClose(a, t))
      modifies this`calls, all.Values
      ensures Linked() && View() == Apply(old(View()), ShutdownClose(a, t))
    {
      CloseCancel(t);
      MoveCall(a, ShutdownWaiting(calls[a].tokens, calls[a].i));
    }

    method ShutdownStep(step: Step)
      requires Linked() && Enabled(View(), step)
      requires step.CallShutdown? || step.ShutdownSnapshot? || step.ShutdownGet? || step.ShutdownAwait?
      modifies this`calls
      ensures Linked() && View() == Apply(old(View()), step)
    {
      match step
      case CallShutdown(a) => MoveCall(a, ShutdownStarting);
      case ShutdownSnapshot(a, tokens) => MoveCall(a, ShutdownAt(tokens, 0));
      case ShutdownGet(a) =>
        var pc := calls[a];
        MoveCall(a, if pc.i == |pc.tokens| then ShutdownReturned(pc.tokens)
                    else if pc.tokens[pc.i] in sessions then ShutdownClosing(pc.tokens, pc.i)
                    else ShutdownAt(pc.tokens, pc.i + 1));
      case ShutdownAwait(a) => MoveCall(a, ShutdownAt(calls[a].tokens, calls[a].i + 1));
    }

    method RunnerStep(t: Token, c: Choice)
      requires Linked() && Enabled(View(), Runner(t, c))
      modifies this`sessions, this`slots, all.Values
      ensures Linked() && View() == Apply(old(View()), Runner(t, c))
    {
      var pc := all[t].pc;
      AdvanceRunner(t, c);
      if pc.DeferRemove? {
        Unregister(t);
      } else if pc.DeferRelease? {
        ReleaseSlot();
      }
    }

    method Perform(step: Step)
      requires Linked() && Enabled(View(), step)
      modifies this`slots, this`sessions, this`all, this`calls, this`serviceDone, all.Values
      ensures Linked() && View() == Apply(old(View()), step) && Extends()
    {
      match step
      case Register(a, t) => RegisterStep(a, t);
      case Spawn(a) => SpawnStep(a);
      case Runner(t, c) => RunnerStep(t, c);
      case ServiceStop => serviceDone := true;
      case ShutdownClose(a, t) => ShutdownCloseStep(a, t);
      case CallCreate(_, _) => CreateStep(step);
      case TryAcquire(_) => CreateStep(step);
      case TokenFailed(_) => CreateStep(step);
      case CallShutdown(_) => ShutdownStep(step);
      case ShutdownSnapshot(_, _) => ShutdownStep(step);
      case ShutdownGet(_) => ShutdownStep(step);
      case ShutdownAwait(_) => ShutdownStep(step);
      case CallSignal(_, _, _) => SignalStep(step);
      case SignalGet(_) => SignalStep(step);
      case SignalCheck(_, _, _) => SignalStep(step);
      case SignalClose(_, _, _) => SignalStep(step);
      case CallStatus(_, _) => StatusStep(step);
      case StatusGet(_) => StatusStep(step);
      case StatusRead(_) => StatusStep(step);
    }

    // One step of the protocol, recorded in the run.
    method Do(step: Step)
      requires Valid() && Enabled(View(), step)
      modifies this, all.Values
      ensures Valid() && View() == Apply(old(View()), step) && Extends() && run == old(run) + [step]
    {
      ExtendRun(maxSessions, run, step);
      Perform(step);
      run := run + [step];
    }

    // ---- Interleaving ----------------------------------------------------------------

    // Any number of steps of actors other than call me and the runner of session mine.
    method Interfere(me: Option<ActorId>, mine: Option<Token>)
      requires Valid()
      requires me.Some? ==> me.value in calls
      requires mine.Some? ==> mine.value in all && !all[mine.value].pc.NotSpawned?
      modifies this, all.Values
      ensures Valid() && Extends() && old(run) <= run
      ensures me.Some? ==> me.value in calls && calls[me.value] == old(calls[me.value])
      ensures mine.Some? ==> all[mine.value].pc == old(all[mine.value].pc)
    {
      var n: nat :| true;
      for i := 0 to n
        invariant Valid() && Extends() && old(run) <= run
        invariant me.Some? ==> me.value in calls && calls[me.value] == old(calls[me.value])
        invariant mine.Some? ==> all[mine.value].pc == old(all[mine.value].pc)
      {
        var step: Step :| true;
        if Enabled(View(), step) && Foreign(step, me, mine) {
          ForeignStep(step, me, mine);
        }
      }
    }

    predicate Foreign(step: Step, me: Option<ActorId>, mine: Option<Token>) {
      && (step.Runner? ==> mine != Some(step.t))
      && (!step.Runner? && !step.ServiceStop? ==> me != Some(step.a))
    }

    method ForeignStep(step: Step, me: Option<ActorId>, mine: Option<Token>)
      requires Valid() && Enabled(View(), step) && Foreign(step, me, mine)
      requires me.Some? ==> me.value in calls
      requires mine.Some? ==> mine.value in all && !all[mine.value].pc.NotSpawned?
      modifies this, all.Values
      ensures Valid() && Extends() && run == old(run) + [step]
      ensures me.Some? ==> me.value in calls && calls[me.value] == old(calls[me.value])
      ensures mine.Some? ==> all[mine.value].pc == old(all[mine.value].pc)
    {
      ghost var s := View();
      ReachableInv(maxSessions, run);
      if me.Some? {
        OtherCallsStay(s, step, me.value);
      }
      if mine.Some? {
        OtherRunnersStay(s, step, mine.value);
        assert s.sessions[mine.value].pc == all[mine.value].pc;
      }
      Do(step);
      assert mine.Some? ==> View().sessions[mine.value].pc == all[mine.value].pc;
    }

    // ---- The runner goroutine ----------------------------------------------------------

    // One statement of the runner of session t, then everyone else.
    method Own(t: Token, c: Choice)
      requires Valid() && t in all && RunnerEnabled(all[t].View(), c, serviceDone)
      modifies this, all.Values
      ensures Valid() && Extends() && old(run) <= run
      ensures all[t].pc == RunnerNext(old(all[t].View()), c).pc
    {
      DoOwn(t, c);
      ghost var steps := run;
      Interfere(None, Some(t));
      RunsOn(old(run), steps, run);
    }

    method DoOwn(t: Token, c: Choice)
      requires Valid() && t in all && RunnerEnabled(all[t].View(), c, serviceDone)
      modifies this, all.Values
      ensures Valid() && Extends() && old(run) <= run
      ensures all[t].pc == RunnerNext(old(all[t].View()), c).pc && !all[t].pc.NotSpawned?
    {
      ghost var s := View();
      assert s.sessions[t] == all[t].View();
      ReceivesNeverBlock(maxSessions, run, 0, t);
      RunnerMovesPhase(s.sessions[t], c, s.serviceDone);
      Do(Runner(t, c));
      assert View().sessions[t] == all[t].View();
    }

    // startInteractive (worker.go:534-647): either it hands over a live browser, or
    // everything it made is gone and its error is left for fail.
    method StartInteractive(t: Token)
      requires Valid() && t in all && all[t].pc.Starting?
      modifies this, all.Values
      ensures Valid() && Extends() && old(run) <= run
      ensures all[t].pc.StartFailed? || all[t].pc.Announcing?
      ensures all[t].browser == all[t].profile.Live? == all[t].handed == all[t].pc.Announcing?
    {
      StartOrAbort(t);
      StartFacts(t);
    }

    lemma StartFacts(t: Token)
      requires Valid() && t in all && (all[t].pc.StartFailed? || all[t].pc.Announcing?)
      ensures all[t].browser == all[t].profile.Live? == all[t].handed == all[t].pc.Announcing?
    {
      ReachableInv(maxSessions, run);
      assert View().sessions[t] == all[t].View();
    }

    method StartOrAbort(t: Token)
      requires Valid() && t in all && all[t].pc.Starting?
      modifies this, all.Values
      ensures Valid() && Extends() && old(run) <= run
      ensures all[t].pc.StartFailed? || all[t].pc.Announcing?
    {
      var c: Choice :| c.FailEarly? || c.MakeProfile?;
      Own(t, c);
      if all[t].pc.Launching? {
        ghost var steps := run;
        Launch(t);
        RunsOn(old(run), steps, run);
      }
    }

    method Launch(t: Token)
      requires Valid() && t in all && all[t].pc.Launching?
      modifies this, all.Values
      ensures Valid() && Extends() && old(run) <= run
      ensures all[t].pc.StartFailed? || all[t].pc.Announcing?
    {
      var c: Choice :| c.FailLaunch? || c.Launched?;
      Own(t, c);
      if all[t].pc.AbortKill? {
        ghost var steps := run;
        Abort(t);
        RunsOn(old(run), steps, run);
      }
    }

    method Abort(t: Token)
      requires Valid() && t in all && all[t].pc.AbortKill?
      modifies this, all.Values
      ensures Valid() && Extends() && old(run) <= run
      ensures all[t].pc.StartFailed?
    {
      Own(t, Proceed);
      ghost var steps := run;
      Own(t, Proceed);
      RunsOn(old(run), steps, run);
    }

    // The select of runSession: any ready case may be taken, and the timer may
    // fire at any time. The case taken was ready: a Continue, or a request to
    // cancel, had closed its channel.
    method Select(t: Token)
      requires Valid() && t in all && all[t].pc.Selecting?
      modifies this, all.Values
      ensures Valid() && Extends() && old(run) <= run
      ensures all[t].pc.Extracting? || all[t].pc.Cancelling? || all[t].pc.Expiring?
      ensures all[t].pc.Extracting? ==> WasContinued(maxSessions, run, t)
      ensures all[t].pc.Cancelling? ==> WasCancelled(maxSessions, run, t)
    {
      var c := ReadyCase(t);
      Own(t, c);
      TakenWasReady(t);
    }

    method ReadyCase(t: Token) returns (c: Choice)
      requires t in all && all[t].pc.Selecting?
      ensures RunnerEnabled(all[t].View(), c, serviceDone)
      ensures var pc := RunnerNext(all[t].View(), c).pc; pc.Extracting? || pc.Cancelling? || pc.Expiring?
    {
      c :| true;
      if !RunnerEnabled(all[t].View(), c, serviceDone) {
        c := TakeTimeout;
      }
    }

    lemma TakenWasReady(t: Token)
      requires Valid() && t in all
      ensures all[t].pc.Extracting? ==> WasContinued(maxSessions, run, t)
      ensures all[t].pc.Cancelling? ==> WasCancelled(maxSessions, run, t)
    {
      assert View().sessions[t] == all[t].View();
      if all[t].pc.Extracting? {
        CompletedWasContinued(maxSessions, run, t);
      } else if all[t].pc.Cancelling? {
        CancelledWasRequested(maxSessions, run, t);
      }
    }

    // Extraction, or the status change of the other cases.
    method Conclude(t: Token)
      requires Valid() && t in all && (all[t].pc.Extracting? || all[t].pc.Cancelling? || all[t].pc.Expiring?)
      modifies this, all.Values
      ensures Valid() && Extends() && old(run) <= run
      ensures all[t].pc.DeferCancel?
    {
      if all[t].pc.Extracting? {
        Extract(t);
      }
      ghost var steps := run;
      Own(t, Proceed);
      RunsOn(old(run), steps, run);
    }

    // extractAfterInteraction (worker.go:652-700), which may return any result.
    method Extract(t: Token)
      requires Valid() && t in all && all[t].pc.Extracting?
      modifies this, all.Values
      ensures Valid() && Extends() && old(run) <= run
      ensures all[t].pc.Storing?
    {
      var res: BrowserResult :| true;
      if !WellFormedResult(res) {
        res := FailedResult(BrowserError(ExtractionFailed, PageExtractionFailed));
      }
      Own(t, Extracted(res));
    }

    // The body of runSession up to its deferred blocks.
    method RunBody(t: Token)
      requires Valid() && t in all && all[t].pc.Starting?
      modifies this, all.Values
      ensures Valid() && Extends() && old(run) <= run
      ensures all[t].pc.DeferCancel?
    {
      StartAndAnnounce(t);
      if all[t].pc.Selecting? {
        ghost var steps := run;
        AwaitAndConclude(t);
        RunsOn(old(run), steps, run);
      }
    }

    method StartAndAnnounce(t: Token)
      requires Valid() && t in all && all[t].pc.Starting?
      modifies this, all.Values
      ensures Valid() && Extends() && old(run) <= run
      ensures all[t].pc.Selecting? || all[t].pc.DeferCancel?
    {
      StartInteractive(t);
      ghost var steps := run;
      Own(t, Proceed); // fail(result.Error) or setStatus(waiting)
      RunsOn(old(run), steps, run);
    }

    method AwaitAndConclude(t: Token)
      requires Valid() && t in all && all[t].pc.Selecting?
      modifies this, all.Values
      ensures Valid() && Extends() && old(run) <= run
      ensures all[t].pc.DeferCancel?
    {
      Select(t);
      ghost var steps := run;
      Conclude(t);
      RunsOn(old(run), steps, run);
    }

    // The deferred statements, in the order the runtime runs them.
    method RunDefers(t: Token)
      requires Valid() && t in all && all[t].pc.DeferCancel?
      modifies this, all.Values
      ensures Valid() && Extends() && old(run) <= run
      ensures all[t].pc.Finished?
    {
      while !all[t].pc.Finished?
        invariant Valid() && Extends() && old(run) <= run && t in all && !Undecided(all[t].pc)
        decreases RunnerRank(all[t].pc)
      {
        DeferOne(t);
      }
    }

    method DeferOne(t: Token)
      requires Valid() && t in all && !Undecided(all[t].pc) && !all[t].pc.Finished?
      modifies this, all.Values
      ensures Valid() && Extends() && old(run) <= run
      ensures !Undecided(all[t].pc) && RunnerRank(all[t].pc) < RunnerRank(old(all[t].pc))
    {
      DefersFollow(all[t].View(), serviceDone);
      Own(t, Proceed);
    }

    static lemma DefersFollow(x: Session, serviceDone: bool)
      requires !Undecided(x.pc) && !x.pc.Finished?
      ensures RunnerEnabled(x, Proceed, serviceDone)
      ensures !Undecided(RunnerNext(x, Proceed).pc) && RunnerRank(RunnerNext(x, Proceed).pc) < RunnerRank(x.pc)
    {
    }

    lemma FinishedFacts(t: Token)
      requires Valid() && t in all && all[t].pc.Finished?
      ensures t !in sessions && all[t].doneClosed && !all[t].profile.Live? && !all[t].browser
      ensures all[t].status != Waiting && ResultMatchesStatus(all[t].View())
      ensures Outcome.OutcomeHasCause(maxSessions, run, t)
    {
      ReachableInv(maxSessions, run);
      assert View().sessions[t] == all[t].View();
      assert t !in View().registry;
      Outcome.DecidedHasCause(maxSessions, run, t);
    }

    // Whatever the other actors do, the runner ends with its session decided,
    // unregistered and signalled as done, and with no browser or profile left.
    method RunSession(t: Token)
      requires Valid() && t in all && all[t].pc.Starting?
      modifies this, all.Values
      ensures Valid() && Extends() && old(run) <= run
      ensures t !in sessions && all[t].doneClosed && !all[t].profile.Live? && !all[t].browser
      ensures all[t].status != Waiting && ResultMatchesStatus(all[t].View())
      ensures Outcome.OutcomeHasCause(maxSessions, run, t)
    {
      RunBody(t);
      ghost var steps := run;
      RunDefers(t);
      RunsOn(old(run), steps, run);
      FinishedFacts(t);
    }

    // ---- Create ------------------------------------------------------------------------

    // The token that the random source draws, None if it fails. Tokens are assumed
    // fresh: drawing one that was given out before counts as a failure.
    method GenerateToken(random: Option<Token>) returns (t: Option<Token>)
      ensures t == if random.Some? && random.value !in all then random else None
    {
      t := if random.Some? && random.value in all then None else random;
    }

    // Since step `from`, at step k, every slot was in use.
    ghost predicate WasFull(from: nat, k: nat)
      reads this
    {
      && from <= k <= |run| && ValidRun(maxSessions, run[..k])
      && After(maxSessions, run[..k]).slots >= After(maxSessions, run[..k]).capacity
    }

    method BeginCreate(a: ActorId, maxTextChars: int)
      requires Valid() && a !in calls
      modifies this, all.Values
      ensures Valid() && Extends() && old(run) <= run && a in calls
      ensures calls[a] == if maxTextChars >= 0 then CreateTrying
        else CreateReturned(None, Some(BrowserError(InvalidRequest, NegativeMaxTextChars)))
    {
      Do(CallCreate(a, maxTextChars));
    }

    method TakeSlot(a: ActorId, ghost from: nat) returns (ok: bool)
      requires Valid() && from <= |run| && a in calls && calls[a] == CreateTrying
      modifies this, all.Values
      ensures Valid() && Extends() && old(run) <= run && a in calls
      ensures calls[a] == if ok then CreateHolding
        else CreateReturned(None, Some(BrowserError(Overloaded, LimitReached)))
      ensures !ok ==> exists k :: WasFull(from, k)
    {
      ok := slots < capacity;
      ghost var before := run;
      Do(TryAcquire(a));
      assert run[..|before|] == before;
      assert !ok ==> WasFull(from, |before|);
    }

    method GiveBackSlot(a: ActorId)
      requires Valid() && a in calls && calls[a] == CreateHolding
      modifies this, all.Values
      ensures Valid() && Extends() && old(run) <= run && a in calls
      ensures calls[a] == CreateReturned(None, Some(BrowserError(BrowserStartFailed, NoToken)))
    {
      ReceivesNeverBlock(maxSessions, run, a, 0);
      Do(TokenFailed(a));
    }

    method RegisterNew(a: ActorId, t: Token)
      requires Valid() && a in calls && calls[a] == CreateHolding && t !in all
      modifies this, all.Values
      ensures Valid() && Extends() && old(run) <= run && t in all
      ensures a in calls && calls[a] == CreateSpawning(t)
    {
      Do(Register(a, t));
      assert t in View().sessions;
    }

    method SpawnNew(a: ActorId, t: Token)
      requires Valid() && a in calls && calls[a] == CreateSpawning(t) && t in all
      modifies this, all.Values
      ensures Valid() && Extends() && old(run) <= run && t in all && !all[t].pc.NotSpawned?
      ensures a in calls && calls[a] == CreateReturned(Some(t), None)
    {
      Do(Spawn(a));
      assert View().sessions[t] == all[t].View();
    }

    // Create rejects as overloaded only if at some moment all slots were in use.
    method Create(a: ActorId, maxTextChars: int, random: Option<Token>) returns (token: Option<Token>, err: MaybeError)
      requires Valid() && a !in calls
      modifies this, all.Values
      ensures Valid() && Extends() && old(run) <= run
      ensures a in calls && calls[a] == CreateReturned(token, err) && (token.Some? <==> err.None?)
      ensures maxTextChars < 0 <==> err == Some(BrowserError(InvalidRequest, NegativeMaxTextChars))
      ensures err.Some? && maxTextChars >= 0 ==>
        || (err == Some(BrowserError(Overloaded, LimitReached)) && exists k :: WasFull(|old(run)|, k))
        || (err == Some(BrowserError(BrowserStartFailed, NoToken)) && (random.None? || random.value in all))
      ensures token.Some? ==>
        token == random && token.value in all && token.value !in old(all) && !all[token.value].pc.NotSpawned?
    {
      BeginCreate(a, maxTextChars);
      if maxTextChars < 0 {
        return None, Some(BrowserError(InvalidRequest, NegativeMaxTextChars));
      }
      ghost var steps := run;
      token, err := CreateAccepted(a, random, |old(run)|);
      RunsOn(old(run), steps, run);
    }

    // Create once its request is accepted (session.go:90-118).
    method CreateAccepted(a: ActorId, random: Option<Token>, ghost from: nat)
      returns (token: Option<Token>, err: MaybeError)
      requires Valid() && from <= |run| && a in calls && calls[a] == CreateTrying
      modifies this, all.Values
      ensures Valid() && Extends() && old(run) <= run
      ensures a in calls && calls[a] == CreateReturned(token, err) && (token.Some? <==> err.None?)
      ensures err.Some? ==>
        || (err == Some(BrowserError(Overloaded, LimitReached)) && exists k :: WasFull(from, k))
        || (err == Some(BrowserError(BrowserStartFailed, NoToken)) && (random.None? || random.value in all))
      ensures token.Some? ==>
        token == random && token.value in all && token.value !in old(all) && !all[token.value].pc.NotSpawned?
    {
      var ok := TakeSlotLater(a, from);
      if !ok {
        return None, Some(BrowserError(Overloaded, LimitReached));
      }
      ghost var steps := run;
      token, err := CreateWithSlot(a, random);
      RunsOn(old(run), steps, run);
    }

    method TakeSlotLater(a: ActorId, ghost from: nat) returns (ok: bool)
      requires Valid() && from <= |run| && a in calls && calls[a] == CreateTrying
      modifies this, all.Values
      ensures Valid() && Extends() && old(run) <= run && a in calls
      ensures calls[a] == if ok then CreateHolding
        else CreateReturned(None, Some(BrowserError(Overloaded, LimitReached)))
      ensures !ok ==> exists k :: WasFull(from, k)
    {
      Interfere(Some(a), None);
      ghost var steps := run;
      ok := TakeSlot(a, from);
      RunsOn(old(run), steps, run);
    }

    // Create once it holds a slot (session.go:97-118).
    method CreateWithSlot(a: ActorId, random: Option<Token>) returns (token: Option<Token>, err: MaybeError)
      requires Valid() && a in calls && calls[a] == CreateHolding
      modifies this, all.Values
      ensures Valid() && Extends() && old(run) <= run
      ensures a in calls && calls[a] == CreateReturned(token, err) && (token.Some? <==> err.None?)
      ensures err.Some? ==>
        err == Some(BrowserError(BrowserStartFailed, NoToken)) && (random.None? || random.value in all)
      ensures token.Some? ==>
        token == random && token.value in all && token.value !in old(all) && !all[token.value].pc.NotSpawned?
    {
      Interfere(Some(a), None);
      ghost var steps := run;
      token := GenerateToken(random);
      if token.None? {
        GiveBackSlot(a);
        err := Some(BrowserError(BrowserStartFailed, NoToken));
      } else {
        StartSession(a, token.value);
        err := None;
      }
      RunsOn(old(run), steps, run);
    }

    // Registration, and later the go statement.
    method StartSession(a: ActorId, t: Token)
      requires Valid() && a in calls && calls[a] == CreateHolding && t !in all
      modifies this, all.Values
      ensures Valid() && Extends() && old(run) <= run && t in all && !all[t].pc.NotSpawned?
      ensures a in calls && calls[a] == CreateReturned(Some(t), None)
    {
      RegisterNew(a, t);
      ghost var steps := run;
      SpawnLater(a, t);
      RunsOn(old(run), steps, run);
    }

    method SpawnLater(a: ActorId, t: Token)
      requires Valid() && a in calls && calls[a] == CreateSpawning(t) && t in all
      modifies this, all.Values
      ensures Valid() && Extends() && old(run) <= run && t in all && !all[t].pc.NotSpawned?
      ensures a in calls && calls[a] == CreateReturned(Some(t), None)
    {
      Interfere(Some(a), None);
      ghost var steps := run;
      SpawnNew(a, t);
      RunsOn(old(run), steps, run);
    }

    // ---- Continue and Cancel ---------------------------------------------------------

    // Since step `from`, at step k, the session was unknown to the registry.
    ghost predicate UnknownAt(from: nat, k: nat, t: Token)
      reads this
    {
      from <= k <= |run| && ValidRun(maxSessions, run[..k]) && t !in After(maxSessions, run[..k]).registry
    }

    // Only Continue tells a completed or failed session from a cancelled one.
    static predicate SaysWhy(sig: Signal, status: Status, err: BrowserError) {
      && err.code == SessionExpired
      && err.message == if sig.ContinueSignal?
        && (status == Completed || status == Failed) then AlreadyCompleted else NoLongerWaiting
    }

    static lemma NotWaitingSaysWhy(sig: Signal, status: Status)
      ensures SaysWhy(sig, status, NotWaitingError(sig, status))
    {
    }

    // Since step `from`, at step k, the session was no longer waiting, and err says so.
    ghost predicate DecidedAt(from: nat, k: nat, sig: Signal, t: Token, err: BrowserError)
      reads this
    {
      && from <= k <= |run| && ValidRun(maxSessions, run[..k])
      && var s := After(maxSessions, run[..k]);
         t in s.sessions && s.sessions[t].status != Waiting && SaysWhy(sig, s.sessions[t].status, err)
    }

    method BeginSignal(a: ActorId, sig: Signal, t: Token)
      requires Valid() && a !in calls
      modifies this, all.Values
      ensures Valid() && Extends() && old(run) <= run
      ensures a in calls && calls[a] == SignalGetting(sig, t)
    {
      Do(CallSignal(a, sig, t));
    }

    method FindSession(a: ActorId, sig: Signal, t: Token, ghost from: nat) returns (err: MaybeError)
      requires Valid() && from <= |run| && a in calls && calls[a] == SignalGetting(sig, t)
      modifies this, all.Values
      ensures Valid() && Extends() && old(run) <= run
      ensures a in calls && calls[a] == if err.None? then SignalChecking(sig, t) else SignalReturned(err)
      ensures err.Some? ==>
        err == Some(BrowserError(SessionNotFound, SessionMissing)) && exists k :: UnknownAt(from, k, t)
    {
      err := if t in sessions then None else Some(NOT_FOUND);
      ghost var before := run;
      Do(SignalGet(a));
      assert run[..|before|] == before;
      assert err.Some? ==> UnknownAt(from, |before|, t);
    }

    method CheckWaiting(a: ActorId, sig: Signal, t: Token, ghost from: nat) returns (err: MaybeError)
      requires Valid() && from <= |run| && a in calls && calls[a] == SignalChecking(sig, t)
      modifies this, all.Values
      ensures Valid() && Extends() && old(run) <= run
      ensures a in calls && calls[a] == if err.None? then SignalClosing(sig, t) else SignalReturned(err)
      ensures err.Some? ==> exists k :: DecidedAt(from, k, sig, t, err.value)
    {
      ReachableInv(maxSessions, run);
      assert CallInv(View(), calls[a]);
      assert View().sessions[t] == all[t].View();
      err := if all[t].status == Waiting then None else Some(NotWaitingError(sig, all[t].status));
      NotWaitingSaysWhy(sig, all[t].status);
      ghost var before := run;
      Do(SignalCheck(a, sig, t));
      assert run[..|before|] == before;
      assert err.Some? ==> DecidedAt(from, |before|, sig, t, err.value);
    }

    method CloseSignal(a: ActorId, sig: Signal, t: Token)
      requires Valid() && a in calls && calls[a] == SignalClosing(sig, t)
      modifies this, all.Values
      ensures Valid() && Extends() && old(run) <= run
      ensures t in all && SignalledBefore(maxSessions, run, |run|, sig, t)
      ensures if sig.ContinueSignal? then all[t].continueClosed else all[t].cancelClosed
    {
      ReachableInv(maxSessions, run);
      assert CallInv(View(), calls[a]);
      Do(SignalClose(a, sig, t));
      assert View().sessions[t] == all[t].View();
      assert run[..|run| - 1] == old(run);
      ClosedNow(maxSessions, run, a, sig, t);
    }

    // Continue and Cancel. An accepted signal comes from a call that saw the
    // session waiting and then closed its channel; a rejected one from a moment
    // at which the session was unknown or no longer waiting.
    method Signal(a: ActorId, sig: Signal, t: Token) returns (err: MaybeError)
      requires Valid() && a !in calls
      modifies this, all.Values
      ensures Valid() && Extends() && old(run) <= run
      ensures err.None? ==> t in all && SignalledBefore(maxSessions, run, |run|, sig, t)
      ensures err.None? ==> if sig.ContinueSignal? then all[t].continueClosed else all[t].cancelClosed
      ensures err.Some? ==>
        || (err == Some(BrowserError(SessionNotFound, SessionMissing)) && exists k :: UnknownAt(|old(run)|, k, t))
        || (exists k :: DecidedAt(|old(run)|, k, sig, t, err.value))
    {
      StartSignal(a, sig, t);
      ghost var steps := run;
      err := SignalKnown(a, sig, t, |old(run)|);
      RunsOn(old(run), steps, run);
    }

    method StartSignal(a: ActorId, sig: Signal, t: Token)
      requires Valid() && a !in calls
      modifies this, all.Values
      ensures Valid() && Extends() && old(run) <= run
      ensures a in calls && calls[a] == SignalGetting(sig, t)
    {
      BeginSignal(a, sig, t);
      ghost var steps := run;
      Interfere(Some(a), None);
      RunsOn(old(run), steps, run);
    }

    method SignalKnown(a: ActorId, sig: Signal, t: Token, ghost from: nat) returns (err: MaybeError)
      requires Valid() && from <= |run| && a in calls && calls[a] == SignalGetting(sig, t)
      modifies this, all.Values
      ensures Valid() && Extends() && old(run) <= run
      ensures err.None? ==> t in all && SignalledBefore(maxSessions, run, |run|, sig, t)
      ensures err.None? ==> if sig.ContinueSignal? then all[t].continueClosed else all[t].cancelClosed
      ensures err.Some? ==>
        || (err == Some(BrowserError(SessionNotFound, SessionMissing)) && exists k :: UnknownAt(from, k, t))
        || (exists k :: DecidedAt(from, k, sig, t, err.value))
    {
      err := FindSession(a, sig, t, from);
      if err.None? {
        ghost var steps := run;
        err := SignalFound(a, sig, t, from);
        RunsOn(old(run), steps, run);
      }
    }

    method SignalFound(a: ActorId, sig: Signal, t: Token, ghost from: nat) returns (err: MaybeError)
      requires Valid() && from <= |run| && a in calls && calls[a] == SignalChecking(sig, t)
      modifies this, all.Values
      ensures Valid() && Extends() && old(run) <= run
      ensures err.None? ==> t in all && SignalledBefore(maxSessions, run, |run|, sig, t)
      ensures err.None? ==> if sig.ContinueSignal? then all[t].continueClosed else all[t].cancelClosed
      ensures err.Some? ==> exists k :: DecidedAt(from, k, sig, t, err.value)
    {
      err := CheckWaiting(a, sig, t, from);
      if err.None? {
        ghost var steps := run;
        CloseLater(a, sig, t);
        RunsOn(old(run), steps, run);
      }
    }

    method CloseLater(a: ActorId, sig: Signal, t: Token)
      requires Valid() && a in calls && calls[a] == SignalClosing(sig, t)
      modifies this, all.Values
      ensures Valid() && Extends() && old(run) <= run
      ensures t in all && SignalledBefore(maxSessions, run, |run|, sig, t)
      ensures if sig.ContinueSignal? then all[t].continueClosed else all[t].cancelClosed
    {
      Interfere(Some(a), None);
      ghost var steps := run;
      CloseSignal(a, sig, t);
      RunsOn(old(run), steps, run);
    }

    // ---- Shutdown ------------------------------------------------------------------------

    // The keys of the registry, in the arbitrary order a map is ranged over.
    method SnapshotTokens() returns (tokens: seq<Token>)
      ensures (set t | t in tokens) == sessions.Keys && |tokens| == |sessions.Keys|
    {
      tokens := [];
      var left := sessions.Keys;
      while left != {}
        invariant (set t | t in tokens) + left == sessions.Keys
        invariant |tokens| + |left| == |sessions.Keys|
        decreases left
      {
        var t :| t in left;
        tokens := tokens + [t];
        left := left - {t};
      }
    }

    method BeginShutdown(a: ActorId)
      requires Valid() && a !in calls
      modifies this, all.Values
      ensures Valid() && Extends() && old(run) <= run
      ensures a in calls && calls[a] == ShutdownStarting
    {
      Do(CallShutdown(a));
    }

    method TakeSnapshot(a: ActorId) returns (tokens: seq<Token>)
      requires Valid() && a in calls && calls[a] == ShutdownStarting
      modifies this, all.Values
      ensures Valid() && Extends() && old(run) <= run
      ensures a in calls && calls[a] == ShutdownAt(tokens, 0)
    {
      tokens := SnapshotTokens();
      Do(ShutdownSnapshot(a, tokens));
    }

    // s := m.get(t); if s == nil { continue }
    method NextToken(a: ActorId, tokens: seq<Token>, i: nat) returns (found: bool)
      requires Valid() && a in calls && calls[a] == ShutdownAt(tokens, i) && i < |tokens|
      modifies this, all.Values
      ensures Valid() && Extends() && old(run) <= run
      ensures a in calls && calls[a] == if found then ShutdownClosing(tokens, i) else ShutdownAt(tokens, i + 1)
    {
      found := tokens[i] in sessions;
      Do(ShutdownGet(a));
    }

    method CancelToken(a: ActorId, tokens: seq<Token>, i: nat)
      requires Valid() && a in calls && calls[a] == ShutdownClosing(tokens, i)
      modifies this, all.Values
      ensures Valid() && Extends() && old(run) <= run
      ensures a in calls && calls[a] == ShutdownWaiting(tokens, i)
    {
      ReachableInv(maxSessions, run);
      assert CallInv(View(), calls[a]);
      Do(ShutdownClose(a, tokens[i]));
    }

    // One fair round of <-s.doneCh: everyone else moves, then the session that
    // is waited for, or the Create call that has still to spawn its runner.
    method WaitRound(a: ActorId, tokens: seq<Token>, i: nat) returns (done: bool)
      requires Valid() && a in calls && calls[a] == ShutdownWaiting(tokens, i) && i < |tokens| && tokens[i] in all
      modifies this, all.Values
      ensures Valid() && Extends() && old(run) <= run && tokens[i] in all
      ensures a in calls && calls[a] == if done then ShutdownAt(tokens, i + 1) else ShutdownWaiting(tokens, i)
      ensures !done ==> RunnerRank(all[tokens[i]].pc) < RunnerRank(old(all[tokens[i]].pc))
    {
      ghost var s0, before := View(), run;
      Interfere(Some(a), None);
      assert run[..|before|] == before;
      assert s0.sessions[tokens[i]] == old(all[tokens[i]].View());
      RankAlongRun(maxSessions, run, |before|, tokens[i]);
      done := HelpAwaited(a, tokens, i);
    }

    method HelpAwaited(a: ActorId, tokens: seq<Token>, i: nat) returns (done: bool)
      requires Valid() && a in calls && calls[a] == ShutdownWaiting(tokens, i) && i < |tokens| && tokens[i] in all
      modifies this, all.Values
      ensures Valid() && Extends() && old(run) <= run && tokens[i] in all
      ensures a in calls && calls[a] == if done then ShutdownAt(tokens, i + 1) else ShutdownWaiting(tokens, i)
      ensures !done ==> RunnerRank(all[tokens[i]].pc) < RunnerRank(old(all[tokens[i]].pc))
    {
      KnownToken(a, tokens, i);
      done := all[tokens[i]].doneClosed;
      if done {
        EndWait(a, tokens, i);
      } else {
        HelpSession(a, tokens[i]);
      }
    }

    method EndWait(a: ActorId, tokens: seq<Token>, i: nat)
      requires Valid() && a in calls && calls[a] == ShutdownWaiting(tokens, i)
      requires i < |tokens| && tokens[i] in all && all[tokens[i]].doneClosed
      modifies this, all.Values
      ensures Valid() && Extends() && old(run) <= run && tokens[i] in all
      ensures a in calls && calls[a] == ShutdownAt(tokens, i + 1)
    {
      assert View().sessions[tokens[i]] == all[tokens[i]].View();
      Do(ShutdownAwait(a));
    }

    method HelpSession(a: ActorId, t: Token)
      requires Valid() && a in calls && calls[a].ShutdownWaiting? && t in all && !all[t].doneClosed
        && all[t].cancelClosed
      modifies this, all.Values
      ensures Valid() && Extends() && old(run) <= run && t in all
      ensures a in calls && calls[a] == old(calls[a])
      ensures RunnerRank(all[t].pc) < RunnerRank(old(all[t].pc))
    {
      ReachableInv(maxSessions, run);
      var step := StepTowardsDone(t);
      ghost var s := View();
      assert s.sessions[t] == all[t].View();
      HeadRankDrops(s, step, t);
      OtherCallsStay(s, step, a);
      Do(step);
      assert View().sessions[t] == all[t].View();
    }

    // An enabled step of the session's runner, or of the call that is to spawn it.
    method StepTowardsDone(t: Token) returns (step: Step)
      requires Valid() && Inv(View()) && t in all && !all[t].doneClosed && all[t].cancelClosed
      ensures Enabled(View(), step)
      ensures (step.Runner? && step.t == t) || (step.Spawn? && SpawningAt(View(), step.a, t))
    {
      assert View().sessions[t] == all[t].View() && SessionInv(all[t].View());
      if all[t].pc.NotSpawned? {
        assert exists b :: SpawningAt(View(), b, t);
        var b :| b in calls && calls[b] == CreateSpawning(t);
        step := Spawn(b);
      } else {
        step := Runner(t, UnaidedChoice(all[t].View()));
      }
    }

    // <-s.doneCh; it ends because every round lowers the session's rank.
    method AwaitDone(a: ActorId, tokens: seq<Token>, i: nat)
      requires Valid() && a in calls && calls[a] == ShutdownWaiting(tokens, i) && i < |tokens| && tokens[i] in all
      modifies this, all.Values
      ensures Valid() && Extends() && old(run) <= run
      ensures a in calls && calls[a] == ShutdownAt(tokens, i + 1)
    {
      var done := false;
      while !done
        invariant Valid() && Extends() && old(run) <= run && tokens[i] in all
        invariant a in calls && calls[a] == if done then ShutdownAt(tokens, i + 1) else ShutdownWaiting(tokens, i)
        decreases !done, RunnerRank(all[tokens[i]].pc)
      {
        done := WaitRound(a, tokens, i);
      }
    }

    method FinishToken(a: ActorId, tokens: seq<Token>, i: nat)
      requires Valid() && a in calls && calls[a] == ShutdownAt(tokens, i) && i < |tokens|
      modifies this, all.Values
      ensures Valid() && Extends() && old(run) <= run
      ensures a in calls && calls[a] == ShutdownAt(tokens, i + 1)
    {
      var found := NextTokenLater(a, tokens, i);
      if found {
        ghost var steps := run;
        CancelAndAwait(a, tokens, i);
        RunsOn(old(run), steps, run);
      }
    }

    method NextTokenLater(a: ActorId, tokens: seq<Token>, i: nat) returns (found: bool)
      requires Valid() && a in calls && calls[a] == ShutdownAt(tokens, i) && i < |tokens|
      modifies this, all.Values
      ensures Valid() && Extends() && old(run) <= run
      ensures a in calls && calls[a] == if found then ShutdownClosing(tokens, i) else ShutdownAt(tokens, i + 1)
    {
      Interfere(Some(a), None);
      ghost var steps := run;
      found := NextToken(a, tokens, i);
      RunsOn(old(run), steps, run);
    }

    method CancelAndAwait(a: ActorId, tokens: seq<Token>, i: nat)
      requires Valid() && a in calls && calls[a] == ShutdownClosing(tokens, i)
      modifies this, all.Values
      ensures Valid() && Extends() && old(run) <= run
      ensures a in calls && calls[a] == ShutdownAt(tokens, i + 1)
    {
      CancelTokenLater(a, tokens, i);
      ghost var steps := run;
      KnownToken(a, tokens, i);
      AwaitDone(a, tokens, i);
      RunsOn(old(run), steps, run);
    }

    method CancelTokenLater(a: ActorId, tokens: seq<Token>, i: nat)
      requires Valid() && a in calls && calls[a] == ShutdownClosing(tokens, i)
      modifies this, all.Values
      ensures Valid() && Extends() && old(run) <= run
      ensures a in calls && calls[a] == ShutdownWaiting(tokens, i)
    {
      Interfere(Some(a), None);
      ghost var steps := run;
      CancelToken(a, tokens, i);
      RunsOn(old(run), steps, run);
    }

    lemma KnownToken(a: ActorId, tokens: seq<Token>, i: nat)
      requires Valid() && a in calls && calls[a] == ShutdownWaiting(tokens, i)
      ensures i < |tokens| && tokens[i] in all && all[tokens[i]].cancelClosed
    {
      ReachableInv(maxSessions, run);
      assert CallInv(View(), calls[a]);
      assert View().sessions[tokens[i]] == all[tokens[i]].View();
    }

    method ReturnShutdown(a: ActorId, tokens: seq<Token>)
      requires Valid() && a in calls && calls[a] == ShutdownAt(tokens, |tokens|)
      modifies this, all.Values
      ensures Valid() && Extends() && old(run) <= run
      ensures forall j :: 0 <= j < |tokens| ==> tokens[j] in all && all[tokens[j]].doneClosed
      ensures exists k: nat :: SnapshotAt(maxSessions, run, k, a, tokens)
    {
      Do(ShutdownGet(a));
      ReachableInv(maxSessions, run);
      assert CallInv(View(), calls[a]);
      LoopHasSnapshot(maxSessions, run, a, tokens);
      forall j | 0 <= j < |tokens| ensures tokens[j] in all && all[tokens[j]].doneClosed {
        assert View().sessions[tokens[j]].doneClosed;
      }
    }

    // Shutdown terminates, and when it returns every session that was
    // registered when it took its snapshot has closed doneCh.
    method Shutdown(a: ActorId) returns (tokens: seq<Token>)
      requires Valid() && a !in calls
      modifies this, all.Values
      ensures Valid() && Extends() && old(run) <= run
      ensures forall j :: 0 <= j < |tokens| ==> tokens[j] in all && all[tokens[j]].doneClosed
      ensures exists k: nat :: SnapshotAt(maxSessions, run, k, a, tokens)
    {
      BeginShutdown(a);
      Interfere(Some(a), None);
      tokens := TakeSnapshot(a);
      for i := 0 to |tokens|
        invariant Valid() && Extends() && old(run) <= run
        invariant a in calls && calls[a] == ShutdownAt(tokens, i)
      {
        FinishToken(a, tokens, i);
      }
      ReturnShutdown(a, tokens);
    }

    // ---- Status --------------------------------------------------------------------------

    // The status, and the result of a session that is completed or failed.
    static predicate Shows(view: StatusView, x: Session) {
      && view.status == x.status
      && view.result == match x.status
                        case Completed => x.result
                        case Failed => x.result
                        case Waiting => None
                        case Cancelled => None
    }

    // Since step `from`, at step k, the session looked like view.
    ghost predicate SeenAt(from: nat, k: nat, t: Token, view: StatusView)
      reads this
    {
      && from <= k <= |run| && ValidRun(maxSessions, run[..k])
      && var s := After(maxSessions, run[..k]);
         t in s.sessions && Shows(view, s.sessions[t])
    }

    method BeginStatus(a: ActorId, t: Token)
      requires Valid() && a !in calls
      modifies this, all.Values
      ensures Valid() && Extends() && old(run) <= run
      ensures a in calls && calls[a] == StatusGetting(t)
    {
      Do(CallStatus(a, t));
    }

    method FindForStatus(a: ActorId, t: Token, ghost from: nat) returns (found: bool)
      requires Valid() && from <= |run| && a in calls && calls[a] == StatusGetting(t)
      modifies this, all.Values
      ensures Valid() && Extends() && old(run) <= run
      ensures a in calls && (found ==> calls[a] == StatusReading(t))
      ensures !found ==> exists k :: UnknownAt(from, k, t)
    {
      found := t in sessions;
      ghost var before := run;
      Do(StatusGet(a));
      assert run[..|before|] == before;
      assert !found ==> UnknownAt(from, |before|, t);
    }

    method ReadStatus(a: ActorId, t: Token, ghost from: nat) returns (view: StatusView)
      requires Valid() && from <= |run| && a in calls && calls[a] == StatusReading(t)
      modifies this, all.Values
      ensures Valid() && Extends() && old(run) <= run
      ensures ViewMatches(view) && exists k :: SeenAt(from, k, t, view)
    {
      ReachableInv(maxSessions, run);
      assert CallInv(View(), calls[a]);
      ViewOfMatches(View().sessions[t]);
      ghost var before := run;
      Do(StatusRead(a));
      view := calls[a].view.value;
      assert run[..|before|] == before && SeenAt(from, |before|, t, view);
    }

    // Status answers with what the session looked like at one moment of the call.
    method GetStatus(a: ActorId, t: Token) returns (view: Option<StatusView>, err: MaybeError)
      requires Valid() && a !in calls
      modifies this, all.Values
      ensures Valid() && Extends() && old(run) <= run
      ensures view.Some? <==> err.None?
      ensures view.Some? ==> ViewMatches(view.value) && exists k :: SeenAt(|old(run)|, k, t, view.value)
      ensures err.Some? ==>
        err == Some(BrowserError(SessionNotFound, SessionMissing)) && exists k :: UnknownAt(|old(run)|, k, t)
    {
      BeginStatus(a, t);
      Interfere(Some(a), None);
      var found := FindForStatus(a, t, |old(run)|);
      if !found {
        return None, Some(NOT_FOUND);
      }
      Interfere(Some(a), None);
      var v := ReadStatus(a, t, |old(run)|);
      view, err := Some(v), None;
    }
  }
}
