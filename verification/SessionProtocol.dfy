// The interactive-session protocol of internal/browser/session.go as a
// transition system. Every actor (Create, Continue, Cancel, Status, Shutdown
// and one runner goroutine per session) has a program counter; one Step is one
// critical section, one channel operation, or one foreign call with its outcome.
//
// Each "select on a channel, else close it" (session.go:141-145, 162-166,
// 203-207) is one atomic step: the source performs it outside any lock, so this
// is an assumption of the model.
module SessionProtocol {
  import opened Models

  type Token = nat
  type ActorId = nat

  // Program counter of runSession; the comment names the statement that is next.
  datatype RunnerPC =
    | NotSpawned                      // registered; the `go` statement has not run
    | Starting                        // startInteractive, no profile directory yet
    | Launching                       // profile and browser context exist, start-up in progress
    | AbortKill(err: BrowserError)    // startInteractive: cancelAndKill()
    | AbortCleanup(err: BrowserError) // startInteractive: cleanupFn()
    | StartFailed(err: BrowserError)  // fail(result.Error)
    | Announcing                      // setStatus(waiting)
    | Selecting                       // select
    | Cancelling                      // setStatus(cancelled)
    | Expiring                        // fail(session expired)
    | Extracting                      // extractAfterInteraction
    | Storing(res: BrowserResult)     // store status and result
    | DeferCancel                     // second deferred block: cancelBrowser()
    | DeferCleanup                    //                        cleanup()
    | DeferClose                      // first deferred block: close(doneCh)
    | DeferRemove                     //                       delete(m.sessions, token)
    | DeferRelease                    //                       <-m.slots
    | Finished

  // Life of the temporary profile directory of one session.
  datatype Profile = NotMade | Live | Removed

  datatype Session = Session(
    status: Status,
    result: Option<BrowserResult>,
    continueClosed: bool,
    cancelClosed: bool,
    doneClosed: bool,
    pc: RunnerPC,
    profile: Profile,
    browser: bool,   // the Chromium process and its contexts are alive
    handed: bool     // startInteractive returned real cancel and cleanup functions
  )

  // The state Create gives a new session.
  const FRESH_SESSION := Session(Waiting, None, false, false, false, NotSpawned, NotMade, false, false)

  // Outcome of the runner's next operation.
  datatype Choice =
    | FailEarly(err: BrowserError)    // startInteractive fails before a profile exists
    | MakeProfile                     // MkdirTemp succeeds and the browser context is created
    | FailLaunch(err: BrowserError)   // start-up, interception set-up or navigation fails
    | Launched
    | TakeContinue | TakeCancel | TakeTimeout | TakeServiceDone
    | Extracted(res: BrowserResult)
    | Proceed

  // What extractAfterInteraction returns (worker.go:652-700).
  predicate WellFormedResult(r: BrowserResult) {
    || (r.status == Completed && r.error.None?)
    || (r.status == Failed && r.error.Some?)
  }

  predicate RunnerEnabled(x: Session, c: Choice, serviceDone: bool) {
    match x.pc
    case NotSpawned => false
    case Finished => false
    case Starting => c.FailEarly? || c.MakeProfile?
    case Launching => c.FailLaunch? || c.Launched?
    case Selecting =>
      || (c.TakeContinue? && x.continueClosed)
      || (c.TakeCancel? && x.cancelClosed)
      || c.TakeTimeout?
      || (c.TakeServiceDone? && serviceDone)
    case Extracting => c.Extracted? && WellFormedResult(c.res)
    case _ => c.Proceed?
  }

  // The part of a runner step that only touches its own session.
  function RunnerNext(x: Session, c: Choice): Session {
    match x.pc
    case NotSpawned => x
    case Finished => x
    case Starting =>
      if c.FailEarly? then x.(pc := StartFailed(c.err)) else x.(pc := Launching, profile := Live, browser := true)
    case Launching =>
      if c.FailLaunch? then x.(pc := AbortKill(c.err)) else x.(pc := Announcing, handed := true)
    case AbortKill(err) => x.(pc := AbortCleanup(err), browser := false)
    case AbortCleanup(err) => x.(pc := StartFailed(err), profile := Removed)
    case StartFailed(err) => x.(pc := DeferCancel, status := Failed, result := Some(FailedResult(err)))
    case Announcing => x.(pc := Selecting, status := Waiting)
    case Selecting =>
      (match c
       case TakeContinue => x.(pc := Extracting)
       case TakeTimeout => x.(pc := Expiring)
       case _ => x.(pc := Cancelling))
    case Cancelling => x.(pc := DeferCancel, status := Cancelled)
    case Expiring =>
      x.(pc := DeferCancel, status := Failed,
         result := Some(FailedResult(BrowserError(SessionExpired, SessionTimedOut))))
    case Extracting => if c.Extracted? then x.(pc := Storing(c.res)) else x
    case Storing(res) =>
      x.(pc := DeferCancel, status := if res.error.Some? then Failed else Completed, result := Some(res))
    case DeferCancel => x.(pc := DeferCleanup, browser := if x.handed then false else x.browser)
    case DeferCleanup => x.(pc := DeferClose, profile := if x.handed then Removed else x.profile)
    case DeferClose => x.(pc := DeferRemove, doneClosed := true)
    case DeferRemove => x.(pc := DeferRelease)
    case DeferRelease => x.(pc := Finished)
  }

  datatype Signal = ContinueSignal | CancelSignal

  datatype StatusView = StatusView(status: Status, result: Option<BrowserResult>)

  // Program counter of one call into the session manager.
  datatype CallPC =
    | CreateTrying
    | CreateHolding                               // slot acquired, session not registered
    | CreateSpawning(t: Token)                    // session registered, runner not spawned
    | CreateReturned(token: Option<Token>, error: MaybeError)
    | SignalGetting(sig: Signal, t: Token)
    | SignalChecking(sig: Signal, t: Token)       // has found the session; status check is next
    | SignalClosing(sig: Signal, t: Token)        // saw waiting; select and close is next
    | SignalReturned(error: MaybeError)
    | StatusGetting(t: Token)
    | StatusReading(t: Token)
    | StatusReturned(view: Option<StatusView>, error: MaybeError)
    | ShutdownStarting
    | ShutdownAt(tokens: seq<Token>, i: nat)      // loop head
    | ShutdownClosing(tokens: seq<Token>, i: nat)
    | ShutdownWaiting(tokens: seq<Token>, i: nat) // <-s.doneCh
    | ShutdownReturned(tokens: seq<Token>)

  datatype State = State(
    capacity: nat,
    slots: nat,                       // tokens in the slots channel
    registry: set<Token>,             // keys of m.sessions
    sessions: map<Token, Session>,    // every session ever registered
    calls: map<ActorId, CallPC>,
    serviceDone: bool
  )

  datatype Step =
    | CallCreate(a: ActorId, maxTextChars: int)
    | TryAcquire(a: ActorId)
    | TokenFailed(a: ActorId)
    | Register(a: ActorId, t: Token)
    | Spawn(a: ActorId)
    | CallSignal(a: ActorId, sig: Signal, t: Token)
    | SignalGet(a: ActorId)
    | SignalCheck(a: ActorId, sig: Signal, t: Token)
    | SignalClose(a: ActorId, sig: Signal, t: Token)
    | CallStatus(a: ActorId, t: Token)
    | StatusGet(a: ActorId)
    | StatusRead(a: ActorId)
    | CallShutdown(a: ActorId)
    | ShutdownSnapshot(a: ActorId, tokens: seq<Token>)
    | ShutdownGet(a: ActorId)
    | ShutdownClose(a: ActorId, t: Token)
    | ShutdownAwait(a: ActorId)
    | Runner(t: Token, c: Choice)
    | ServiceStop

  predicate At(s: State, a: ActorId, pc: CallPC) {
    a in s.calls && s.calls[a] == pc
  }

  // NewSessionManager (session.go:60-81) with its defaulting of the capacity.
  const DEFAULT_MAX_INTERACTIVE_SESSIONS := 2

  function Init(maxSessions: int): State {
    State(if maxSessions < 1 then DEFAULT_MAX_INTERACTIVE_SESSIONS else maxSessions, 0, {}, map[], map[], false)
  }

  predicate Enabled(s: State, step: Step) {
    match step
    case CallCreate(a, _) => a !in s.calls
    case CallSignal(a, _, _) => a !in s.calls
    case CallStatus(a, _) => a !in s.calls
    case CallShutdown(a) => a !in s.calls
    case TryAcquire(a) => At(s, a, CreateTrying)
    case TokenFailed(a) => At(s, a, CreateHolding) && s.slots > 0     // <-m.slots must not block
    case Register(a, t) => At(s, a, CreateHolding) && t !in s.sessions // tokens are fresh
    case Spawn(a) => a in s.calls && s.calls[a].CreateSpawning? && s.calls[a].t in s.sessions
    case SignalGet(a) => a in s.calls && s.calls[a].SignalGetting?
    case SignalCheck(a, sig, t) => At(s, a, SignalChecking(sig, t)) && t in s.sessions
    case SignalClose(a, sig, t) => At(s, a, SignalClosing(sig, t)) && t in s.sessions
    case StatusGet(a) => a in s.calls && s.calls[a].StatusGetting?
    case StatusRead(a) => a in s.calls && s.calls[a].StatusReading? && s.calls[a].t in s.sessions
    case ShutdownSnapshot(a, tokens) =>
      At(s, a, ShutdownStarting) && (set t | t in tokens) == s.registry && |tokens| == |s.registry|
    case ShutdownGet(a) => a in s.calls && s.calls[a].ShutdownAt? && s.calls[a].i <= |s.calls[a].tokens|
    case ShutdownClose(a, t) =>
      && a in s.calls && s.calls[a].ShutdownClosing?
      && s.calls[a].i < |s.calls[a].tokens| && t == s.calls[a].tokens[s.calls[a].i] && t in s.sessions
    case ShutdownAwait(a) =>
      && a in s.calls && s.calls[a].ShutdownWaiting?
      && s.calls[a].i < |s.calls[a].tokens|
      && var t := s.calls[a].tokens[s.calls[a].i]; t in s.sessions && s.sessions[t].doneClosed
    case Runner(t, c) =>
      && t in s.sessions
      && RunnerEnabled(s.sessions[t], c, s.serviceDone)
      && (s.sessions[t].pc.DeferRelease? ==> s.slots > 0)            // <-m.slots must not block
    case ServiceStop => true
  }

  function WithCall(s: State, a: ActorId, pc: CallPC): State {
    s.(calls := s.calls[a := pc])
  }

  function NotWaitingError(sig: Signal, status: Status): BrowserError {
    if sig.ContinueSignal? && (status == Completed || status == Failed)
    then BrowserError(SessionExpired, AlreadyCompleted)
    else BrowserError(SessionExpired, NoLongerWaiting)
  }

  const NOT_FOUND := BrowserError(SessionNotFound, SessionMissing)

  function ViewOf(x: Session): StatusView {
    StatusView(x.status, if x.status == Completed || x.status == Failed then x.result else None)
  }

  function Apply(s: State, step: Step): State
    requires Enabled(s, step)
  {
    match step
    case CallCreate(a, n) =>
      if n < 0
      then WithCall(s, a, CreateReturned(None, Some(BrowserError(InvalidRequest, NegativeMaxTextChars))))
      else WithCall(s, a, CreateTrying)
    case TryAcquire(a) =>
      if s.slots < s.capacity
      then WithCall(s, a, CreateHolding).(slots := s.slots + 1)
      else WithCall(s, a, CreateReturned(None, Some(BrowserError(Overloaded, LimitReached))))
    case TokenFailed(a) =>
      WithCall(s, a, CreateReturned(None, Some(BrowserError(BrowserStartFailed, NoToken))))
        .(slots := s.slots - 1)
    case Register(a, t) =>
      WithCall(s, a, CreateSpawning(t)).(registry := s.registry + {t}, sessions := s.sessions[t := FRESH_SESSION])
    case Spawn(a) =>
      var t := s.calls[a].t;
      WithCall(s, a, CreateReturned(Some(t), None)).(sessions := s.sessions[t := s.sessions[t].(pc := Starting)])
    case CallSignal(a, sig, t) => WithCall(s, a, SignalGetting(sig, t))
    case SignalGet(a) =>
      var pc := s.calls[a];
      if pc.t in s.registry then WithCall(s, a, SignalChecking(pc.sig, pc.t))
      else WithCall(s, a, SignalReturned(Some(NOT_FOUND)))
    case SignalCheck(a, sig, t) =>
      if s.sessions[t].status == Waiting then WithCall(s, a, SignalClosing(sig, t))
      else WithCall(s, a, SignalReturned(Some(NotWaitingError(sig, s.sessions[t].status))))
    case SignalClose(a, sig, t) =>
      var x := s.sessions[t];
      WithCall(s, a, SignalReturned(None))
        .(sessions := s.sessions[t :=
            if sig.ContinueSignal? then x.(continueClosed := true) else x.(cancelClosed := true)])
    case CallStatus(a, t) => WithCall(s, a, StatusGetting(t))
    case StatusGet(a) =>
      if s.calls[a].t in s.registry then WithCall(s, a, StatusReading(s.calls[a].t))
      else WithCall(s, a, StatusReturned(None, Some(NOT_FOUND)))
    case StatusRead(a) => WithCall(s, a, StatusReturned(Some(ViewOf(s.sessions[s.calls[a].t])), None))
    case CallShutdown(a) => WithCall(s, a, ShutdownStarting)
    case ShutdownSnapshot(a, tokens) => WithCall(s, a, ShutdownAt(tokens, 0))
    case ShutdownGet(a) =>
      var pc := s.calls[a];
      if pc.i == |pc.tokens| then WithCall(s, a, ShutdownReturned(pc.tokens))
      else if pc.tokens[pc.i] in s.registry then WithCall(s, a, ShutdownClosing(pc.tokens, pc.i))
      else WithCall(s, a, ShutdownAt(pc.tokens, pc.i + 1))
    case ShutdownClose(a, t) =>
      WithCall(s, a, ShutdownWaiting(s.calls[a].tokens, s.calls[a].i))
        .(sessions := s.sessions[t := s.sessions[t].(cancelClosed := true)])
    case ShutdownAwait(a) => WithCall(s, a, ShutdownAt(s.calls[a].tokens, s.calls[a].i + 1))
    case Runner(t, c) =>
      var x := s.sessions[t];
      s.(sessions := s.sessions[t := RunnerNext(x, c)],
         registry := if x.pc.DeferRemove? then s.registry - {t} else s.registry,
         slots := if x.pc.DeferRelease? then s.slots - 1 else s.slots)
    case ServiceStop => s.(serviceDone := true)
  }

  // A run is a sequence of steps, each enabled in the state the earlier ones lead to.
  ghost predicate ValidRun(maxSessions: int, run: seq<Step>)
    decreases |run|, 0
  {
    run == [] ||
    (var front := run[..|run| - 1];
     ValidRun(maxSessions, front) && Enabled(After(maxSessions, front), run[|run| - 1]))
  }

  ghost function After(maxSessions: int, run: seq<Step>): State
    requires ValidRun(maxSessions, run)
    decreases |run|, 1
  {
    if run == [] then Init(maxSessions) else Apply(After(maxSessions, run[..|run| - 1]), run[|run| - 1])
  }
}
