// Destination-policy violations of interactive sessions: the session protocol
// together with the first violation that each session's request handlers record
// (internal/browser/session.go, worker.go). A session looks at it twice, after
// its navigation and when it is extracted, and not in between.
module SessionPolicy {
  import opened Models
  import opened SessionProtocol
  import opened SessionInvariant
  import opened SessionSafety
  import Witness = SessionWitness
  import RunReports
  import WorkerReports

  datatype Audited = Audited(
    sessions: State,
    intercepting: set<Token>,               // fetch.Enable has succeeded
    violations: map<Token, BrowserError>,   // first violation of each session
    audits: map<Token, MaybeError>          // what was recorded when the select took continue
  )

  datatype Move =
    | Protocol(step: Step)
    | Intercept(t: Token)                   // startInteractive, between launch and navigation
    | Violate(t: Token, err: BrowserError)  // a request handler of the session's browser

  function Recorded(p: Audited, t: Token): MaybeError {
    if t in p.violations then Some(p.violations[t]) else None
  }

  function Audit(p: Audited, t: Token): MaybeError { if t in p.audits then p.audits[t] else None }

  // What startInteractive and the policy checks demand of a runner's next
  // operation: no start succeeds without interception, a start with a violation
  // fails with it, and so does an extraction if it was recorded before the
  // extraction began.
  predicate Allowed(p: Audited, t: Token, c: Choice)
    requires t in p.sessions.sessions
  {
    match p.sessions.sessions[t].pc
    case Launching =>
      && (c.Launched? ==> t in p.intercepting)
      && (Recorded(p, t).Some? ==> c == FailLaunch(Recorded(p, t).value))
    case Extracting => Audit(p, t).Some? ==> c == Extracted(FailedResult(Audit(p, t).value))
    case _ => true
  }

  predicate MoveEnabled(p: Audited, move: Move) {
    match move
    case Protocol(step) => Enabled(p.sessions, step) && (step.Runner? ==> Allowed(p, step.t, step.c))
    case Intercept(t) =>
      t in p.sessions.sessions && p.sessions.sessions[t].pc.Launching? && t !in p.intercepting
    case Violate(t, _) => t in p.sessions.sessions && p.sessions.sessions[t].browser && t in p.intercepting
  }

  function ApplyMove(p: Audited, move: Move): Audited
    requires MoveEnabled(p, move)
  {
    match move
    case Protocol(step) =>
      p.(sessions := Apply(p.sessions, step),
         audits := if step.Runner? && step.c.TakeContinue? then p.audits[step.t := Recorded(p, step.t)] else p.audits)
    case Intercept(t) => p.(intercepting := p.intercepting + {t})
    case Violate(t, err) => if t in p.violations then p else p.(violations := p.violations[t := err])
  }

  ghost predicate ValidMoves(m: int, moves: seq<Move>)
    decreases |moves|, 0
  {
    moves == [] ||
    (var front := moves[..|moves| - 1];
     ValidMoves(m, front) && MoveEnabled(AfterMoves(m, front), moves[|moves| - 1]))
  }

  ghost function AfterMoves(m: int, moves: seq<Move>): Audited
    requires ValidMoves(m, moves)
    decreases |moves|, 1
  {
    if moves == [] then Audited(Init(m), {}, map[], map[])
    else ApplyMove(AfterMoves(m, moves[..|moves| - 1]), moves[|moves| - 1])
  }

  // The session steps of a run of moves.
  function Steps(moves: seq<Move>): seq<Step>
    decreases |moves|
  {
    if moves == [] then []
    else
      var last := moves[|moves| - 1];
      Steps(moves[..|moves| - 1]) + if last.Protocol? then [last.step] else []
  }

  // Whatever holds of every run of the session protocol holds here.
  lemma {:induction false} StepsAreARun(m: int, moves: seq<Move>)
    requires ValidMoves(m, moves)
    ensures ValidRun(m, Steps(moves)) && After(m, Steps(moves)) == AfterMoves(m, moves).sessions
    decreases |moves|
  {
    if moves != [] {
      var front, last := moves[..|moves| - 1], moves[|moves| - 1];
      StepsAreARun(m, front);
      if last.Protocol? {
        var run := Steps(front) + [last.step];
        assert run[..|run| - 1] == Steps(front);
      } else {
        assert Steps(front) + [] == Steps(front);
      }
    }
  }

  // ---- The checks of the worker are those demanded here ---------------------------

  // Violations are recorded only where requests are intercepted, and every browser
  // that was handed over intercepts them.
  predicate Intercepted(p: Audited) {
    && (forall t :: t in p.violations ==> t in p.intercepting)
    && (forall t :: t in p.sessions.sessions && p.sessions.sessions[t].handed ==> t in p.intercepting)
  }

  lemma MoveKeepsIntercepted(p: Audited, move: Move)
    requires Intercepted(p) && MoveEnabled(p, move)
    ensures Intercepted(ApplyMove(p, move))
  {
    if move.Protocol? {
      forall t | t in Apply(p.sessions, move.step).sessions && Apply(p.sessions, move.step).sessions[t].handed
        ensures t in p.intercepting
      {
        WhoIsHanded(p.sessions, move.step, t);
      }
    }
  }

  lemma WhoIsHanded(s: State, step: Step, t: Token)
    requires Enabled(s, step) && t in Apply(s, step).sessions && Apply(s, step).sessions[t].handed
    ensures t in s.sessions
    ensures s.sessions[t].handed || (step.Runner? && step.t == t && step.c.Launched? && s.sessions[t].pc.Launching?)
  {
    if step.Runner? {
      HandedOver(s.sessions[step.t], step.c, s.serviceDone);
    }
  }

  lemma HandedOver(x: Session, c: Choice, serviceDone: bool)
    requires RunnerEnabled(x, c, serviceDone)
    ensures RunnerNext(x, c).handed ==> x.handed || (x.pc.Launching? && c.Launched?)
  {
  }

  lemma {:induction false} AlwaysIntercepted(m: int, moves: seq<Move>)
    requires ValidMoves(m, moves)
    ensures Intercepted(AfterMoves(m, moves))
    decreases |moves|
  {
    if moves != [] {
      AlwaysIntercepted(m, moves[..|moves| - 1]);
      MoveKeepsIntercepted(AfterMoves(m, moves[..|moves| - 1]), moves[|moves| - 1]);
    }
  }

  // A start that ends before there is a profile.
  predicate EndsEarly(launch: WorkerReports.LaunchOutcome, url: string, destination: string -> MaybeError) {
    launch.ProfileFails? || WorkerReports.SessionRefusal(url, destination).Some?
  }

  // The runner's choice that stands for the end of a start.
  function StartChoice(early: bool, err: MaybeError): Choice {
    if err.None? then Launched else if early then FailEarly(err.value) else FailLaunch(err.value)
  }

  // However a start ends, it ends in a way that is allowed.
  lemma StartIsAllowed(p: Audited, t: Token, env: RunReports.Setting, g: RunReports.Log,
                       launch: WorkerReports.LaunchOutcome,
                       url: string, destination: string -> MaybeError, err: MaybeError)
    requires Intercepted(p) && WorkerReports.SessionStart(env, g, launch, url, destination, err)
    requires t in p.sessions.sessions
    requires var pc := p.sessions.sessions[t].pc;
      if EndsEarly(launch, url, destination) then pc.Starting? else pc.Launching?
    requires t in p.intercepting <==> WorkerReports.Up(g.ops, launch)
    requires t in p.intercepting ==> RunReports.Visible(g, 0) == Recorded(p, t)
    ensures MoveEnabled(p, Protocol(Runner(t, StartChoice(EndsEarly(launch, url, destination), err))))
  {
    WorkerReports.SessionStartsExactly(env, g, launch, url, destination, err);
  }

  // Every extraction whose first check sees what was recorded when it began ends
  // in a way that is allowed.
  lemma ExtractionIsAllowed(p: Audited, t: Token, env: RunReports.Setting, g: RunReports.Log, n: nat, q: nat,
                            capture: bool,
                            r: BrowserResult, stored: Option<ArtifactId>)
    requires t in p.sessions.sessions && p.sessions.sessions[t].pc.Extracting?
    requires WorkerReports.Extraction(env, g, n, q, capture, r, stored)
    requires Audit(p, t).Some? ==> RunReports.Visible(g, q) == Audit(p, t)
    ensures MoveEnabled(p, Protocol(Runner(t, Extracted(r))))
  {
    WorkerReports.ExtractionSettles(env, g, n, q, capture, r, stored);
  }

  // ---- A violation while the session waits --------------------------------------------

  // It changes neither the session nor what anybody may do next: while the user
  // browses, a violation does not end the session.
  lemma ViolationLeavesWaiting(p: Audited, t: Token, err: BrowserError, step: Step)
    requires MoveEnabled(p, Violate(t, err)) && p.sessions.sessions[t].pc.Selecting?
    ensures var p' := ApplyMove(p, Violate(t, err));
      && p'.sessions == p.sessions && Recorded(p', t).Some?
      && (MoveEnabled(p', Protocol(step)) <==> MoveEnabled(p, Protocol(step)))
  {
    if step.Runner? && step.t != t {
      var p' := ApplyMove(p, Violate(t, err));
      assert Recorded(p', step.t) == Recorded(p, step.t);
    }
  }

  const EXPIRED := BrowserError(SessionExpired, SessionTimedOut)

  // The session fails with the violation, or is about to.
  predicate FailsWith(p: Audited, t: Token, v: BrowserError)
    requires t in p.sessions.sessions
  {
    var x := p.sessions.sessions[t];
    || (x.pc.Extracting? && Audit(p, t) == Some(v) && x.status == Waiting)
    || (x.pc == Storing(FailedResult(v)) && x.status == Waiting)
    || (!Undecided(x.pc) && x.status == Failed && x.result == Some(FailedResult(v)))
  }

  // The session still waits, or ends, or is about to end, as cancelled or expired.
  predicate EndsOtherwise(p: Audited, t: Token)
    requires t in p.sessions.sessions
  {
    var x := p.sessions.sessions[t];
    || ((x.pc.Selecting? || x.pc.Cancelling? || x.pc.Expiring?) && x.status == Waiting)
    || (!Undecided(x.pc) && (x.status == Cancelled || (x.status == Failed && x.result == Some(FailedResult(EXPIRED)))))
  }

  lemma SessionMove(p: Audited, move: Move, t: Token, v: BrowserError)
    requires Inv(p.sessions) && MoveEnabled(p, move) && t in p.sessions.sessions && Recorded(p, t) == Some(v)
    requires !p.sessions.sessions[t].pc.NotSpawned?
    ensures var p' := ApplyMove(p, move);
      && t in p'.sessions.sessions && Recorded(p', t) == Some(v)
      && (FailsWith(p, t, v) ==> FailsWith(p', t, v))
      && (EndsOtherwise(p, t) ==>
            if move == Protocol(Runner(t, TakeContinue)) then FailsWith(p', t, v) else EndsOtherwise(p', t))
  {
    if move.Protocol? && move.step.Runner? && move.step.t == t {
      RunnerMove(p, t, move.step.c, v);
    } else if move.Protocol? {
      OtherMove(p, move.step, t);
    }
  }

  lemma RunnerMove(p: Audited, t: Token, c: Choice, v: BrowserError)
    requires MoveEnabled(p, Protocol(Runner(t, c))) && Recorded(p, t) == Some(v)
    ensures var p' := ApplyMove(p, Protocol(Runner(t, c)));
      && (FailsWith(p, t, v) ==> FailsWith(p', t, v))
      && (EndsOtherwise(p, t) ==> if c.TakeContinue? then FailsWith(p', t, v) else EndsOtherwise(p', t))
  {
    if FailsWith(p, t, v) {
      FailureMove(p, t, c, v);
    }
    if EndsOtherwise(p, t) {
      if p.sessions.sessions[t].pc.Selecting? {
        SelectMove(p, t, c, v);
      } else {
        OtherwiseMove(p, t, c);
      }
    }
  }

  lemma FailureMove(p: Audited, t: Token, c: Choice, v: BrowserError)
    requires MoveEnabled(p, Protocol(Runner(t, c))) && FailsWith(p, t, v)
    ensures FailsWith(ApplyMove(p, Protocol(Runner(t, c))), t, v)
  {
    if !Undecided(p.sessions.sessions[t].pc) {
      DecidedStays(p.sessions.sessions[t], c);
    }
  }

  lemma SelectMove(p: Audited, t: Token, c: Choice, v: BrowserError)
    requires MoveEnabled(p, Protocol(Runner(t, c))) && Recorded(p, t) == Some(v)
    requires p.sessions.sessions[t].pc.Selecting? && p.sessions.sessions[t].status == Waiting
    ensures var p' := ApplyMove(p, Protocol(Runner(t, c)));
      if c.TakeContinue? then FailsWith(p', t, v) else EndsOtherwise(p', t)
  {
  }

  lemma OtherwiseMove(p: Audited, t: Token, c: Choice)
    requires MoveEnabled(p, Protocol(Runner(t, c))) && EndsOtherwise(p, t) && !p.sessions.sessions[t].pc.Selecting?
    ensures !c.TakeContinue? && EndsOtherwise(ApplyMove(p, Protocol(Runner(t, c))), t)
  {
    if Undecided(p.sessions.sessions[t].pc) {
      EndingMove(p.sessions.sessions[t], c, p.sessions.serviceDone);
    } else {
      DecidedStays(p.sessions.sessions[t], c);
    }
  }

  lemma EndingMove(x: Session, c: Choice, serviceDone: bool)
    requires (x.pc.Cancelling? || x.pc.Expiring?) && RunnerEnabled(x, c, serviceDone)
    ensures var y := RunnerNext(x, c);
      !Undecided(y.pc) && (y.status == Cancelled || (y.status == Failed && y.result == Some(FailedResult(EXPIRED))))
  {
  }

  lemma DecidedStays(x: Session, c: Choice)
    requires !Undecided(x.pc)
    ensures !Undecided(RunnerNext(x, c).pc)
    ensures RunnerNext(x, c).status == x.status && RunnerNext(x, c).result == x.result
  {
  }

  // What the others do to a running session does not matter here.
  lemma OtherMove(p: Audited, step: Step, t: Token)
    requires Inv(p.sessions) && MoveEnabled(p, Protocol(step))
    requires t in p.sessions.sessions && !p.sessions.sessions[t].pc.NotSpawned?
    requires !(step.Runner? && step.t == t)
    ensures var p' := ApplyMove(p, Protocol(step));
      && t in p'.sessions.sessions && Audit(p', t) == Audit(p, t)
      && var x, y := p.sessions.sessions[t], p'.sessions.sessions[t];
         y.pc == x.pc && y.status == x.status && y.result == x.result
  {
    if !step.Runner? {
      CallStepSessions(p.sessions, step, t);
    }
  }

  // ---- What becomes of a session with a violation ---------------------------------------

  // From move k on, the session's select took the continue channel.
  predicate TookContinue(moves: seq<Move>, k: nat, t: Token) {
    exists i: nat :: k <= i < |moves| && moves[i] == Protocol(Runner(t, TakeContinue))
  }

  // At move k, violation v of session t is recorded and the session waits.
  ghost predicate ViolatedAt(m: int, moves: seq<Move>, k: nat, t: Token, v: BrowserError) {
    && k <= |moves| && ValidMoves(m, moves[..k])
    && var p := AfterMoves(m, moves[..k]);
       t in p.sessions.sessions && p.sessions.sessions[t].pc.Selecting? && Recorded(p, t) == Some(v)
  }

  // A session for which a violation was recorded while it waited fails with that
  // violation exactly if its select takes the continue channel; otherwise it waits
  // on, or ends as cancelled or expired. It never completes.
  lemma {:induction false} ViolatedSessionOutcome(m: int, moves: seq<Move>, k: nat, t: Token, v: BrowserError)
    requires ValidMoves(m, moves) && ViolatedAt(m, moves, k, t, v)
    ensures var p := AfterMoves(m, moves);
      && t in p.sessions.sessions && Recorded(p, t) == Some(v) && p.sessions.sessions[t].status != Completed
      && !p.sessions.sessions[t].pc.NotSpawned?
      && (if TookContinue(moves, k, t) then FailsWith(p, t, v) else EndsOtherwise(p, t))
    decreases |moves|
  {
    if k == |moves| {
      assert moves[..k] == moves;
      StepsAreARun(m, moves);
      ReachableInv(m, Steps(moves));
      assert SessionInv(AfterMoves(m, moves).sessions.sessions[t]);
    } else {
      var front, move := moves[..|moves| - 1], moves[|moves| - 1];
      assert front[..k] == moves[..k];
      ViolatedSessionOutcome(m, front, k, t, v);
      StepsAreARun(m, front);
      ReachableInv(m, Steps(front));
      SessionMove(AfterMoves(m, front), move, t, v);
      TookContinueNow(moves, k, t);
    }
  }

  lemma TookContinueNow(moves: seq<Move>, k: nat, t: Token)
    requires k < |moves|
    ensures var front, last := moves[..|moves| - 1], moves[|moves| - 1];
      TookContinue(moves, k, t) <==> TookContinue(front, k, t) || last == Protocol(Runner(t, TakeContinue))
  {
    var front, last := moves[..|moves| - 1], moves[|moves| - 1];
    if i: nat :| k <= i < |front| && front[i] == Protocol(Runner(t, TakeContinue)) {
      assert moves[i] == front[i];
    }
    if i: nat :| k <= i < |moves| && moves[i] == Protocol(Runner(t, TakeContinue)) {
      assert i == |front| || front[i] == moves[i];
    }
  }

  // ---- A run ---------------------------------------------------------------------------------

  ghost predicate ReachableByMoves(m: int, p: Audited) {
    exists moves :: ValidMoves(m, moves) && AfterMoves(m, moves) == p
  }

  lemma Advance(m: int, p: Audited, move: Move) returns (p': Audited)
    requires ReachableByMoves(m, p) && MoveEnabled(p, move)
    ensures p' == ApplyMove(p, move) && ReachableByMoves(m, p')
  {
    var moves :| ValidMoves(m, moves) && AfterMoves(m, moves) == p;
    assert (moves + [move])[..|moves|] == moves;
    assert ValidMoves(m, moves + [move]);
    p' := AfterMoves(m, moves + [move]);
  }

  // No handler has recorded anything.
  predicate Clean(p: Audited) { p.violations == map[] && forall t :: t in p.audits ==> p.audits[t].None? }

  // Without a violation the checks rule out nothing: every run of the session
  // protocol is possible, with interception enabled where a start succeeds.
  lemma {:induction false} EveryRunIsPossible(m: int, run: seq<Step>) returns (p: Audited)
    requires ValidRun(m, run)
    ensures ReachableByMoves(m, p) && Clean(p) && p.sessions == After(m, run)
    decreases |run|
  {
    if run == [] {
      assert ValidMoves(m, []);
      p := AfterMoves(m, []);
    } else {
      p := EveryRunIsPossible(m, run[..|run| - 1]);
      var step := run[|run| - 1];
      if step.Runner? && step.c.Launched? && !MoveEnabled(p, Protocol(step)) {
        p := Advance(m, p, Intercept(step.t));
      }
      p := Advance(m, p, Protocol(step));
    }
  }

  // The session that a user browses in, once a violation has been recorded.
  lemma ViolatedSession(err: BrowserError) returns (p: Audited)
    ensures ReachableByMoves(1, p) && Recorded(p, 7) == Some(err) && 2 !in p.sessions.calls && 7 in p.sessions.registry
    ensures 7 in p.sessions.sessions && p.sessions.sessions[7].pc.Selecting? && p.sessions.sessions[7].status == Waiting
  {
    var s := Witness.WaitingSession();
    var run :| ValidRun(1, run) && After(1, run) == s;
    p := EveryRunIsPossible(1, run);
    var moves :| ValidMoves(1, moves) && AfterMoves(1, moves) == p;
    AlwaysIntercepted(1, moves);
    p := Advance(1, p, Violate(7, err));
  }

  lemma ViolationAsked(err: BrowserError) returns (p: Audited)
    ensures ReachableByMoves(1, p) && Recorded(p, 7) == Some(err) && At(p.sessions, 2, StatusReading(7))
    ensures 7 in p.sessions.sessions && p.sessions.sessions[7].pc.Selecting? && p.sessions.sessions[7].status == Waiting
  {
    p := ViolatedSession(err);
    p := Advance(1, p, Protocol(CallStatus(2, 7)));
    p := Advance(1, p, Protocol(StatusGet(2)));
  }

  // A Status call after a violation may still answer that the session waits.
  lemma ViolationLooksWaiting(err: BrowserError) returns (p: Audited)
    ensures ReachableByMoves(1, p) && Recorded(p, 7) == Some(err)
    ensures At(p.sessions, 2, StatusReturned(Some(StatusView(Waiting, None)), None))
    ensures 7 in p.sessions.sessions && p.sessions.sessions[7].pc.Selecting?
  {
    p := ViolationAsked(err);
    p := Advance(1, p, Protocol(StatusRead(2)));
  }

  lemma ViolationExpiring(err: BrowserError) returns (p: Audited)
    ensures ReachableByMoves(1, p) && Recorded(p, 7) == Some(err)
    ensures At(p.sessions, 2, StatusReturned(Some(StatusView(Waiting, None)), None))
    ensures 7 in p.sessions.sessions && p.sessions.sessions[7].pc.Expiring?
  {
    p := ViolationLooksWaiting(err);
    p := Advance(1, p, Protocol(Runner(7, TakeTimeout)));
  }

  // The session may then expire without ever naming the violation.
  lemma ViolationMayGoUnnamed(err: BrowserError) returns (p: Audited)
    ensures ReachableByMoves(1, p) && Recorded(p, 7) == Some(err)
    ensures At(p.sessions, 2, StatusReturned(Some(StatusView(Waiting, None)), None))
    ensures 7 in p.sessions.sessions && p.sessions.sessions[7].status == Failed
    ensures p.sessions.sessions[7].result == Some(FailedResult(EXPIRED))
  {
    p := ViolationExpiring(err);
    p := Advance(1, p, Protocol(Runner(7, Proceed)));
  }
}
