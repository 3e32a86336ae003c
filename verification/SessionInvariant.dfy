// The inductive invariant of the session protocol and the safety results that
// follow from it in every reachable interleaving.
module SessionInvariant {
  import opened Models
  import opened SessionProtocol

  // ---- One session -------------------------------------------------------

  // The runner has not yet decided the session's outcome.
  predicate Undecided(pc: RunnerPC) {
    !(pc.DeferCancel? || pc.DeferCleanup? || pc.DeferClose? || pc.DeferRemove? || pc.DeferRelease? || pc.Finished?)
  }

  predicate DoneClosed(pc: RunnerPC) { pc.DeferRemove? || pc.DeferRelease? || pc.Finished? }

  predicate Unregistered(pc: RunnerPC) { pc.DeferRelease? || pc.Finished? }

  // The runner goroutine exists and has not yet received from the slots channel.
  predicate RunnerHoldsSlot(pc: RunnerPC) { !pc.NotSpawned? && !pc.Finished? }

  // What each status says about the result.
  predicate ResultMatchesStatus(x: Session) {
    match x.status
    case Waiting => x.result.None?
    case Cancelled => x.result.None?
    case Completed => x.result.Some? && x.result.value.error.None? && x.result.value.status == Completed
    case Failed => x.result.Some? && x.result.value.error.Some? && x.result.value.status == Failed
  }

  predicate ResourcesMatchPC(x: Session) {
    match x.pc
    case NotSpawned => x.profile.NotMade? && !x.browser && !x.handed
    case Starting => x.profile.NotMade? && !x.browser && !x.handed
    case Launching => x.profile.Live? && x.browser && !x.handed
    case AbortKill(_) => x.profile.Live? && x.browser && !x.handed
    case AbortCleanup(_) => x.profile.Live? && !x.browser && !x.handed
    case StartFailed(_) => !x.profile.Live? && !x.browser && !x.handed
    case DeferCancel => x.profile.Live? == x.browser == x.handed
    case DeferCleanup => x.profile.Live? == x.handed && !x.browser
    case DeferClose => !x.profile.Live? && !x.browser
    case DeferRemove => !x.profile.Live? && !x.browser
    case DeferRelease => !x.profile.Live? && !x.browser
    case Finished => !x.profile.Live? && !x.browser
    case _ => x.profile.Live? && x.browser && x.handed
  }

  predicate SessionInv(x: Session) {
    && (Undecided(x.pc) <==> x.status == Waiting)
    && ResultMatchesStatus(x)
    && (x.doneClosed <==> DoneClosed(x.pc))
    && ResourcesMatchPC(x)
    && (x.pc.Storing? ==> WellFormedResult(x.pc.res))
  }

  // ---- All calls and sessions -----------------------------------------------

  // Status exposes a result exactly for a completed or a failed session.
  predicate ViewMatches(v: StatusView) {
    && (v.result.Some? <==> v.status == Completed || v.status == Failed)
    && (v.status == Completed ==> v.result.value.error.None?)
    && (v.status == Failed ==> v.result.value.error.Some?)
  }

  predicate TokensKnown(s: State, tokens: seq<Token>) {
    forall j :: 0 <= j < |tokens| ==> tokens[j] in s.sessions
  }

  predicate FirstDone(s: State, tokens: seq<Token>, n: nat)
    requires n <= |tokens| && TokensKnown(s, tokens)
  {
    forall j :: 0 <= j < n ==> s.sessions[tokens[j]].doneClosed
  }

  predicate CallInv(s: State, pc: CallPC) {
    match pc
    case CreateSpawning(t) => t in s.sessions && s.sessions[t].pc.NotSpawned?
    case CreateReturned(token, error) =>
      token.Some? == error.None?
        && (token.Some? ==> token.value in s.sessions && !s.sessions[token.value].pc.NotSpawned?)
    case SignalChecking(_, t) => t in s.sessions
    case SignalClosing(_, t) => t in s.sessions
    case StatusReading(t) => t in s.sessions
    case StatusReturned(view, error) => view.Some? == error.None? && (view.Some? ==> ViewMatches(view.value))
    case ShutdownAt(tokens, i) => TokensKnown(s, tokens) && i <= |tokens| && FirstDone(s, tokens, i)
    case ShutdownClosing(tokens, i) => TokensKnown(s, tokens) && i < |tokens| && FirstDone(s, tokens, i)
    case ShutdownWaiting(tokens, i) =>
      TokensKnown(s, tokens) && i < |tokens| && FirstDone(s, tokens, i) && s.sessions[tokens[i]].cancelClosed
    case ShutdownReturned(tokens) => TokensKnown(s, tokens) && FirstDone(s, tokens, |tokens|)
    case _ => true
  }

  predicate SpawningAt(s: State, a: ActorId, t: Token) { At(s, a, CreateSpawning(t)) }

  // Exactly one Create call is about to spawn the runner of each unspawned session.
  ghost predicate SpawnersMatch(s: State) {
    && (forall t :: t in s.sessions && s.sessions[t].pc.NotSpawned? ==> exists a :: SpawningAt(s, a, t))
    && (forall a, b, t :: SpawningAt(s, a, t) && SpawningAt(s, b, t) ==> a == b)
  }

  predicate RegistryMatches(s: State) {
    && (forall t :: t in s.registry ==> t in s.sessions)
    && (forall t :: t in s.sessions ==> (t in s.registry <==> !Unregistered(s.sessions[t].pc)))
  }

  predicate HoldsSlot(pc: CallPC) { pc.CreateHolding? || pc.CreateSpawning? }

  function HoldingCreates(s: State): set<ActorId> { set a | a in s.calls && HoldsSlot(s.calls[a]) }

  function LiveRunners(s: State): set<Token> { set t | t in s.sessions && RunnerHoldsSlot(s.sessions[t].pc) }

  function LiveProfiles(s: State): set<Token> { set t | t in s.sessions && s.sessions[t].profile.Live? }

  // Every slot in use belongs to one Create call or one runner.
  predicate SlotsAccounted(s: State) {
    s.slots == |HoldingCreates(s)| + |LiveRunners(s)| && s.slots <= s.capacity
  }

  ghost predicate Inv(s: State) {
    && (forall t :: t in s.sessions ==> SessionInv(s.sessions[t]))
    && (forall a :: a in s.calls ==> CallInv(s, s.calls[a]))
    && SpawnersMatch(s)
    && RegistryMatches(s)
    && SlotsAccounted(s)
  }

  // ---- Preservation: one runner step -----------------------------------------

  lemma RunnerKeepsResources(x: Session, c: Choice, serviceDone: bool)
    requires SessionInv(x) && RunnerEnabled(x, c, serviceDone)
    ensures ResourcesMatchPC(RunnerNext(x, c))
  {
  }

  lemma RunnerKeepsOutcome(x: Session, c: Choice, serviceDone: bool)
    requires SessionInv(x) && RunnerEnabled(x, c, serviceDone)
    ensures ResultMatchesStatus(RunnerNext(x, c))
    ensures RunnerNext(x, c).pc.Storing? ==> WellFormedResult(RunnerNext(x, c).pc.res)
  {
  }

  lemma RunnerKeepsPhase(x: Session, c: Choice, serviceDone: bool)
    requires SessionInv(x) && RunnerEnabled(x, c, serviceDone)
    ensures var y := RunnerNext(x, c);
      (Undecided(y.pc) <==> y.status == Waiting) && (y.doneClosed <==> DoneClosed(y.pc))
  {
  }

  // How a session may change while it stays the same session.
  predicate SessionGrows(x: Session, y: Session) {
    && (x.doneClosed ==> y.doneClosed)
    && (x.cancelClosed ==> y.cancelClosed)
    && (x.continueClosed ==> y.continueClosed)
    && (x.status != Waiting ==> y.status == x.status && y.result == x.result)
    && (!x.pc.NotSpawned? ==> !y.pc.NotSpawned?)
  }

  lemma RunnerGrowsSession(x: Session, c: Choice, serviceDone: bool)
    requires SessionInv(x) && RunnerEnabled(x, c, serviceDone)
    ensures SessionGrows(x, RunnerNext(x, c))
  {
  }

  // The slot and registry steps of a runner are the only ones that change where it stands.
  lemma RunnerMovesPhase(x: Session, c: Choice, serviceDone: bool)
    requires RunnerEnabled(x, c, serviceDone)
    ensures !RunnerNext(x, c).pc.NotSpawned?
    ensures RunnerHoldsSlot(RunnerNext(x, c).pc) <==> !x.pc.DeferRelease?
    ensures Unregistered(RunnerNext(x, c).pc) <==> x.pc.DeferRemove? || x.pc.DeferRelease?
  {
  }

  // ---- Preservation: the whole state -----------------------------------------

  predicate SessionsGrow(s: State, s': State) {
    forall t :: t in s.sessions ==> t in s'.sessions && SessionGrows(s.sessions[t], s'.sessions[t])
  }

  lemma CallInvStable(s: State, s': State, pc: CallPC)
    requires SessionsGrow(s, s') && CallInv(s, pc)
    requires pc.CreateSpawning? ==> s'.sessions[pc.t].pc.NotSpawned?
    ensures CallInv(s', pc)
  {
  }

  // Everything but the slot count, for a step that moves call a and nothing else.
  lemma MovedCallFrame(s: State, s': State, a: ActorId, pc: CallPC)
    requires Inv(s) && CallInv(s, pc)
    requires !pc.CreateSpawning? && (a in s.calls ==> !s.calls[a].CreateSpawning?)
    requires s'.sessions == s.sessions && s'.registry == s.registry && s'.calls == s.calls[a := pc]
    ensures forall b :: b in s'.calls ==> CallInv(s', s'.calls[b])
    ensures SpawnersMatch(s')
  {
    forall b | b in s'.calls ensures CallInv(s', s'.calls[b]) {
      CallInvStable(s, s', s'.calls[b]);
    }
    forall b, t | SpawningAt(s', b, t) ensures SpawningAt(s, b, t) {}
    forall t | t in s'.sessions && s'.sessions[t].pc.NotSpawned? ensures exists b :: SpawningAt(s', b, t) {
      var b :| SpawningAt(s, b, t);
      assert SpawningAt(s', b, t);
    }
  }

  // A step that only moves one call, and neither takes nor gives back a slot.
  lemma MoveCallKeepsInv(s: State, a: ActorId, pc: CallPC)
    requires Inv(s) && CallInv(s, pc)
    requires !HoldsSlot(pc) && (a in s.calls ==> !HoldsSlot(s.calls[a]))
    ensures Inv(WithCall(s, a, pc))
  {
    var s' := WithCall(s, a, pc);
    assert HoldingCreates(s') == HoldingCreates(s);
    assert LiveRunners(s') == LiveRunners(s);
    MovedCallFrame(s, s', a, pc);
  }

  // Call a takes a slot between s and s'; no other call starts or stops holding one.
  lemma CountCreate(s: State, s': State, a: ActorId)
    requires a in s.calls && a in s'.calls && !HoldsSlot(s.calls[a]) && HoldsSlot(s'.calls[a])
    requires forall b :: b != a ==> (b in s.calls <==> b in s'.calls)
    requires forall b :: b != a && b in s.calls ==> s'.calls[b] == s.calls[b]
    ensures |HoldingCreates(s')| == |HoldingCreates(s)| + 1
  {
    assert HoldingCreates(s') == HoldingCreates(s) + {a};
  }

  lemma AcquireKeepsInv(s: State, a: ActorId)
    requires Inv(s) && At(s, a, CreateTrying) && s.slots < s.capacity
    ensures Inv(WithCall(s, a, CreateHolding).(slots := s.slots + 1))
  {
    var s' := WithCall(s, a, CreateHolding).(slots := s.slots + 1);
    CountCreate(s, s', a);
    assert LiveRunners(s') == LiveRunners(s);
    MovedCallFrame(s, s', a, CreateHolding);
  }

  lemma GiveBackKeepsInv(s: State, a: ActorId, pc: CallPC)
    requires Inv(s) && At(s, a, CreateHolding) && s.slots > 0 && pc.CreateReturned? && CallInv(s, pc)
    ensures Inv(WithCall(s, a, pc).(slots := s.slots - 1))
  {
    var s' := WithCall(s, a, pc).(slots := s.slots - 1);
    CountCreate(s', s, a);
    assert LiveRunners(s') == LiveRunners(s);
    MovedCallFrame(s, s', a, pc);
  }

  lemma RegisterKeepsInv(s: State, a: ActorId, t: Token)
    requires Inv(s) && Enabled(s, Register(a, t))
    ensures Inv(Apply(s, Register(a, t)))
  {
    var s' := Apply(s, Register(a, t));
    assert HoldingCreates(s') == HoldingCreates(s);
    assert LiveRunners(s') == LiveRunners(s);
    RegisterKeepsCalls(s, a, t, s');
  }

  lemma RegisterKeepsCalls(s: State, a: ActorId, t: Token, s': State)
    requires Inv(s) && Enabled(s, Register(a, t)) && s' == Apply(s, Register(a, t))
    ensures forall b :: b in s'.calls ==> CallInv(s', s'.calls[b])
    ensures SpawnersMatch(s')
  {
    forall b | b in s'.calls && b != a ensures CallInv(s', s'.calls[b]) {
      CallInvStable(s, s', s'.calls[b]);
    }
    forall b, u | SpawningAt(s', b, u) ensures if b == a then u == t else SpawningAt(s, b, u) && u != t {
      assert CallInv(s', s'.calls[b]);
      if b != a { assert CallInv(s, s.calls[b]); }
    }
    forall u | u in s'.sessions && s'.sessions[u].pc.NotSpawned? ensures exists b :: SpawningAt(s', b, u) {
      if u == t {
        assert SpawningAt(s', a, u);
      } else {
        var b :| SpawningAt(s, b, u);
        assert SpawningAt(s', b, u);
      }
    }
  }

  lemma SpawnKeepsCalls(s: State, s': State, a: ActorId, t: Token)
    requires Inv(s) && SpawningAt(s, a, t) && t in s.sessions
    requires s' ==
      WithCall(s, a, CreateReturned(Some(t), None)).(sessions := s.sessions[t := s.sessions[t].(pc := Starting)])
    ensures forall b :: b in s'.calls ==> CallInv(s', s'.calls[b])
    ensures SpawnersMatch(s')
  {
    forall b, u | SpawningAt(s', b, u) ensures SpawningAt(s, b, u) && u != t {
      assert SpawningAt(s, b, u);
    }
    forall b | b in s'.calls && b != a ensures CallInv(s', s'.calls[b]) {
      if s.calls[b].CreateSpawning? {
        assert SpawningAt(s', b, s.calls[b].t);
        assert CallInv(s, s.calls[b]);
      }
      CallInvStable(s, s', s'.calls[b]);
    }
    forall u | u in s'.sessions && s'.sessions[u].pc.NotSpawned? ensures exists b :: SpawningAt(s', b, u) {
      var b :| SpawningAt(s, b, u);
      assert SpawningAt(s', b, u);
    }
  }

  lemma SpawnKeepsInv(s: State, a: ActorId)
    requires Inv(s) && Enabled(s, Spawn(a))
    ensures Inv(Apply(s, Spawn(a)))
  {
    var s' := Apply(s, Spawn(a));
    var t := s.calls[a].t;
    assert CallInv(s, s.calls[a]);
    SpawnKeepsCalls(s, s', a, t);
    CountCreate(s', s, a);
    SpawnCountsRunner(s, s', t);
    SpawnKeepsRest(s, s', t);
  }

  lemma SpawnKeepsRest(s: State, s': State, t: Token)
    requires Inv(s) && t in s.sessions && s.sessions[t].pc.NotSpawned?
    requires s'.sessions == s.sessions[t := s.sessions[t].(pc := Starting)] && s'.registry == s.registry
    ensures forall u :: u in s'.sessions ==> SessionInv(s'.sessions[u])
    ensures RegistryMatches(s')
  {
  }

  lemma SpawnCountsRunner(s: State, s': State, t: Token)
    requires t in s.sessions && s.sessions[t].pc.NotSpawned?
    requires s'.sessions == s.sessions[t := s.sessions[t].(pc := Starting)]
    ensures |LiveRunners(s')| == |LiveRunners(s)| + 1
  {
    assert LiveRunners(s') == LiveRunners(s) + {t};
  }

  // One session grows, which concerns no call.
  lemma GrowthKeepsCalls(s: State, s': State, t: Token)
    requires Inv(s) && t in s.sessions && s'.calls == s.calls
    requires t in s'.sessions && s'.sessions == s.sessions[t := s'.sessions[t]]
    requires SessionGrows(s.sessions[t], s'.sessions[t])
    requires s'.sessions[t].pc.NotSpawned? <==> s.sessions[t].pc.NotSpawned?
    ensures forall b :: b in s'.calls ==> CallInv(s', s'.calls[b])
    ensures SpawnersMatch(s')
  {
    forall b | b in s'.calls ensures CallInv(s', s'.calls[b]) {
      CallInvStable(s, s', s'.calls[b]);
    }
    forall b, u | SpawningAt(s', b, u) ensures SpawningAt(s, b, u) {}
    forall u | u in s'.sessions && s'.sessions[u].pc.NotSpawned? ensures exists b :: SpawningAt(s', b, u) {
      var b :| SpawningAt(s, b, u);
      assert SpawningAt(s', b, u);
    }
  }

  // One session changes in place; its runner keeps its place in the protocol.
  lemma UpdateSessionKeepsInv(s: State, t: Token, y: Session)
    requires Inv(s) && t in s.sessions && SessionInv(y)
    requires SessionGrows(s.sessions[t], y) && y.pc == s.sessions[t].pc
    ensures Inv(s.(sessions := s.sessions[t := y]))
  {
    var s' := s.(sessions := s.sessions[t := y]);
    assert HoldingCreates(s') == HoldingCreates(s);
    assert LiveRunners(s') == LiveRunners(s);
    GrowthKeepsCalls(s, s', t);
  }

  // A runner step, given what RunnerNext does to its session.
  lemma RunnerUpdateKeepsInv(s: State, t: Token, y: Session, s': State)
    requires Inv(s) && t in s.sessions && SessionInv(y) && SessionGrows(s.sessions[t], y)
    requires var x := s.sessions[t];
      && !x.pc.NotSpawned? && !y.pc.NotSpawned? && !x.pc.Finished?
      && (RunnerHoldsSlot(y.pc) <==> !x.pc.DeferRelease?)
      && (Unregistered(y.pc) <==> x.pc.DeferRemove? || x.pc.DeferRelease?)
      && (x.pc.DeferRelease? ==> s.slots > 0)
      && s' == s.(sessions := s.sessions[t := y],
                  registry := if x.pc.DeferRemove? then s.registry - {t} else s.registry,
                  slots := if x.pc.DeferRelease? then s.slots - 1 else s.slots)
    ensures Inv(s')
  {
    assert HoldingCreates(s') == HoldingCreates(s);
    assert LiveRunners(s') == if s.sessions[t].pc.DeferRelease? then LiveRunners(s) - {t} else LiveRunners(s);
    GrowthKeepsCalls(s, s', t);
  }

  lemma RunnerStepKeepsInv(s: State, t: Token, c: Choice)
    requires Inv(s) && Enabled(s, Runner(t, c))
    ensures Inv(Apply(s, Runner(t, c)))
  {
    var x := s.sessions[t];
    RunnerKeepsResources(x, c, s.serviceDone);
    RunnerKeepsOutcome(x, c, s.serviceDone);
    RunnerKeepsPhase(x, c, s.serviceDone);
    RunnerGrowsSession(x, c, s.serviceDone);
    RunnerMovesPhase(x, c, s.serviceDone);
    var y := RunnerNext(x, c);
    RunnerUpdateKeepsInv(s, t, y, Apply(s, Runner(t, c)));
  }

  // A signal channel of session t is closed by call a, which moves to pc.
  lemma CloseKeepsInv(s: State, a: ActorId, pc: CallPC, t: Token, y: Session)
    requires Inv(s) && a in s.calls && !HoldsSlot(s.calls[a]) && !HoldsSlot(pc) && t in s.sessions
    requires y == s.sessions[t].(continueClosed := true) || y == s.sessions[t].(cancelClosed := true)
    requires CallInv(s.(sessions := s.sessions[t := y]), pc)
    ensures Inv(WithCall(s, a, pc).(sessions := s.sessions[t := y]))
  {
    var mid := s.(sessions := s.sessions[t := y]);
    UpdateSessionKeepsInv(s, t, y);
    MoveCallKeepsInv(mid, a, pc);
    assert WithCall(s, a, pc).(sessions := s.sessions[t := y]) == WithCall(mid, a, pc);
  }

  lemma SignalCloseKeepsInv(s: State, step: Step)
    requires Inv(s) && step.SignalClose? && Enabled(s, step)
    ensures Inv(Apply(s, step))
  {
    var x := s.sessions[step.t];
    CloseKeepsInv(s, step.a, SignalReturned(None), step.t,
                  if step.sig.ContinueSignal? then x.(continueClosed := true) else x.(cancelClosed := true));
  }

  lemma ShutdownCloseKeepsInv(s: State, step: Step)
    requires Inv(s) && step.ShutdownClose? && Enabled(s, step)
    ensures Inv(Apply(s, step))
  {
    var pc, y := s.calls[step.a], s.sessions[step.t].(cancelClosed := true);
    assert CallInv(s, pc);
    CloseKeepsInv(s, step.a, ShutdownWaiting(pc.tokens, pc.i), step.t, y);
  }

  lemma ShutdownStepKeepsInv(s: State, step: Step)
    requires Inv(s) && Enabled(s, step) && (step.ShutdownSnapshot? || step.ShutdownGet? || step.ShutdownAwait?)
    ensures Inv(Apply(s, step))
  {
    var pc := Apply(s, step).calls[step.a];
    assert CallInv(s, s.calls[step.a]);
    if step.ShutdownSnapshot? {
      forall j | 0 <= j < |step.tokens| ensures step.tokens[j] in s.sessions {
        assert step.tokens[j] in (set t | t in step.tokens);
      }
    }
    MoveCallKeepsInv(s, step.a, pc);
  }

  lemma BeginCreateKeepsInv(s: State, step: Step)
    requires Inv(s) && Enabled(s, step) && (step.CallCreate? || (step.TryAcquire? && s.slots == s.capacity))
    ensures Inv(Apply(s, step))
  {
    MoveCallKeepsInv(s, step.a, Apply(s, step).calls[step.a]);
  }

  lemma SlotStepKeepsInv(s: State, step: Step)
    requires Inv(s) && Enabled(s, step) && ((step.TryAcquire? && s.slots < s.capacity) || step.TokenFailed?)
    ensures Inv(Apply(s, step))
  {
    var pc := Apply(s, step).calls[step.a];
    if step.TryAcquire? {
      assert Apply(s, step) == WithCall(s, step.a, CreateHolding).(slots := s.slots + 1);
      AcquireKeepsInv(s, step.a);
    } else {
      assert Apply(s, step) == WithCall(s, step.a, pc).(slots := s.slots - 1);
      GiveBackKeepsInv(s, step.a, pc);
    }
  }

  lemma CreateStepKeepsInv(s: State, step: Step)
    requires Inv(s) && Enabled(s, step)
    requires step.CallCreate? || step.TryAcquire? || step.TokenFailed? || step.Register? || step.Spawn?
    ensures Inv(Apply(s, step))
  {
    match step
    case CallCreate(_, _) => BeginCreateKeepsInv(s, step);
    case TryAcquire(_) => if s.slots < s.capacity { SlotStepKeepsInv(s, step); } else { BeginCreateKeepsInv(s, step); }
    case TokenFailed(_) => SlotStepKeepsInv(s, step);
    case Register(a, t) => RegisterKeepsInv(s, a, t);
    case Spawn(a) => SpawnKeepsInv(s, a);
  }

  lemma ViewOfMatches(x: Session)
    requires SessionInv(x)
    ensures ViewMatches(ViewOf(x))
  {
  }

  lemma QueryStepKeepsInv(s: State, step: Step)
    requires Inv(s) && Enabled(s, step)
    requires step.CallSignal? || step.SignalGet? || step.SignalCheck? || step.CallStatus? || step.StatusGet? ||
      step.StatusRead? || step.CallShutdown?
    ensures Inv(Apply(s, step))
  {
    if step.StatusRead? {
      ViewOfMatches(s.sessions[s.calls[step.a].t]);
    }
    MoveCallKeepsInv(s, step.a, Apply(s, step).calls[step.a]);
  }

  lemma StepKeepsInv(s: State, step: Step)
    requires Inv(s) && Enabled(s, step)
    ensures Inv(Apply(s, step))
  {
    match step
    case SignalClose(_, _, _) => SignalCloseKeepsInv(s, step);
    case ShutdownClose(_, _) => ShutdownCloseKeepsInv(s, step);
    case ShutdownSnapshot(_, _) => ShutdownStepKeepsInv(s, step);
    case ShutdownGet(_) => ShutdownStepKeepsInv(s, step);
    case ShutdownAwait(_) => ShutdownStepKeepsInv(s, step);
    case Runner(t, c) => RunnerStepKeepsInv(s, t, c);
    case ServiceStop => ServiceStopKeepsInv(s);
    case CallSignal(_, _, _) => QueryStepKeepsInv(s, step);
    case SignalGet(_) => QueryStepKeepsInv(s, step);
    case SignalCheck(_, _, _) => QueryStepKeepsInv(s, step);
    case CallStatus(_, _) => QueryStepKeepsInv(s, step);
    case StatusGet(_) => QueryStepKeepsInv(s, step);
    case StatusRead(_) => QueryStepKeepsInv(s, step);
    case CallShutdown(_) => QueryStepKeepsInv(s, step);
    case _ => CreateStepKeepsInv(s, step);
  }

  lemma ServiceStopKeepsInv(s: State)
    requires Inv(s)
    ensures Inv(Apply(s, ServiceStop))
  {
    var s' := Apply(s, ServiceStop);
    assert HoldingCreates(s') == HoldingCreates(s) && LiveRunners(s') == LiveRunners(s);
    forall a, t ensures SpawningAt(s', a, t) == SpawningAt(s, a, t) {}
    forall b | b in s'.calls ensures CallInv(s', s'.calls[b]) {
      CallInvStable(s, s', s'.calls[b]);
    }
  }

  // Every reachable state satisfies the invariant.
  lemma {:induction false} ReachableInv(maxSessions: int, run: seq<Step>)
    requires ValidRun(maxSessions, run)
    ensures Inv(After(maxSessions, run))
    decreases |run|
  {
    if run == [] {
      var s := Init(maxSessions);
      assert HoldingCreates(s) == {} && LiveRunners(s) == {};
    } else {
      ReachableInv(maxSessions, run[..|run| - 1]);
      StepKeepsInv(After(maxSessions, run[..|run| - 1]), run[|run| - 1]);
    }
  }
}
