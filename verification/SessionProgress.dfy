// Progress: a cancelled session's runner always has a next step and finishes
// after finitely many, so Shutdown returns and no lock or channel cycle exists.
// startInteractive and extractAfterInteraction are assumed to return.
module SessionProgress {
  import opened Counting
  import opened Models
  import opened SessionProtocol
  import opened SessionInvariant
  import opened SessionSafety

  // An upper bound on the steps a runner still has to take.
  function RunnerRank(pc: RunnerPC): nat {
    match pc
    case NotSpawned => 12
    case Starting => 11
    case Launching => 10
    case Announcing => 9
    case Selecting => 8
    case AbortKill(_) => 8
    case AbortCleanup(_) => 7
    case Extracting => 7
    case StartFailed(_) => 6
    case Cancelling => 6
    case Expiring => 6
    case Storing(_) => 6
    case DeferCancel => 5
    case DeferCleanup => 4
    case DeferClose => 3
    case DeferRemove => 2
    case DeferRelease => 1
    case Finished => 0
  }

  // A choice that needs no further help once cancelCh is closed: foreign calls
  // return and the select finds cancelCh ready.
  function UnaidedChoice(x: Session): Choice {
    match x.pc
    case Starting => MakeProfile
    case Launching => Launched
    case Selecting => TakeCancel
    case Extracting => Extracted(BrowserResult(Completed, None, None))
    case _ => Proceed
  }

  lemma ProceedLowersRank(x: Session)
    requires !x.pc.NotSpawned? && !x.pc.Finished? && !x.pc.Starting? && !x.pc.Launching? && !x.pc.Selecting?
      && !x.pc.Extracting?
    ensures RunnerRank(RunnerNext(x, Proceed).pc) < RunnerRank(x.pc)
  {
    match x.pc
    case AbortKill(_) =>
    case AbortCleanup(_) =>
    case StartFailed(_) =>
    case Announcing =>
    case Cancelling =>
    case Expiring =>
    case Storing(_) =>
    case DeferCancel =>
    case DeferCleanup =>
    case DeferClose =>
    case DeferRemove =>
    case DeferRelease =>
  }

  lemma RunnerRankDecreases(x: Session, c: Choice, serviceDone: bool)
    requires RunnerEnabled(x, c, serviceDone)
    ensures RunnerRank(RunnerNext(x, c).pc) < RunnerRank(x.pc)
  {
    match x.pc
    case Starting =>
    case Launching =>
    case Selecting =>
    case Extracting =>
    case NotSpawned =>
    case Finished =>
    case _ => ProceedLowersRank(x);
  }

  lemma UnaidedChoiceEnabled(x: Session, serviceDone: bool)
    requires x.cancelClosed && !x.pc.NotSpawned? && !x.pc.Finished?
    ensures RunnerEnabled(x, UnaidedChoice(x), serviceDone)
  {
  }

  lemma StepNeverRaisesRank(s: State, step: Step, t: Token)
    requires Inv(s) && Enabled(s, step) && t in s.sessions
    ensures t in Apply(s, step).sessions
    ensures RunnerRank(Apply(s, step).sessions[t].pc) <= RunnerRank(s.sessions[t].pc)
  {
    if step.Runner? {
      RunnerRankDecreases(s.sessions[step.t], step.c, s.serviceDone);
    } else {
      CallStepSessions(s, step, t);
    }
  }

  lemma {:induction false} RankAlongRun(m: int, run: seq<Step>, k: nat, t: Token)
    requires ValidRun(m, run) && k <= |run| && ValidRun(m, run[..k]) && t in After(m, run[..k]).sessions
    ensures t in After(m, run).sessions
    ensures RunnerRank(After(m, run).sessions[t].pc) <= RunnerRank(After(m, run[..k]).sessions[t].pc)
    decreases |run|
  {
    if k == |run| {
      assert run[..k] == run;
    } else {
      var front := run[..|run| - 1];
      assert front[..k] == run[..k];
      RankAlongRun(m, front, k, t);
      ReachableInv(m, front);
      StepNeverRaisesRank(After(m, front), run[|run| - 1], t);
    }
  }

  // From any reachable state in which a session's cancelCh is closed, its
  // spawned runner is never stuck before the slot is freed; each of its steps
  // lowers the rank and no step of anyone else raises it.
  lemma CancelledRunnerProgresses(m: int, run: seq<Step>, t: Token)
    requires ValidRun(m, run) && t in After(m, run).sessions
    requires var x := After(m, run).sessions[t]; x.cancelClosed && RunnerHoldsSlot(x.pc)
    ensures var s := After(m, run);
      && Enabled(s, Runner(t, UnaidedChoice(s.sessions[t])))
      && (forall c :: Enabled(s, Runner(t, c)) ==>
            RunnerRank(Apply(s, Runner(t, c)).sessions[t].pc) < RunnerRank(s.sessions[t].pc))
      && (forall step :: Enabled(s, step) ==>
            && t in Apply(s, step).sessions
            && RunnerRank(Apply(s, step).sessions[t].pc) <= RunnerRank(s.sessions[t].pc))
  {
    ReachableInv(m, run);
    var s := After(m, run);
    UnaidedChoiceEnabled(s.sessions[t], s.serviceDone);
    if s.sessions[t].pc.DeferRelease? {
      MemberMeansNonempty(t, LiveRunners(s));
    }
    forall c | Enabled(s, Runner(t, c))
      ensures RunnerRank(Apply(s, Runner(t, c)).sessions[t].pc) < RunnerRank(s.sessions[t].pc)
    {
      RunnerRankDecreases(s.sessions[t], c, s.serviceDone);
    }
    forall step | Enabled(s, step)
      ensures t in Apply(s, step).sessions && RunnerRank(Apply(s, step).sessions[t].pc) <= RunnerRank(s.sessions[t].pc)
    {
      StepNeverRaisesRank(s, step, t);
    }
  }

  // ---- Shutdown ----------------------------------------------------------------

  // Runner steps left over the sessions Shutdown has not passed yet.
  function RemainingRank(s: State, tokens: seq<Token>, i: nat): nat
    requires i <= |tokens| && TokensKnown(s, tokens)
    decreases |tokens| - i
  {
    if i == |tokens| then 0 else RunnerRank(s.sessions[tokens[i]].pc) + RemainingRank(s, tokens, i + 1)
  }

  predicate InShutdownLoop(pc: CallPC) {
    pc.ShutdownAt? || pc.ShutdownClosing? || pc.ShutdownWaiting? || pc.ShutdownReturned?
  }

  predicate LoopOk(s: State, pc: CallPC) {
    InShutdownLoop(pc) && TokensKnown(s, pc.tokens) && (!pc.ShutdownReturned? ==> pc.i <= |pc.tokens|)
  }

  // Work left for a Shutdown call that has taken its snapshot.
  function Work(s: State, pc: CallPC): nat
    requires LoopOk(s, pc)
  {
    if pc.ShutdownReturned? then 0
    else RemainingRank(s, pc.tokens, pc.i) + 3 * (|pc.tokens| - pc.i)
         + if pc.ShutdownAt? then 2 else if pc.ShutdownClosing? then 1 else 0
  }

  lemma LoopInvariant(s: State, a: ActorId)
    requires Inv(s) && a in s.calls && InShutdownLoop(s.calls[a])
    ensures LoopOk(s, s.calls[a]) && CallInv(s, s.calls[a])
  {
    assert CallInv(s, s.calls[a]);
  }

  lemma {:induction false} RemainingNeverGrows(s: State, step: Step, tokens: seq<Token>, i: nat)
    requires Inv(s) && Enabled(s, step) && i <= |tokens| && TokensKnown(s, tokens)
    ensures TokensKnown(Apply(s, step), tokens)
    ensures RemainingRank(Apply(s, step), tokens, i) <= RemainingRank(s, tokens, i)
    decreases |tokens| - i
  {
    forall j | 0 <= j < |tokens| ensures tokens[j] in Apply(s, step).sessions {
      StepNeverRaisesRank(s, step, tokens[j]);
    }
    if i < |tokens| {
      StepNeverRaisesRank(s, step, tokens[i]);
      RemainingNeverGrows(s, step, tokens, i + 1);
    }
  }

  lemma OtherCallsStay(s: State, step: Step, a: ActorId)
    requires Enabled(s, step) && a in s.calls
    requires step.Runner? || step.ServiceStop? || step.a != a
    ensures a in Apply(s, step).calls && Apply(s, step).calls[a] == s.calls[a]
  {
  }

  // This step does some of the work of Shutdown call a.
  ghost predicate DoesWork(s: State, step: Step, a: ActorId) {
    && Enabled(s, step)
    && a in s.calls && LoopOk(s, s.calls[a])
    && a in Apply(s, step).calls && LoopOk(Apply(s, step), Apply(s, step).calls[a])
    && Work(Apply(s, step), Apply(s, step).calls[a]) < Work(s, s.calls[a])
  }

  lemma ShutdownGetWorks(s: State, a: ActorId)
    requires Inv(s) && Enabled(s, ShutdownGet(a))
    ensures DoesWork(s, ShutdownGet(a), a)
  {
    LoopInvariant(s, a);
    RemainingNeverGrows(s, ShutdownGet(a), s.calls[a].tokens, s.calls[a].i);
  }

  lemma OwnShutdownStepWorks(s: State, step: Step, a: ActorId)
    requires Inv(s) && Enabled(s, step) && a in s.calls && InShutdownLoop(s.calls[a])
    requires step == ShutdownGet(a) || (step.ShutdownClose? && step.a == a) || step == ShutdownAwait(a)
    ensures DoesWork(s, step, a)
  {
    if step == ShutdownGet(a) {
      ShutdownGetWorks(s, a);
    } else {
      LoopInvariant(s, a);
      RemainingNeverGrows(s, step, s.calls[a].tokens, s.calls[a].i);
    }
  }

  lemma OnlyShutdownSteps(s: State, step: Step, a: ActorId)
    requires Enabled(s, step) && a in s.calls && InShutdownLoop(s.calls[a])
    requires !step.Runner? && !step.ServiceStop? && step.a == a
    ensures step == ShutdownGet(a) || (step.ShutdownClose? && step.a == a) || step == ShutdownAwait(a)
  {
  }

  // No step of any actor adds to the work of a running Shutdown.
  lemma WorkNeverGrows(s: State, step: Step, a: ActorId)
    requires Inv(s) && Enabled(s, step) && a in s.calls && InShutdownLoop(s.calls[a])
    ensures LoopOk(s, s.calls[a])
    ensures a in Apply(s, step).calls && LoopOk(Apply(s, step), Apply(s, step).calls[a])
    ensures Work(Apply(s, step), Apply(s, step).calls[a]) <= Work(s, s.calls[a])
  {
    LoopInvariant(s, a);
    var pc := s.calls[a];
    if step.Runner? || step.ServiceStop? || step.a != a {
      OtherCallsStay(s, step, a);
      RemainingNeverGrows(s, step, pc.tokens, if pc.ShutdownReturned? then 0 else pc.i);
    } else {
      OnlyShutdownSteps(s, step, a);
      OwnShutdownStepWorks(s, step, a);
    }
  }

  // A step of the session that Shutdown waits for does some of the work too.
  lemma AwaitedStepWorks(s: State, a: ActorId, step: Step, t: Token)
    requires Inv(s) && Enabled(s, step)
    requires a in s.calls && s.calls[a].ShutdownWaiting? && CallInv(s, s.calls[a])
      && t == s.calls[a].tokens[s.calls[a].i]
    requires (step.Runner? && step.t == t) || (step.Spawn? && SpawningAt(s, step.a, t))
    ensures DoesWork(s, step, a)
  {
    LoopInvariant(s, a);
    OtherCallsStay(s, step, a);
    HeadRankDrops(s, step, t);
    RemainingNeverGrows(s, step, s.calls[a].tokens, s.calls[a].i + 1);
  }

  // Whatever session Shutdown waits for, somebody can take a step towards its end.
  lemma AwaitedStep(s: State, a: ActorId) returns (step: Step)
    requires Inv(s) && a in s.calls && s.calls[a].ShutdownWaiting?
    ensures DoesWork(s, step, a)
  {
    LoopInvariant(s, a);
    var t := s.calls[a].tokens[s.calls[a].i];
    var x := s.sessions[t];
    assert SessionInv(x);
    if x.doneClosed {
      step := ShutdownAwait(a);
      OwnShutdownStepWorks(s, step, a);
    } else if x.pc.NotSpawned? {
      var b :| SpawningAt(s, b, t);
      step := Spawn(b);
      AwaitedStepWorks(s, a, step, t);
    } else {
      UnaidedChoiceEnabled(x, s.serviceDone);
      step := Runner(t, UnaidedChoice(x));
      AwaitedStepWorks(s, a, step, t);
    }
  }

  // A running Shutdown is never stuck: some step of its own, or of the session
  // it waits for, is enabled and does some of its work.
  lemma HelpfulStep(s: State, a: ActorId) returns (step: Step)
    requires Inv(s) && a in s.calls && InShutdownLoop(s.calls[a]) && !s.calls[a].ShutdownReturned?
    ensures DoesWork(s, step, a)
  {
    LoopInvariant(s, a);
    var pc := s.calls[a];
    if pc.ShutdownWaiting? {
      step := AwaitedStep(s, a);
    } else {
      step := if pc.ShutdownAt? then ShutdownGet(a) else ShutdownClose(a, pc.tokens[pc.i]);
      OwnShutdownStepWorks(s, step, a);
    }
  }

  lemma OtherRunnersStay(s: State, step: Step, t: Token)
    requires Inv(s) && Enabled(s, step) && t in s.sessions && !s.sessions[t].pc.NotSpawned?
    requires step.Runner? ==> step.t != t
    ensures t in Apply(s, step).sessions
    ensures var x, y := s.sessions[t], Apply(s, step).sessions[t];
      y.pc == x.pc && y.profile == x.profile && y.browser == x.browser && y.handed == x.handed
  {
    if !step.Runner? {
      CallStepSessions(s, step, t);
    }
  }

  lemma HeadRankDrops(s: State, step: Step, t: Token)
    requires Inv(s) && Enabled(s, step) && t in s.sessions
    requires (step.Runner? && step.t == t) || (step.Spawn? && SpawningAt(s, step.a, t))
    ensures t in Apply(s, step).sessions
    ensures RunnerRank(Apply(s, step).sessions[t].pc) < RunnerRank(s.sessions[t].pc)
  {
    if step.Runner? {
      RunnerRankDecreases(s.sessions[t], step.c, s.serviceDone);
    } else {
      assert CallInv(s, s.calls[step.a]);
    }
  }

  // Call a of the state a run leads to is a Shutdown with at most n work left.
  ghost predicate WorkAtMost(m: int, run: seq<Step>, a: ActorId, n: nat) {
    && ValidRun(m, run)
    && var s := After(m, run);
       && a in s.calls && LoopOk(s, s.calls[a])
       && Work(s, s.calls[a]) <= n
  }

  ghost predicate HasReturned(m: int, run: seq<Step>, a: ActorId) {
    ValidRun(m, run) && a in After(m, run).calls && After(m, run).calls[a].ShutdownReturned?
  }

  lemma ShutdownAdvances(m: int, run: seq<Step>, a: ActorId, n: nat) returns (step: Step)
    requires WorkAtMost(m, run, a, n) && !HasReturned(m, run, a)
    ensures n > 0 && WorkAtMost(m, run + [step], a, n - 1)
  {
    ReachableInv(m, run);
    step := HelpfulStep(After(m, run), a);
    assert (run + [step])[..|run|] == run;
    assert After(m, run + [step]) == Apply(After(m, run), step);
  }

  // How many steps of a run, from the k-th on, did some of the work of call a.
  ghost function Helpful(m: int, run: seq<Step>, k: nat, a: ActorId): nat
    requires ValidRun(m, run)
    decreases |run|
  {
    if |run| <= k then 0
    else
      var front := run[..|run| - 1];
      Helpful(m, front, k, a) + if DoesWork(After(m, front), run[|run| - 1], a) then 1 else 0
  }

  ghost predicate Looping(m: int, run: seq<Step>, a: ActorId) {
    ValidRun(m, run) && a in After(m, run).calls && InShutdownLoop(After(m, run).calls[a])
  }

  lemma LoopingWork(m: int, run: seq<Step>, a: ActorId)
    requires Looping(m, run, a)
    ensures LoopOk(After(m, run), After(m, run).calls[a])
    ensures Work(After(m, run), After(m, run).calls[a]) == 0 <==> HasReturned(m, run, a)
  {
    ReachableInv(m, run);
    LoopInvariant(After(m, run), a);
  }

  // Every helpful step is paid for with some of the work there was at step k.
  lemma {:induction false} HelpIsBounded(m: int, run: seq<Step>, k: nat, a: ActorId, n: nat)
    requires ValidRun(m, run) && k <= |run| && WorkAtMost(m, run[..k], a, n)
    ensures Looping(m, run, a) && LoopOk(After(m, run), After(m, run).calls[a])
    ensures Work(After(m, run), After(m, run).calls[a]) + Helpful(m, run, k, a) <= n
    decreases |run|
  {
    if k == |run| {
      assert run[..k] == run;
    } else {
      var front := run[..|run| - 1];
      assert front[..k] == run[..k];
      HelpIsBounded(m, front, k, a, n);
      ReachableInv(m, front);
      WorkNeverGrows(After(m, front), run[|run| - 1], a);
    }
  }

  // Whatever all the actors do: a Shutdown that has taken its snapshot has
  // returned as soon as the run holds as many helpful steps as there was work
  // left, and until then some helpful step is enabled.
  lemma ShutdownReturns(m: int, run: seq<Step>, k: nat, a: ActorId, n: nat)
    requires ValidRun(m, run) && k <= |run| && WorkAtMost(m, run[..k], a, n)
    ensures Helpful(m, run, k, a) <= n
    ensures Helpful(m, run, k, a) == n ==> HasReturned(m, run, a)
    ensures !HasReturned(m, run, a) ==> exists step :: DoesWork(After(m, run), step, a)
  {
    HelpIsBounded(m, run, k, a, n);
    LoopingWork(m, run, a);
    if !HasReturned(m, run, a) {
      ReachableInv(m, run);
      var step := HelpfulStep(After(m, run), a);
    }
  }

  // From any reachable state it can return within its work.
  lemma {:induction false} ShutdownCanReturn(m: int, run: seq<Step>, a: ActorId, n: nat) returns (ext: seq<Step>)
    requires WorkAtMost(m, run, a, n)
    ensures HasReturned(m, run + ext, a) && |ext| <= n
    decreases n
  {
    if HasReturned(m, run, a) {
      ext := [];
      assert run + [] == run;
    } else {
      var step := ShutdownAdvances(m, run, a, n);
      var rest := ShutdownCanReturn(m, run + [step], a, n - 1);
      ext := [step] + rest;
      assert run + ext == run + [step] + rest;
    }
  }
}
