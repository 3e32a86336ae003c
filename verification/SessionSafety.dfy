// Safety of the session protocol in every reachable interleaving: slot and
// profile bounds, stability of a session's outcome, and what Shutdown guarantees.
module SessionSafety {
  import opened Counting
  import opened Models
  import opened SessionProtocol
  import opened SessionInvariant

  // ---- Counting ---------------------------------------------------------------

  function Unspawned(s: State): set<Token> { set t | t in s.sessions && s.sessions[t].pc.NotSpawned? }

  function Spawning(s: State): set<ActorId> { set a | a in s.calls && s.calls[a].CreateSpawning? }

  lemma UnspawnedBound(s: State)
    requires Inv(s)
    ensures |Unspawned(s)| <= |Spawning(s)|
  {
    forall t | t in Unspawned(s) ensures exists a :: a in Spawning(s) && SpawningAt(s, a, t) {
      var a :| SpawningAt(s, a, t);
      assert a in Spawning(s);
    }
    var owner := map t | t in Unspawned(s) :: Spawner(s, t);
    InjectionBound(Spawning(s), Unspawned(s), owner);
  }

  // The Create call that is about to spawn the runner of session t.
  ghost function Spawner(s: State, t: Token): (a: ActorId)
    requires Inv(s) && t in Unspawned(s)
    ensures SpawningAt(s, a, t) && a in Spawning(s)
  {
    assert exists a :: SpawningAt(s, a, t);
    var a :| SpawningAt(s, a, t);
    a
  }

  // ---- Bounds -------------------------------------------------------------------

  // Registered sessions never exceed slots in use.
  lemma RegistryBound(s: State)
    requires Inv(s)
    ensures |s.registry| <= s.slots
  {
    UnspawnedBound(s);
    assert Spawning(s) <= HoldingCreates(s);
    SubsetBound(Spawning(s), HoldingCreates(s));
    assert s.registry <= Unspawned(s) + LiveRunners(s);
    SubsetBound(s.registry, Unspawned(s) + LiveRunners(s));
    assert Unspawned(s) !! LiveRunners(s);
    assert |Unspawned(s) + LiveRunners(s)| == |Unspawned(s)| + |LiveRunners(s)|;
  }

  lemma LiveProfileHoldsSlot(x: Session)
    requires SessionInv(x) && x.profile.Live?
    ensures RunnerHoldsSlot(x.pc)
  {
  }

  // Live profile directories never exceed slots in use.
  lemma ProfileBound(s: State)
    requires Inv(s)
    ensures |LiveProfiles(s)| <= s.slots
  {
    forall t | t in LiveProfiles(s) ensures t in LiveRunners(s) {
      LiveProfileHoldsSlot(s.sessions[t]);
    }
    SubsetBound(LiveProfiles(s), LiveRunners(s));
  }

  // In every reachable interleaving, each slot in use belongs to one Create call
  // or one runner, and registered sessions and live profiles are bounded by them.
  lemma ResourcesBounded(maxSessions: int, run: seq<Step>)
    requires ValidRun(maxSessions, run)
    ensures var s := After(maxSessions, run);
      && s.slots == |HoldingCreates(s)| + |LiveRunners(s)|
      && |s.registry| <= s.slots <= s.capacity
      && |LiveProfiles(s)| <= s.slots
      && s.capacity == (if maxSessions < 1 then 2 else maxSessions)
  {
    ReachableInv(maxSessions, run);
    RegistryBound(After(maxSessions, run));
    ProfileBound(After(maxSessions, run));
    CapacityConstant(maxSessions, run);
  }

  lemma StepKeepsCapacity(s: State, step: Step)
    requires Enabled(s, step)
    ensures Apply(s, step).capacity == s.capacity
  {
  }

  lemma {:induction false} CapacityConstant(maxSessions: int, run: seq<Step>)
    requires ValidRun(maxSessions, run)
    ensures After(maxSessions, run).capacity == Init(maxSessions).capacity
    decreases |run|
  {
    if run != [] {
      CapacityConstant(maxSessions, run[..|run| - 1]);
      StepKeepsCapacity(After(maxSessions, run[..|run| - 1]), run[|run| - 1]);
    }
  }

  // The two receives from the slots channel never block.
  lemma ReceivesNeverBlock(maxSessions: int, run: seq<Step>, a: ActorId, t: Token)
    requires ValidRun(maxSessions, run)
    ensures var s := After(maxSessions, run);
      && (At(s, a, CreateHolding) ==> Enabled(s, TokenFailed(a)))
      && (t in s.sessions && s.sessions[t].pc.DeferRelease? ==> Enabled(s, Runner(t, Proceed)))
  {
    ReachableInv(maxSessions, run);
    var s := After(maxSessions, run);
    if At(s, a, CreateHolding) {
      MemberMeansNonempty(a, HoldingCreates(s));
    }
    if t in s.sessions && s.sessions[t].pc.DeferRelease? {
      MemberMeansNonempty(t, LiveRunners(s));
    }
  }

  // os.RemoveAll(profileDir) really runs in this runner step.
  predicate RemovesProfile(x: Session) {
    x.pc.AbortCleanup? || (x.pc.DeferCleanup? && x.handed)
  }

  // How often the profile directory of session t was removed in a run.
  ghost function Removals(maxSessions: int, run: seq<Step>, t: Token): nat
    requires ValidRun(maxSessions, run)
    decreases |run|
  {
    if run == [] then 0
    else
      var front, step := run[..|run| - 1], run[|run| - 1];
      Removals(maxSessions, front, t)
      + if step.Runner? && step.t == t && RemovesProfile(After(maxSessions, front).sessions[t]) then 1 else 0
  }

  // What one step does to the profile of session t.
  lemma StepRemovesProfile(s: State, step: Step, t: Token)
    requires Inv(s) && Enabled(s, step) && t in Apply(s, step).sessions
    ensures t !in s.sessions ==> Apply(s, step).sessions[t].profile.NotMade? && !(step.Runner? && step.t == t)
    ensures t in s.sessions && step.Runner? && step.t == t && RemovesProfile(s.sessions[t]) ==>
      s.sessions[t].profile.Live? && Apply(s, step).sessions[t].profile.Removed?
    ensures t in s.sessions && !(step.Runner? && step.t == t && RemovesProfile(s.sessions[t])) ==>
      (Apply(s, step).sessions[t].profile.Removed? <==> s.sessions[t].profile.Removed?)
  {
    if t in s.sessions {
      assert SessionInv(s.sessions[t]);
      if step.Runner? {
        RunnerRemovesProfile(s.sessions[step.t], step.c, s.serviceDone);
      } else {
        CallStepSessions(s, step, t);
      }
    }
  }

  lemma RunnerRemovesProfile(x: Session, c: Choice, serviceDone: bool)
    requires RunnerEnabled(x, c, serviceDone) && ResourcesMatchPC(x)
    ensures RemovesProfile(x) ==> x.profile.Live? && RunnerNext(x, c).profile.Removed?
    ensures !RemovesProfile(x) ==> (RunnerNext(x, c).profile.Removed? <==> x.profile.Removed?)
  {
  }

  lemma {:induction false} RemovalsCounted(maxSessions: int, run: seq<Step>, t: Token)
    requires ValidRun(maxSessions, run)
    ensures var s := After(maxSessions, run);
      Removals(maxSessions, run, t) == if t in s.sessions && s.sessions[t].profile.Removed? then 1 else 0
    decreases |run|
  {
    if run != [] {
      var front := run[..|run| - 1];
      RemovalsCounted(maxSessions, front, t);
      ReachableInv(maxSessions, front);
      SessionsStay(After(maxSessions, front), run[|run| - 1]);
      if t in After(maxSessions, run).sessions {
        StepRemovesProfile(After(maxSessions, front), run[|run| - 1], t);
      }
    }
  }

  lemma SessionsStay(s: State, step: Step)
    requires Enabled(s, step)
    ensures s.sessions.Keys <= Apply(s, step).sessions.Keys
  {
  }

  // Each profile directory is removed at most once in a run, and exactly once, if
  // it was made, when its runner has finished; each removal comes after the
  // session's browser was cancelled and while its slot is still held.
  lemma ProfileRemovedOnce(maxSessions: int, run: seq<Step>, t: Token)
    requires ValidRun(maxSessions, run) && t in After(maxSessions, run).sessions
    ensures var x := After(maxSessions, run).sessions[t];
      && Removals(maxSessions, run, t) == (if x.profile.Removed? then 1 else 0)
      && (RemovesProfile(x) ==> x.profile.Live? && !x.browser && RunnerHoldsSlot(x.pc))
      && (x.pc.DeferRelease? || x.pc.Finished? ==>
            !x.browser && Removals(maxSessions, run, t) == if x.profile.NotMade? then 0 else 1)
  {
    ReachableInv(maxSessions, run);
    RemovalsCounted(maxSessions, run, t);
    var x := After(maxSessions, run).sessions[t];
    assert SessionInv(x);
  }

  // ---- Outcome -------------------------------------------------------------------

  lemma RunnerStepGrowsSession(s: State, u: Token, c: Choice, t: Token)
    requires Inv(s) && Enabled(s, Runner(u, c)) && t in s.sessions
    ensures var s' := Apply(s, Runner(u, c));
      t in s'.sessions && SessionGrows(s.sessions[t], s'.sessions[t])
  {
    RunnerGrowsSession(s.sessions[u], c, s.serviceDone);
  }

  // What a step that is not a runner's does to the sessions.
  lemma CallStepSessions(s: State, step: Step, t: Token)
    requires Inv(s) && Enabled(s, step) && !step.Runner? && t in s.sessions
    ensures t in Apply(s, step).sessions
    ensures var x, y := s.sessions[t], Apply(s, step).sessions[t];
      || y == x
      || y == x.(continueClosed := true)
      || y == x.(cancelClosed := true)
      || (x.pc.NotSpawned? && y == x.(pc := Starting))
  {
    if step.Spawn? {
      assert CallInv(s, s.calls[step.a]);
    }
  }

  lemma StepGrowsSession(s: State, step: Step, t: Token)
    requires Inv(s) && Enabled(s, step) && t in s.sessions
    ensures t in Apply(s, step).sessions && SessionGrows(s.sessions[t], Apply(s, step).sessions[t])
  {
    if step.Runner? {
      RunnerStepGrowsSession(s, step.t, step.c, t);
    } else {
      CallStepSessions(s, step, t);
    }
  }

  lemma ExtendRun(maxSessions: int, run: seq<Step>, step: Step)
    requires ValidRun(maxSessions, run) && Enabled(After(maxSessions, run), step)
    ensures ValidRun(maxSessions, run + [step])
    ensures After(maxSessions, run + [step]) == Apply(After(maxSessions, run), step)
  {
    assert (run + [step])[..|run|] == run;
  }

  // Prefixes of a run are runs.
  lemma {:induction false} PrefixValid(maxSessions: int, run: seq<Step>, k: nat)
    requires ValidRun(maxSessions, run) && k <= |run|
    ensures ValidRun(maxSessions, run[..k])
    decreases |run|
  {
    if k == |run| {
      assert run[..k] == run;
    } else {
      PrefixValid(maxSessions, run[..|run| - 1], k);
      assert run[..|run| - 1][..k] == run[..k];
    }
  }

  lemma {:induction false} SessionGrowsAlongRun(maxSessions: int, run: seq<Step>, k: nat, t: Token)
    requires ValidRun(maxSessions, run) && k <= |run| && ValidRun(maxSessions, run[..k])
    requires t in After(maxSessions, run[..k]).sessions
    ensures t in After(maxSessions, run).sessions
    ensures SessionGrows(After(maxSessions, run[..k]).sessions[t], After(maxSessions, run).sessions[t])
    decreases |run|
  {
    if k == |run| {
      assert run[..k] == run;
    } else {
      var front := run[..|run| - 1];
      assert front[..k] == run[..k];
      SessionGrowsAlongRun(maxSessions, front, k, t);
      ReachableInv(maxSessions, front);
      StepGrowsSession(After(maxSessions, front), run[|run| - 1], t);
    }
  }

  // Over every run a session leaves `waiting` at most once: once decided, its
  // status and result never change. Each status fixes what the result is.
  lemma OutcomeIsFinal(maxSessions: int, run: seq<Step>, k: nat, t: Token)
    requires ValidRun(maxSessions, run) && k <= |run|
    ensures ValidRun(maxSessions, run[..k])
    ensures t in After(maxSessions, run[..k]).sessions ==>
      && t in After(maxSessions, run).sessions
      && var x, y := After(maxSessions, run[..k]).sessions[t], After(maxSessions, run).sessions[t];
         && (x.status != Waiting ==> y.status == x.status && y.result == x.result)
         && ResultMatchesStatus(y)
  {
    PrefixValid(maxSessions, run, k);
    ReachableInv(maxSessions, run);
    if t in After(maxSessions, run[..k]).sessions {
      SessionGrowsAlongRun(maxSessions, run, k, t);
    }
  }

  // ---- Shutdown --------------------------------------------------------------------

  // When Shutdown has returned, every session of its snapshot, including those
  // it skipped, has doneCh closed; such a session is still registered exactly
  // while its runner stands between close(doneCh) and the registry delete.
  lemma ShutdownWaitsForAll(maxSessions: int, run: seq<Step>, a: ActorId, tokens: seq<Token>, j: nat)
    requires ValidRun(maxSessions, run) && At(After(maxSessions, run), a, ShutdownReturned(tokens)) && j < |tokens|
    ensures var s := After(maxSessions, run);
      && tokens[j] in s.sessions
      && s.sessions[tokens[j]].doneClosed
      && s.sessions[tokens[j]].status != Waiting
      && !s.sessions[tokens[j]].profile.Live?
      && (tokens[j] in s.registry <==> s.sessions[tokens[j]].pc.DeferRemove?)
  {
    ReachableInv(maxSessions, run);
    var s := After(maxSessions, run);
    assert CallInv(s, s.calls[a]);
    assert SessionInv(s.sessions[tokens[j]]);
  }
}
