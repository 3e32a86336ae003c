// The resources that all handlers of cmd/worker/main.go share: the slots
// channel, the in-flight counter, the temporary profiles and the artifact store.
// A Step is one event of one handler; a run is any interleaving of handlers.
module Server {
  import opened Models
  import opened Artifacts
  import opened Counting
  import opened Lifecycle
  import opened Ledger
  import opened BrowserRuns
  import opened Handlers

  type Hid = nat

  datatype State = State(
    capacity: nat,
    initial: set<ArtifactId>,     // what the store held at the start
    slots: nat,                   // tokens in the slots channel
    inFlight: int,
    profiles: set<Hid>,           // handlers whose profile directory exists
    store: set<ArtifactId>,
    issued: set<ArtifactId>,      // every identifier the store gave out
    handlers: map<Hid, Local>
  )

  datatype Step = Step(h: Hid, e: Event)

  function Init(capacity: nat, initial: set<ArtifactId>): State {
    State(capacity, initial, 0, 0, {}, initial, {}, map[])
  }

  function LocalOf(s: State, h: Hid): Local { if h in s.handlers then s.handlers[h] else IDLE }

  // A handler's own discipline, and what the shared resources ask: room for a
  // slot, a token to take back, a fresh identifier.
  predicate Enabled(s: State, step: Step) {
    && Next(LocalOf(s, step.h), step.e).Some?
    && match step.e
       case SlotTaken => s.slots < s.capacity
       case SlotFreed => s.slots > 0
       case Saved(id) => id !in s.issued && id !in s.initial
       case _ => true
  }

  function Apply(s: State, step: Step): State
    requires Enabled(s, step)
  {
    var t := s.(handlers := s.handlers[step.h := Next(LocalOf(s, step.h), step.e).value]);
    match step.e
    case SlotTaken => t.(slots := s.slots + 1)
    case SlotFreed => t.(slots := s.slots - 1)
    case InFlightUp => t.(inFlight := s.inFlight + 1)
    case InFlightDown => t.(inFlight := s.inFlight - 1)
    case ProfileMade => t.(profiles := s.profiles + {step.h})
    case ProfileRemoved => t.(profiles := s.profiles - {step.h})
    case Saved(id) => t.(store := s.store + {id}, issued := s.issued + {id})
    case Deleted(id) => t.(store := s.store - {id})
    case _ => t
  }

  ghost predicate ValidRun(capacity: nat, initial: set<ArtifactId>, run: seq<Step>)
    decreases |run|, 0
  {
    run == [] ||
    (var front := run[..|run| - 1];
     ValidRun(capacity, initial, front) && Enabled(After(capacity, initial, front), run[|run| - 1]))
  }

  ghost function After(capacity: nat, initial: set<ArtifactId>, run: seq<Step>): State
    requires ValidRun(capacity, initial, run)
    decreases |run|, 1
  {
    if run == [] then Init(capacity, initial) else Apply(After(capacity, initial, run[..|run| - 1]), run[|run| - 1])
  }

  // ---- Invariant --------------------------------------------------------------------

  function Holding(s: State): set<Hid> { set h | h in s.handlers && s.handlers[h].slot }

  function Busy(s: State): set<Hid> { set h | h in s.handlers && s.handlers[h].inFlight }

  function WithProfile(s: State): set<Hid> { set h | h in s.handlers && s.handlers[h].profile }

  predicate CountersInv(s: State) {
    && s.slots == |Holding(s)| && s.slots <= s.capacity
    && s.inFlight == |Busy(s)|
    && s.profiles == WithProfile(s)
  }

  ghost predicate HandlersInv(s: State) {
    && (forall h :: h in s.handlers ==> Nested(s.handlers[h]) && s.handlers[h].issued <= s.issued)
    && (forall h, g :: h in s.handlers && g in s.handlers && h != g ==> s.handlers[h].issued !! s.handlers[g].issued)
  }

  // The store holds its initial contents and what the handlers have live.
  ghost predicate StoreInv(s: State) {
    && s.issued !! s.initial
    && forall id :: id in s.store <==> id in s.initial || exists h :: h in s.handlers && id in s.handlers[h].live
  }

  ghost predicate Inv(s: State) { CountersInv(s) && HandlersInv(s) && StoreInv(s) }

  // Setting one handler's mark changes the marked set by that handler only.
  lemma Toggle(marked: set<Hid>, marked': set<Hid>, h: Hid, before: bool, after: bool)
    requires (h in marked <==> before) && (h in marked' <==> after)
    requires forall g :: g != h ==> (g in marked <==> g in marked')
    ensures |marked'| == |marked| + (if after then 1 else 0) - (if before then 1 else 0)
    ensures marked' == if after then marked + {h} else marked - {h}
  {
    assert marked - {h} == marked' - {h};
    if before { assert marked == (marked - {h}) + {h}; } else { assert marked == marked - {h}; }
    if after { assert marked' == (marked' - {h}) + {h}; } else { assert marked' == marked' - {h}; }
  }

  lemma StepKeepsSlots(s: State, step: Step)
    requires s.slots == |Holding(s)| && s.slots <= s.capacity && Enabled(s, step)
    ensures Apply(s, step).slots == |Holding(Apply(s, step))| && Apply(s, step).slots <= s.capacity
  {
    var l, m := LocalOf(s, step.h), LocalOf(Apply(s, step), step.h);
    assert Apply(s, step).slots == s.slots + (if m.slot then 1 else 0) - (if l.slot then 1 else 0);
    Toggle(Holding(s), Holding(Apply(s, step)), step.h, l.slot, m.slot);
  }

  lemma StepKeepsInFlight(s: State, step: Step)
    requires s.inFlight == |Busy(s)| && Enabled(s, step)
    ensures Apply(s, step).inFlight == |Busy(Apply(s, step))|
  {
    Toggle(Busy(s), Busy(Apply(s, step)), step.h, LocalOf(s, step.h).inFlight,
      LocalOf(Apply(s, step), step.h).inFlight);
  }

  lemma StepKeepsCounters(s: State, step: Step)
    requires CountersInv(s) && Enabled(s, step)
    ensures CountersInv(Apply(s, step))
  {
    StepKeepsSlots(s, step);
    StepKeepsInFlight(s, step);
    var t, h := Apply(s, step), step.h;
    Toggle(WithProfile(s), WithProfile(t), h, LocalOf(s, h).profile, LocalOf(t, h).profile);
  }

  lemma StepKeepsHandlers(s: State, step: Step)
    requires HandlersInv(s) && Enabled(s, step)
    ensures HandlersInv(Apply(s, step))
  {
    NextKeepsNested(LocalOf(s, step.h), step.e);
  }

  lemma StepKeepsStore(s: State, step: Step)
    requires HandlersInv(s) && StoreInv(s) && Enabled(s, step)
    ensures StoreInv(Apply(s, step))
  {
    var t, h := Apply(s, step), step.h;
    forall id ensures id in t.store <==> id in t.initial || exists g :: g in t.handlers && id in t.handlers[g].live {
      if g :| g in s.handlers && id in s.handlers[g].live && g != h {
        assert t.handlers[g] == s.handlers[g];
      }
      assert id in t.handlers[h].live ==> id in s.store || step.e == Saved(id);
    }
  }

  lemma StepKeepsInv(s: State, step: Step)
    requires Inv(s) && Enabled(s, step)
    ensures Inv(Apply(s, step)) && Apply(s, step).capacity == s.capacity && Apply(s, step).initial == s.initial
  {
    StepKeepsCounters(s, step);
    StepKeepsHandlers(s, step);
    StepKeepsStore(s, step);
  }

  lemma {:induction false} ReachableInv(capacity: nat, initial: set<ArtifactId>, run: seq<Step>)
    requires ValidRun(capacity, initial, run)
    ensures var s := After(capacity, initial, run); Inv(s) && s.capacity == capacity && s.initial == initial
    decreases |run|
  {
    if run != [] {
      ReachableInv(capacity, initial, run[..|run| - 1]);
      StepKeepsInv(After(capacity, initial, run[..|run| - 1]), run[|run| - 1]);
    }
  }

  // ---- Results ------------------------------------------------------------------------

  // Profiles, in-flight requests and slots stay ordered and bounded, and taking a
  // token back from the slots channel never blocks.
  lemma PoolBounds(capacity: nat, initial: set<ArtifactId>, run: seq<Step>)
    requires ValidRun(capacity, initial, run)
    ensures var s := After(capacity, initial, run);
      && |s.profiles| <= s.inFlight <= s.slots <= capacity
      && forall h :: h in s.handlers && s.handlers[h].slot ==> s.slots > 0
  {
    ReachableInv(capacity, initial, run);
    var s := After(capacity, initial, run);
    assert forall h :: h in s.handlers ==> Nested(s.handlers[h]);
    SubsetBound(WithProfile(s), Busy(s));
    SubsetBound(Busy(s), Holding(s));
    forall h | h in s.handlers && s.handlers[h].slot ensures s.slots > 0 {
      MemberMeansNonempty(h, Holding(s));
    }
  }

  // The events of handler h, in order.
  function Projection(run: seq<Step>, h: Hid): seq<Event> {
    if run == [] then []
    else Projection(run[..|run| - 1], h) + if run[|run| - 1].h == h then [run[|run| - 1].e] else []
  }

  lemma ProjectionStep(run: seq<Step>, h: Hid)
    requires run != []
    ensures var front, step := run[..|run| - 1], run[|run| - 1];
      Projection(run, h) == if step.h == h then Projection(front, h) + [step.e] else Projection(front, h)
  {
  }

  lemma OneEvent(s: State, step: Step, h: Hid)
    requires Enabled(s, step)
    ensures LocalOf(Apply(s, step), h) == if step.h == h then Next(LocalOf(s, h), step.e).value else LocalOf(s, h)
  {
  }

  // Every handler is where its own events lead, whatever the others do.
  lemma {:induction false} ProjectionLeads(capacity: nat, initial: set<ArtifactId>, run: seq<Step>, h: Hid)
    requires ValidRun(capacity, initial, run)
    ensures Fold(IDLE, Projection(run, h)) == Some(LocalOf(After(capacity, initial, run), h))
    decreases |run|
  {
    if run != [] {
      var front, step := run[..|run| - 1], run[|run| - 1];
      ProjectionLeads(capacity, initial, front, h);
      ProjectionStep(run, h);
      OneEvent(After(capacity, initial, front), step, h);
      if step.h == h {
        FoldAppend(IDLE, Projection(front, h), step.e);
      }
    }
  }

  // In every interleaving each profile that handler h made was removed exactly once,
  // but for one that still exists, and no removal misses its profile.
  lemma ProfileRemovedOnce(capacity: nat, initial: set<ArtifactId>, run: seq<Step>, h: Hid)
    requires ValidRun(capacity, initial, run)
    ensures var s, script := After(capacity, initial, run), Projection(run, h);
      && Count(script, ProfileMade) == Count(script, ProfileRemoved) + (if h in s.profiles then 1 else 0)
      && (Enabled(s, Step(h, ProfileRemoved)) ==>
            h in s.profiles && !s.handlers[h].browser && s.handlers[h].inFlight && s.handlers[h].slot)
      && (AtRest(LocalOf(s, h)) ==> Count(script, ProfileMade) == Count(script, ProfileRemoved))
  {
    ReachableInv(capacity, initial, run);
    ProjectionLeads(capacity, initial, run, h);
    ProfilesRemovedOnce(Projection(run, h));
    if Enabled(After(capacity, initial, run), Step(h, ProfileRemoved)) {
      RemovalFindsProfile(LocalOf(After(capacity, initial, run), h));
    }
  }

  // How often an event occurred in a run, whichever the handler.
  function Total(run: seq<Step>, e: Event): nat {
    if run == [] then 0 else Total(run[..|run| - 1], e) + if run[|run| - 1].e == e then 1 else 0
  }

  // The profiles that exist are as many as were made and not yet removed.
  lemma {:induction false} ProfilesAccounted(capacity: nat, initial: set<ArtifactId>, run: seq<Step>)
    requires ValidRun(capacity, initial, run)
    ensures Total(run, ProfileMade) == Total(run, ProfileRemoved) + |After(capacity, initial, run).profiles|
    decreases |run|
  {
    if run != [] {
      var front, step := run[..|run| - 1], run[|run| - 1];
      ProfilesAccounted(capacity, initial, front);
      ReachableInv(capacity, initial, front);
      StepCountsProfiles(After(capacity, initial, front), step);
    }
  }

  lemma StepCountsProfiles(s: State, step: Step)
    requires CountersInv(s) && Enabled(s, step)
    ensures |Apply(s, step).profiles| == |s.profiles|
      + (if step.e.ProfileMade? then 1 else 0) - (if step.e.ProfileRemoved? then 1 else 0)
  {
  }

  // Every stored artifact was there at the start or belongs to exactly one handler.
  lemma StoreAccounted(capacity: nat, initial: set<ArtifactId>, run: seq<Step>, id: ArtifactId)
    requires ValidRun(capacity, initial, run) && id in After(capacity, initial, run).store - initial
    ensures var s := After(capacity, initial, run);
      exists h :: h in s.handlers && id in s.handlers[h].live &&
        forall g :: g in s.handlers && id in s.handlers[g].live ==> g == h
  {
    ReachableInv(capacity, initial, run);
    var s := After(capacity, initial, run);
    var h :| h in s.handlers && id in s.handlers[h].live;
    forall g | g in s.handlers && id in s.handlers[g].live ensures g == h {
      assert Nested(s.handlers[g]) && Nested(s.handlers[h]);
    }
  }

  // store.Delete refuses none of the artifacts that handlers stored.
  lemma StoredCanBeDeleted(capacity: nat, initial: set<ArtifactId>, run: seq<Step>, id: ArtifactId)
    requires ValidRun(capacity, initial, run) && id in After(capacity, initial, run).store - initial
    ensures OpaqueID(id)
  {
    StoreAccounted(capacity, initial, run, id);
    ReachableInv(capacity, initial, run);
    var s := After(capacity, initial, run);
    var h :| h in s.handlers && id in s.handlers[h].live;
    ProjectionLeads(capacity, initial, run, h);
    IssuedAreOpaque(Projection(run, h));
    assert Nested(s.handlers[h]);
  }

  predicate Quiet(s: State) { s.slots == 0 && s.inFlight == 0 && s.profiles == {} && s.store == s.initial }

  // When every handler is at rest, nothing is left of what they did.
  lemma RestIsQuiet(capacity: nat, initial: set<ArtifactId>, run: seq<Step>)
    requires ValidRun(capacity, initial, run)
    requires forall h :: h in After(capacity, initial, run).handlers ==>
      AtRest(After(capacity, initial, run).handlers[h])
    ensures Quiet(After(capacity, initial, run)) && After(capacity, initial, run).initial == initial
  {
    ReachableInv(capacity, initial, run);
    var s := After(capacity, initial, run);
    assert Holding(s) == {} && Busy(s) == {} && WithProfile(s) == {};
  }

  // After any interleaving of handlers that all ran to the end of a disciplined
  // script, slots, counter, profiles and store are back where they started.
  lemma InterleavedHandlersRestore(capacity: nat, initial: set<ArtifactId>, run: seq<Step>)
    requires ValidRun(capacity, initial, run)
    requires forall h :: Disciplined(Projection(run, h))
    ensures Quiet(After(capacity, initial, run)) && After(capacity, initial, run).initial == initial
    ensures Total(run, ProfileMade) == Total(run, ProfileRemoved)
  {
    ProfilesAccounted(capacity, initial, run);
    var s := After(capacity, initial, run);
    forall h | h in s.handlers ensures AtRest(s.handlers[h]) {
      ProjectionLeads(capacity, initial, run, h);
      assert Disciplined(Projection(run, h));
    }
    RestIsQuiet(capacity, initial, run);
  }

  lemma {:induction false} FoldPrefix(l: Local, script: seq<Event>, n: nat)
    requires n <= |script| && Fold(l, script).Some?
    ensures Fold(l, script[..n]).Some?
    decreases |script|
  {
    if n < |script| {
      FoldPrefix(l, script[..|script| - 1], n);
      assert script[..|script| - 1][..n] == script[..n];
    } else {
      assert script[..n] == script;
    }
  }

  // A handler in the middle of its script can always go on, except that it is
  // turned away when no slot is free (main.go:188-195) and that identifiers have
  // to be fresh: no interleaving makes it wait for another handler.
  lemma HandlersNeverWait(capacity: nat, initial: set<ArtifactId>, run: seq<Step>, h: Hid, script: seq<Event>)
    requires ValidRun(capacity, initial, run) && Fold(IDLE, script).Some?
    requires Projection(run, h) < script
    ensures var s, e := After(capacity, initial, run), script[|Projection(run, h)|];
      Enabled(s, Step(h, e)) <==>
        && (e.SlotTaken? ==> s.slots < capacity)
        && (e.Saved? ==> e.id !in s.issued && e.id !in initial)
  {
    var done := Projection(run, h);
    var s := After(capacity, initial, run);
    ReachableInv(capacity, initial, run);
    ProjectionLeads(capacity, initial, run, h);
    ScriptGoesOn(done, script);
    if LocalOf(s, h).slot {
      MemberMeansNonempty(h, Holding(s));
    }
  }

  // The next event of a script that keeps the discipline does so too.
  lemma ScriptGoesOn(done: seq<Event>, script: seq<Event>)
    requires Fold(IDLE, script).Some? && done < script && Fold(IDLE, done).Some?
    ensures Next(Fold(IDLE, done).value, script[|done|]).Some?
  {
    assert script[..|done| + 1] == done + [script[|done|]];
    FoldPrefix(IDLE, script, |done| + 1);
    FoldAppend(IDLE, done, script[|done|]);
  }

  // Whatever runs beside it, when a handler writes its response the store still
  // holds every artifact the response refers to.
  lemma ResponseArtifactsExist(capacity: nat, initial: set<ArtifactId>, run: seq<Step>, h: Hid,
                               script: seq<Event>, written: nat, refs: seq<ArtifactId>)
    requires ValidRun(capacity, initial, run)
    requires Answered(script, written, refs) && Projection(run, h) == script[..written]
    ensures forall id :: id in refs ==> id in After(capacity, initial, run).store
  {
    ReachableInv(capacity, initial, run);
    ProjectionLeads(capacity, initial, run, h);
    var s := After(capacity, initial, run);
    forall id | id in refs ensures id in s.store {
      assert id in LocalOf(s, h).live;
      assert h in s.handlers;
    }
  }

  // ---- The server's fields, updated in place --------------------------------------------

  lemma ProjectionAppend(run: seq<Step>, step: Step, h: Hid)
    ensures Projection(run + [step], h) == Projection(run, h) + if step.h == h then [step.e] else []
  {
    assert (run + [step])[..|run|] == run;
  }

  lemma ExtendRun(capacity: nat, initial: set<ArtifactId>, run: seq<Step>, step: Step)
    requires ValidRun(capacity, initial, run) && Enabled(After(capacity, initial, run), step)
    ensures ValidRun(capacity, initial, run + [step])
    ensures After(capacity, initial, run + [step]) == Apply(After(capacity, initial, run), step)
  {
    assert (run + [step])[..|run|] == run;
  }

  // What a handler was given stays given: no script saves an identifier twice.
  lemma {:induction false} SavedOnce(l: Local, script: seq<Event>, id: ArtifactId)
    requires Fold(l, script).Some? && id in l.issued
    ensures Saved(id) !in script && id in Fold(l, script).value.issued
    decreases |script|
  {
    if script != [] {
      var front := script[..|script| - 1];
      SavedOnce(l, front, id);
      assert script == front + [script[|script| - 1]];
    }
  }

  // A script from l is its first n events and then the rest from where they lead.
  lemma {:induction false} FoldSplit(l: Local, script: seq<Event>, n: nat)
    requires n <= |script| && Fold(l, script).Some?
    ensures Fold(l, script[..n]).Some? && Fold(Fold(l, script[..n]).value, script[n..]) == Fold(l, script)
    decreases |script|
  {
    FoldPrefix(l, script, n);
    if n == |script| {
      assert script[..n] == script && script[n..] == [];
    } else {
      var front := script[..|script| - 1];
      FoldPrefix(l, script, |script| - 1);
      FoldSplit(l, front, n);
      assert front[..n] == script[..n] && script[n..][..|script| - 1 - n] == front[n..];
    }
  }

  class ServerState {
    const capacity: nat
    const initial: set<ArtifactId>
    var slots: nat
    var inFlight: int
    var profiles: set<Hid>
    var store: set<ArtifactId>
    var issued: set<ArtifactId>
    var handlers: map<Hid, Local>
    ghost var run: seq<Step>

    function View(): State
      reads this
    {
      State(capacity, initial, slots, inFlight, profiles, store, issued, handlers)
    }

    ghost predicate Valid()
      reads this
    {
      ValidRun(capacity, initial, run) && After(capacity, initial, run) == View()
    }

    constructor (capacity: nat, initial: set<ArtifactId>)
      ensures Valid() && run == [] && this.capacity == capacity && this.initial == initial
    {
      this.capacity, this.initial := capacity, initial;
      slots, inFlight, profiles, store, issued, handlers, run := 0, 0, {}, initial, {}, map[], [];
    }

    // One event on the shared fields.
    method Perform(h: Hid, e: Event)
      requires Enabled(View(), Step(h, e))
      modifies this
      ensures View() == Apply(old(View()), Step(h, e)) && run == old(run)
    {
      handlers := handlers[h := Next(LocalOf(View(), h), e).value];
      match e
      case SlotTaken => slots := slots + 1;
      case SlotFreed => slots := slots - 1;
      case InFlightUp => inFlight := inFlight + 1;
      case InFlightDown => inFlight := inFlight - 1;
      case ProfileMade => profiles := profiles + {h};
      case ProfileRemoved => profiles := profiles - {h};
      case Saved(id) => store, issued := store + {id}, issued + {id};
      case Deleted(id) => store := store - {id};
      case BrowserLaunched =>
      case BrowserCancelled =>
      case Responded =>
    }

    method Do(h: Hid, e: Event)
      requires Valid() && Enabled(View(), Step(h, e))
      modifies this
      ensures Valid() && View() == Apply(old(View()), Step(h, e)) && run == old(run) + [Step(h, e)]
      ensures Projection(run, h) == Projection(old(run), h) + [e]
    {
      ExtendRun(capacity, initial, run, Step(h, e));
      ProjectionAppend(run, Step(h, e), h);
      Perform(h, e);
      run := run + [Step(h, e)];
    }

    // Any number of events of other handlers, whose identifiers are not reserved.
    method Interfere(me: Hid, reserved: set<ArtifactId>)
      requires Valid() && reserved !! issued
      modifies this
      ensures Valid() && old(run) <= run && reserved !! issued
      ensures Projection(run, me) == Projection(old(run), me) && LocalOf(View(), me) == old(LocalOf(View(), me))
    {
      var n: nat :| true;
      for i := 0 to n
        invariant Valid() && old(run) <= run && reserved !! issued
        invariant Projection(run, me) == Projection(old(run), me) && LocalOf(View(), me) == old(LocalOf(View(), me))
      {
        Other(me, reserved);
      }
    }

    method Other(me: Hid, reserved: set<ArtifactId>)
      requires Valid() && reserved !! issued
      modifies this
      ensures Valid() && old(run) <= run && reserved !! issued
      ensures Projection(run, me) == Projection(old(run), me) && LocalOf(View(), me) == old(LocalOf(View(), me))
    {
      var h: Hid, e: Event :| true;
      if h != me && !(e.Saved? && e.id in reserved) && Enabled(View(), Step(h, e)) {
        ProjectionAppend(run, Step(h, e), me);
        Do(h, e);
      }
    }

    // A handler runs its script while others run theirs. It ends at rest in any
    // case; it is turned away only at a moment when all slots are taken.
    method Serve(h: Hid, script: seq<Event>) returns (served: bool)
      requires Valid() && h !in handlers && Projection(run, h) == [] && Disciplined(script)
      requires forall i :: 0 <= i < |script| && script[i].Saved? ==> script[i].id !in issued && script[i].id !in initial
      modifies this
      ensures Valid() && old(run) <= run && AtRest(LocalOf(View(), h))
      ensures served ==> Projection(run, h) == script
      ensures !served ==> slots == capacity && Projection(run, h) < script && script[|Projection(run, h)|].SlotTaken?
    {
      for i := 0 to |script|
        invariant Valid() && old(run) <= run && Projection(run, h) == script[..i]
        invariant forall j :: i <= j < |script| && script[j].Saved? ==> script[j].id !in issued
      {
        Interfere(h, set j | i <= j < |script| && script[j].Saved? :: script[j].id);
        assert |Projection(run, h)| == i && script[..i] < script;
        HandlersNeverWait(capacity, initial, run, h, script);
        ReachableInv(capacity, initial, run);
        if script[i].SlotTaken? && slots == capacity {
          Idle(h, script, i);
          return false;
        }
        Advance(h, script, i);
      }
      assert script[..|script|] == script;
      ProjectionLeads(capacity, initial, run, h);
      return true;
    }

    // The i-th event of the script.
    method Advance(h: Hid, script: seq<Event>, i: nat)
      requires Valid() && i < |script| && Projection(run, h) == script[..i] && Enabled(View(), Step(h, script[i]))
      requires Fold(IDLE, script).Some?
      requires forall j :: i <= j < |script| && script[j].Saved? ==> script[j].id !in issued
      modifies this
      ensures Valid() && old(run) <= run && Projection(run, h) == script[..i + 1]
      ensures forall j :: i < j < |script| && script[j].Saved? ==> script[j].id !in issued
    {
      Do(h, script[i]);
      assert script[..i] + [script[i]] == script[..i + 1];
      if script[i].Saved? {
        FoldSplit(IDLE, script, i + 1);
        ProjectionLeads(capacity, initial, run, h);
        SavedOnce(Fold(IDLE, script[..i + 1]).value, script[i + 1..], script[i].id);
        assert forall j :: i < j < |script| ==> script[j] == script[i + 1..][j - i - 1];
      }
    }

    // A handler about to take a slot holds nothing.
    lemma Idle(h: Hid, script: seq<Event>, i: nat)
      requires Valid() && i < |script| && Projection(run, h) == script[..i] && script[i].SlotTaken?
        && Fold(IDLE, script).Some?
      ensures AtRest(LocalOf(View(), h))
    {
      ProjectionLeads(capacity, initial, run, h);
      assert script[..i + 1] == script[..i] + [script[i]];
      FoldPrefix(IDLE, script, i + 1);
      FoldAppend(IDLE, script[..i], script[i]);
      FoldNested(script[..i]);
    }
  }
}
