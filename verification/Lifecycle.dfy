// What one request handler does to the worker's shared resources: its task
// slot, the in-flight counter, its temporary profile and browser, and the
// artifacts it stores. A handler's run is a script of such events.
module Lifecycle {
  import opened Models
  import opened Artifacts

  datatype Event =
    | SlotTaken
    | InFlightUp
    | ProfileMade
    | BrowserLaunched
    | BrowserCancelled      // cancelling twice is harmless
    | ProfileRemoved
    | Saved(id: ArtifactId)
    | Deleted(id: ArtifactId)
    | Responded             // the response has been written
    | InFlightDown
    | SlotFreed

  // Where a handler stands.
  datatype Local = Local(
    slot: bool, inFlight: bool, profile: bool, browser: bool, responded: bool,
    live: set<ArtifactId>,     // stored by this handler and not yet deleted
    issued: set<ArtifactId>    // every identifier this handler was given
  )

  const IDLE := Local(false, false, false, false, false, {}, {})

  // The discipline every handler keeps; None is a breach.
  function Next(l: Local, e: Event): Option<Local> {
    match e
    case SlotTaken => if l.slot then None else Some(l.(slot := true, responded := false))
    case InFlightUp => if !l.slot || l.inFlight then None else Some(l.(inFlight := true))
    case ProfileMade => if !l.inFlight || l.profile then None else Some(l.(profile := true))
    case BrowserLaunched => if !l.profile || l.browser then None else Some(l.(browser := true))
    case BrowserCancelled => if !l.profile then None else Some(l.(browser := false))
    case ProfileRemoved => if !l.profile || l.browser then None else Some(l.(profile := false))
    case Saved(id) =>
      if !l.browser || id in l.issued || !OpaqueID(id) then None
      else Some(l.(live := l.live + {id}, issued := l.issued + {id}))
    case Deleted(id) => if id !in l.live then None else Some(l.(live := l.live - {id}))
    case Responded => if !l.inFlight || l.profile || l.responded then None else Some(l.(responded := true))
    case InFlightDown => if !l.inFlight || l.profile || l.live != {} then None else Some(l.(inFlight := false))
    case SlotFreed => if !l.slot || l.inFlight then None else Some(l.(slot := false))
  }

  // Where a script leads from l.
  function Fold(l: Local, script: seq<Event>): Option<Local>
    decreases |script|
  {
    if script == [] then Some(l)
    else match Fold(l, script[..|script| - 1])
         case None => None
         case Some(m) => Next(m, script[|script| - 1])
  }

  // The handler holds nothing any more.
  predicate AtRest(l: Local) { !l.slot && !l.inFlight && !l.profile && !l.browser && l.live == {} }

  // A script that keeps the discipline and ends at rest.
  predicate Disciplined(script: seq<Event>) {
    Fold(IDLE, script).Some? && AtRest(Fold(IDLE, script).value)
  }

  lemma FoldAppend(l: Local, script: seq<Event>, e: Event)
    requires Fold(l, script).Some?
    ensures Fold(l, script + [e]) == Next(Fold(l, script).value, e)
  {
    assert (script + [e])[..|script|] == script;
  }

  // What a handler holds implies what it holds around it.
  predicate Nested(l: Local) {
    && (l.browser ==> l.profile)
    && (l.profile ==> l.inFlight)
    && (l.inFlight ==> l.slot)
    && (l.live != {} ==> l.inFlight)
    && l.live <= l.issued
  }

  lemma NextKeepsNested(l: Local, e: Event)
    requires Nested(l) && Next(l, e).Some?
    ensures Nested(Next(l, e).value)
  {
  }

  lemma OnlySavingIssues(l: Local, e: Event)
    requires Next(l, e).Some? && !e.Saved? && l.live <= l.issued
    ensures Next(l, e).value.issued == l.issued && Next(l, e).value.live <= l.live
  {
  }

  lemma {:induction false} FoldNested(script: seq<Event>)
    requires Fold(IDLE, script).Some?
    ensures Nested(Fold(IDLE, script).value)
    decreases |script|
  {
    if script != [] {
      FoldNested(script[..|script| - 1]);
      NextKeepsNested(Fold(IDLE, script[..|script| - 1]).value, script[|script| - 1]);
    }
  }

  // Every identifier a handler was given passes the check of store.Delete, so
  // that the deletion of an artifact is never refused.
  lemma {:induction false} IssuedAreOpaque(script: seq<Event>)
    requires Fold(IDLE, script).Some?
    ensures forall id :: id in Fold(IDLE, script).value.issued ==> OpaqueID(id)
    decreases |script|
  {
    if script != [] {
      IssuedAreOpaque(script[..|script| - 1]);
    }
  }

  // How often an event occurs in a script.
  function Count(script: seq<Event>, e: Event): nat
    decreases |script|
  {
    if script == [] then 0
    else Count(script[..|script| - 1], e) + if script[|script| - 1] == e then 1 else 0
  }

  // A removal of the profile finds it, and takes it after its browser is gone,
  // while the handler is still in flight.
  lemma RemovalFindsProfile(l: Local)
    requires Nested(l) && Next(l, ProfileRemoved).Some?
    ensures l.profile && !l.browser && l.inFlight && l.slot && !Next(l, ProfileRemoved).value.profile
  {
  }

  // Each profile that a script makes is removed exactly once, but for the one that
  // is there at its end.
  lemma {:induction false} ProfilesRemovedOnce(script: seq<Event>)
    requires Fold(IDLE, script).Some?
    ensures Count(script, ProfileMade) ==
      Count(script, ProfileRemoved) + if Fold(IDLE, script).value.profile then 1 else 0
    decreases |script|
  {
    if script != [] {
      ProfilesRemovedOnce(script[..|script| - 1]);
    }
  }
}
