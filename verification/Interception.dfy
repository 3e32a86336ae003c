// Request interception during one browser run (internal/browser/worker.go): any
// number of handlePausedRequest goroutines share one redirect tracker and one
// policy state. A Step is one critical section or one CDP call of one handler.
module Interception {
  import opened Models
  import opened Counting

  const MAX_REDIRECTS: nat := 10

  // What the destination policy says about a URL: nothing against it (an exempt
  // scheme included), a policy error, or some other error.
  datatype Verdict = Accepted | Refused(err: BrowserError) | Unknown

  // A paused request and the policy's verdict on its URL.
  datatype Request = Request(isRedirect: bool, verdict: Verdict)

  datatype HandlerPC =
    | Arrived                          // redirects.Record() is next, for a redirect
    | Counted(answer: MaybeError)      // with what Record answered; the check is next
    | Violating(err: BrowserError)     // policy.fail is next
    | Aborting                         // fetch.FailRequest is next
    | Passing                          // fetch.ContinueRequest is next
    | Blocked
    | Continued
    | Dropped                          // no CDP target: the handler gives no answer

  // hop is the redirect count that Record left for this request; 0 before.
  datatype Handler = Handler(req: Request, hop: nat, pc: HandlerPC)

  type Hid = nat

  datatype State = State(limit: nat, count: nat, err: MaybeError, handlers: map<Hid, Handler>)

  datatype Step =
    | Arrive(h: Hid, req: Request)
    | Drop(h: Hid)
    | Record(h: Hid)
    | Check(h: Hid)
    | PolicyFail(h: Hid, err: BrowserError)
    | Answer(h: Hid)

  function Init(limit: nat): State { State(limit, 0, None, map[]) }

  predicate Enabled(s: State, step: Step) {
    match step
    case Arrive(h, _) => h !in s.handlers
    case Drop(h) => h in s.handlers && s.handlers[h].pc.Arrived?
    case Record(h) => h in s.handlers && s.handlers[h].pc.Arrived? && s.handlers[h].req.isRedirect
    case Check(h) =>
      h in s.handlers && (if s.handlers[h].req.isRedirect then s.handlers[h].pc.Counted? else s.handlers[h].pc.Arrived?)
    case PolicyFail(h, err) => h in s.handlers && s.handlers[h].pc == Violating(err)
    case Answer(h) => h in s.handlers && (s.handlers[h].pc.Aborting? || s.handlers[h].pc.Passing?)
  }

  const TOO_MANY_REDIRECTS := BrowserError(RedirectLimitExceeded, RedirectChainTooLong)

  // What Record answers on this hop.
  function CountAnswer(limit: nat, hop: nat): MaybeError { if hop > limit then Some(TOO_MANY_REDIRECTS) else None }

  // The error that a verdict leads to: a refused redirect gets a code of its own.
  function VerdictError(req: Request): MaybeError {
    match req.verdict
    case Accepted => None
    case Unknown => Some(BrowserError(BlockedDestination, DestinationNotPermitted))
    case Refused(e) =>
      if req.isRedirect && e.code != RedirectLimitExceeded then Some(BrowserError(RedirectBlocked, e.message))
        else Some(e)
  }

  // checkInterceptedRequest.
  function CheckRequest(x: Handler): MaybeError {
    if x.pc.Counted? && x.pc.answer.Some? then x.pc.answer else VerdictError(x.req)
  }

  function At(s: State, h: Hid, x: Handler): State { s.(handlers := s.handlers[h := x]) }

  function Apply(s: State, step: Step): State
    requires Enabled(s, step)
  {
    match step
    case Arrive(h, req) => At(s, h, Handler(req, 0, Arrived))
    case Drop(h) => At(s, h, s.handlers[h].(pc := Dropped))
    case Record(h) =>
      At(s, h, s.handlers[h].(hop := s.count
        + 1, pc := Counted(CountAnswer(s.limit, s.count + 1)))).(count := s.count + 1)
    case Check(h) =>
      var x := s.handlers[h];
      At(s, h, x.(pc := if CheckRequest(x).Some? then Violating(CheckRequest(x).value) else Passing))
    case PolicyFail(h, err) =>
      At(s, h, s.handlers[h].(pc := Aborting)).(err := if s.err.None? then Some(err) else s.err)
    case Answer(h) =>
      var x := s.handlers[h];
      At(s, h, x.(pc := if x.pc.Aborting? then Blocked else Continued))
  }

  ghost predicate ValidRun(limit: nat, run: seq<Step>)
    decreases |run|, 0
  {
    run == [] ||
    (var front := run[..|run| - 1];
     ValidRun(limit, front) && Enabled(After(limit, front), run[|run| - 1]))
  }

  ghost function After(limit: nat, run: seq<Step>): State
    requires ValidRun(limit, run)
    decreases |run|, 1
  {
    if run == [] then Init(limit) else Apply(After(limit, run[..|run| - 1]), run[|run| - 1])
  }

  // ---- Invariant --------------------------------------------------------------

  // The policy lets the request pass: its destination is accepted and, for a
  // redirect, the limit is not exceeded.
  predicate Admitted(limit: nat, x: Handler) { x.req.verdict.Accepted? && (x.req.isRedirect ==> x.hop <= limit) }

  // Why the request is refused: a redirect beyond the limit whatever its
  // destination; else for its destination, a redirect under the code for
  // redirects but with the policy's own message.
  predicate RefusedFor(limit: nat, x: Handler, err: BrowserError) {
    if x.req.isRedirect && x.hop > limit then err.code == RedirectLimitExceeded && err.message == RedirectChainTooLong
    else
      match x.req.verdict
      case Accepted => false
      case Unknown => err.code == BlockedDestination && err.message == DestinationNotPermitted
      case Refused(e) =>
        && err.message == e.message
        && err.code == if x.req.isRedirect && e.code != RedirectLimitExceeded then RedirectBlocked else e.code
  }

  predicate HandlerInv(s: State, x: Handler) {
    && x.hop <= s.count
    && (x.hop > 0 ==> x.req.isRedirect)
    && (x.pc.Counted? ==>
          x.req.isRedirect && x.hop > 0 && x.pc.answer == if x.hop > s.limit then Some(TOO_MANY_REDIRECTS) else None)
    && (x.pc.Passing? || x.pc.Continued? ==> Admitted(s.limit, x) && (x.req.isRedirect ==> 0 < x.hop))
    && (x.pc.Violating? ==> RefusedFor(s.limit, x, x.pc.err))
    && (x.pc.Aborting? || x.pc.Blocked? ==> s.err.Some? && !Admitted(s.limit, x))
  }

  ghost predicate Inv(s: State) {
    && (forall h :: h in s.handlers ==> HandlerInv(s, s.handlers[h]))
    && (forall h, g :: h in s.handlers && g in s.handlers && s.handlers[h].hop == s.handlers[g].hop > 0 ==> h == g)
  }

  lemma StepKeepsHandlers(s: State, step: Step, h: Hid)
    requires Inv(s) && Enabled(s, step) && h in Apply(s, step).handlers
    ensures HandlerInv(Apply(s, step), Apply(s, step).handlers[h])
  {
    if h in s.handlers {
      assert HandlerInv(s, s.handlers[h]);
    }
  }

  lemma StepKeepsInv(s: State, step: Step)
    requires Inv(s) && Enabled(s, step)
    ensures Inv(Apply(s, step)) && Apply(s, step).limit == s.limit
  {
    var s' := Apply(s, step);
    forall h | h in s'.handlers ensures HandlerInv(s', s'.handlers[h]) {
      StepKeepsHandlers(s, step, h);
    }
    forall h, g | h in s'.handlers && g in s'.handlers && s'.handlers[h].hop == s'.handlers[g].hop > 0 ensures h == g {
      assert h in s.handlers ==> HandlerInv(s, s.handlers[h]);
      assert g in s.handlers ==> HandlerInv(s, s.handlers[g]);
    }
  }

  lemma {:induction false} ReachableInv(limit: nat, run: seq<Step>)
    requires ValidRun(limit, run)
    ensures Inv(After(limit, run)) && After(limit, run).limit == limit
    decreases |run|
  {
    if run != [] {
      ReachableInv(limit, run[..|run| - 1]);
      StepKeepsInv(After(limit, run[..|run| - 1]), run[|run| - 1]);
    }
  }

  // ---- Results -------------------------------------------------------------------

  function ContinuedRedirects(s: State): set<Hid> {
    set h | h in s.handlers && s.handlers[h].pc.Continued? && s.handlers[h].req.isRedirect
  }

  // At most limit redirected requests are continued, in every interleaving.
  lemma RedirectsBounded(limit: nat, run: seq<Step>)
    requires ValidRun(limit, run)
    ensures |ContinuedRedirects(After(limit, run))| <= limit
  {
    ReachableInv(limit, run);
    var s := After(limit, run);
    var hops := UpTo(limit);
    var into: map<Hid, nat> := map h | h in ContinuedRedirects(s) :: s.handlers[h].hop;
    forall h | h in ContinuedRedirects(s) ensures h in into && into[h] in hops {
      assert HandlerInv(s, s.handlers[h]);
    }
    InjectionBound(hops, ContinuedRedirects(s), into);
  }

  // A request is continued only if the policy permits its destination and, for
  // a redirect, only within the limit; it is answered as blocked only otherwise,
  // and when a violation is already recorded.
  lemma AnswersFollowPolicy(limit: nat, run: seq<Step>, h: Hid)
    requires ValidRun(limit, run) && h in After(limit, run).handlers
    ensures var s, x := After(limit, run), After(limit, run).handlers[h];
      && (x.pc.Continued? ==> Admitted(limit, x))
      && (x.pc.Blocked? ==> !Admitted(limit, x) && s.err.Some?)
  {
    ReachableInv(limit, run);
    assert HandlerInv(After(limit, run), After(limit, run).handlers[h]);
  }

  // Every recorded error says why its own request was refused.
  lemma RecordedErrorsMean(limit: nat, run: seq<Step>, k: nat)
    requires ValidRun(limit, run) && k < |run| && run[k].PolicyFail?
    ensures ValidRun(limit, run[..k]) && run[k].h in After(limit, run[..k]).handlers
    ensures RefusedFor(limit, After(limit, run[..k]).handlers[run[k].h], run[k].err)
  {
    StepEnabled(limit, run, k);
    ReachableInv(limit, run[..k]);
    assert HandlerInv(After(limit, run[..k]), After(limit, run[..k]).handlers[run[k].h]);
  }

  lemma StepEnabled(limit: nat, run: seq<Step>, k: nat)
    requires ValidRun(limit, run) && k < |run|
    ensures ValidRun(limit, run[..k]) && Enabled(After(limit, run[..k]), run[k])
  {
    PrefixValid(limit, run, k);
    PrefixValid(limit, run, k + 1);
    assert run[..k + 1][..k] == run[..k];
  }

  // How many redirects a run has counted.
  function Counts(run: seq<Step>): nat {
    if run == [] then 0 else Counts(run[..|run| - 1]) + if run[|run| - 1].Record? then 1 else 0
  }

  lemma {:induction false} CountIsExact(limit: nat, run: seq<Step>)
    requires ValidRun(limit, run)
    ensures After(limit, run).count == Counts(run)
    decreases |run|
  {
    if run != [] {
      CountIsExact(limit, run[..|run| - 1]);
    }
  }

  // A redirect's hop is the number of redirects counted up to and with it.
  lemma {:induction false} HopsCountRedirects(limit: nat, run: seq<Step>, k: nat)
    requires ValidRun(limit, run) && k < |run| && run[k].Record?
    ensures run[k].h in After(limit, run).handlers
    ensures After(limit, run).handlers[run[k].h].hop == Counts(run[..k + 1])
    decreases |run|
  {
    var front, h := run[..|run| - 1], run[k].h;
    if k == |front| {
      assert run[..k + 1] == run;
      CountIsExact(limit, run);
    } else {
      assert front[..k + 1] == run[..k + 1];
      HopsCountRedirects(limit, front, k);
      CountedOnce(limit, run, k);
    }
  }

  // A handler never counts again.
  predicate PastCounting(s: State, h: Hid) {
    h in s.handlers && !s.handlers[h].pc.Arrived?
  }

  lemma {:induction false} StaysPastCounting(limit: nat, run: seq<Step>, k: nat)
    requires ValidRun(limit, run) && k < |run| && run[k].Record?
    ensures PastCounting(After(limit, run), run[k].h)
    decreases |run|
  {
    if k + 1 < |run| {
      StaysPastCounting(limit, run[..|run| - 1], k);
    }
  }

  lemma CountedOnce(limit: nat, run: seq<Step>, k: nat)
    requires ValidRun(limit, run) && k + 1 < |run| && run[k].Record?
    ensures var s, t := After(limit, run[..|run| - 1]), After(limit, run);
      run[k].h in s.handlers && run[k].h in t.handlers && t.handlers[run[k].h].hop == s.handlers[run[k].h].hop
  {
    StaysPastCounting(limit, run[..|run| - 1], k);
  }

  // Step k of the run records an error that handler h's request is refused for.
  predicate RecordedAt(limit: nat, run: seq<Step>, k: nat, h: Hid, x: Handler) {
    k < |run| && run[k].PolicyFail? && run[k].h == h && RefusedFor(limit, x, run[k].err)
  }

  ghost predicate RecordedFor(limit: nat, run: seq<Step>, h: Hid, x: Handler) {
    exists k: nat :: RecordedAt(limit, run, k, h, x)
  }

  lemma RequestStays(s: State, step: Step, h: Hid)
    requires Enabled(s, step) && h in s.handlers && (s.handlers[h].pc.Aborting? || s.handlers[h].pc.Blocked?)
    ensures h in Apply(s, step).handlers
    ensures Apply(s, step).handlers[h].req == s.handlers[h].req && Apply(s, step).handlers[h].hop == s.handlers[h].hop
  {
  }

  // A request answered as blocked recorded an error, and it is one that it was
  // refused for.
  lemma {:induction false} BlockedWasRecorded(limit: nat, run: seq<Step>, h: Hid)
    requires ValidRun(limit, run) && h in After(limit, run).handlers
    requires After(limit, run).handlers[h].pc.Aborting? || After(limit, run).handlers[h].pc.Blocked?
    ensures RecordedFor(limit, run, h, After(limit, run).handlers[h])
    decreases |run|
  {
    var front, step := run[..|run| - 1], run[|run| - 1];
    var s := After(limit, front);
    if h in s.handlers && (s.handlers[h].pc.Aborting? || s.handlers[h].pc.Blocked?) {
      BlockedWasRecorded(limit, front, h);
      var k: nat :| RecordedAt(limit, front, k, h, s.handlers[h]);
      RequestStays(s, step, h);
      assert RecordedAt(limit, run, k, h, After(limit, run).handlers[h]);
    } else {
      RecordedErrorsMean(limit, run, |front|);
      assert run[..|front|] == front;
      assert RecordedAt(limit, run, |front|, h, After(limit, run).handlers[h]);
    }
  }

  // The error of the first policy.fail of a run.
  function FirstFailure(run: seq<Step>): MaybeError {
    if run == [] then None
    else if run[0].PolicyFail? then Some(run[0].err)
    else FirstFailure(run[1..])
  }

  // It is that of a step before which no other violation was recorded.
  lemma {:induction false} FirstFailureIsFirst(run: seq<Step>) returns (k: nat)
    ensures k <= |run| && (forall i :: 0 <= i < k ==> !run[i].PolicyFail?)
    ensures if k < |run| then run[k].PolicyFail? && FirstFailure(run) == Some(run[k].err) else FirstFailure(run).None?
    decreases |run|
  {
    if run == [] || run[0].PolicyFail? {
      k := 0;
    } else {
      k := FirstFailureIsFirst(run[1..]);
      k := k + 1;
    }
  }

  lemma {:induction false} FirstFailureAppend(run: seq<Step>, more: seq<Step>)
    ensures FirstFailure(run + more) == if FirstFailure(run).Some? then FirstFailure(run) else FirstFailure(more)
    decreases |run|
  {
    if run == [] {
      assert run + more == more;
    } else {
      assert (run + more)[1..] == run[1..] + more;
      FirstFailureAppend(run[1..], more);
    }
  }

  // The recorded violation is that of the first policy.fail of the run.
  lemma {:induction false} FirstViolationWins(limit: nat, run: seq<Step>)
    requires ValidRun(limit, run)
    ensures After(limit, run).err == FirstFailure(run)
    decreases |run|
  {
    if run != [] {
      var front, step := run[..|run| - 1], run[|run| - 1];
      assert run == front + [step];
      FirstViolationWins(limit, front);
      FirstFailureAppend(front, [step]);
      assert FirstFailure([step]) == if step.PolicyFail? then Some(step.err) else None;
    }
  }

  lemma {:induction false} PrefixValid(limit: nat, run: seq<Step>, n: nat)
    requires ValidRun(limit, run) && n <= |run|
    ensures ValidRun(limit, run[..n])
    decreases |run|
  {
    if n < |run| {
      PrefixValid(limit, run[..|run| - 1], n);
      assert run[..|run| - 1][..n] == run[..n];
    } else {
      assert run[..n] == run;
    }
  }

  // If no violation was recorded in the first n steps, no request had been
  // answered as blocked by then, and the policy permitted every continued one.
  lemma NothingBlockedBefore(limit: nat, run: seq<Step>, n: nat, h: Hid)
    requires ValidRun(limit, run) && n <= |run| && FirstFailure(run[..n]).None?
    ensures ValidRun(limit, run[..n])
    ensures var s := After(limit, run[..n]);
      h in s.handlers ==>
        !s.handlers[h].pc.Blocked? && (s.handlers[h].pc.Continued? ==> s.handlers[h].req.verdict.Accepted?)
  {
    PrefixValid(limit, run, n);
    FirstViolationWins(limit, run[..n]);
    if h in After(limit, run[..n]).handlers {
      AnswersFollowPolicy(limit, run[..n], h);
    }
  }

  lemma ExtendRun(limit: nat, run: seq<Step>, step: Step)
    requires ValidRun(limit, run) && Enabled(After(limit, run), step)
    ensures ValidRun(limit, run + [step])
    ensures After(limit, run + [step]) == Apply(After(limit, run), step)
  {
    assert (run + [step])[..|run|] == run;
  }

  // Once visible, a violation stays the same for the rest of the run.
  lemma ViolationIsStable(limit: nat, run: seq<Step>, more: seq<Step>)
    requires ValidRun(limit, run) && ValidRun(limit, run + more) && After(limit, run).err.Some?
    ensures After(limit, run + more).err == After(limit, run).err
  {
    FirstViolationWins(limit, run);
    FirstViolationWins(limit, run + more);
    FirstFailureAppend(run, more);
  }

  // A handler that refuses a request and records err.
  function Refusal(h: Hid, err: BrowserError): seq<Step> {
    [Arrive(h, Request(false, Refused(err))), Check(h), PolicyFail(h, err)]
  }

  lemma RefusalFollows(limit: nat, run: seq<Step>, h: Hid, err: BrowserError)
    requires ValidRun(limit, run) && h !in After(limit, run).handlers
    ensures ValidRun(limit, run + Refusal(h, err))
    ensures FirstFailure(run + Refusal(h, err)) == if FirstFailure(run).Some? then FirstFailure(run) else Some(err)
  {
    var more := Refusal(h, err);
    ExtendRun(limit, run, more[0]);
    ExtendRun(limit, run + [more[0]], more[1]);
    ExtendRun(limit, run + [more[0]] + [more[1]], more[2]);
    assert run + more == run + [more[0]] + [more[1]] + [more[2]];
    FirstFailureAppend(run, more);
    assert more[1..][1..] == [more[2]] && FirstFailure([more[2]]) == Some(err);
    assert FirstFailure(more[1..]) == Some(err);
  }

  // After any run a handler may still record a violation.
  lemma ViolationMayFollow(limit: nat, run: seq<Step>, err: BrowserError) returns (more: seq<Step>)
    requires ValidRun(limit, run)
    ensures ValidRun(limit, run + more)
    ensures FirstFailure(run + more) == if FirstFailure(run).Some? then FirstFailure(run) else Some(err)
  {
    var h := FreshNumber(After(limit, run).handlers.Keys);
    more := Refusal(h, err);
    RefusalFollows(limit, run, h, err);
  }

  // ---- The shared objects ---------------------------------------------------------

  class RedirectTracker {
    const limit: nat
    var count: nat

    constructor (limit: nat)
      ensures this.limit == limit && count == 0
    {
      this.limit := limit;
      count := 0;
    }

    method Record() returns (err: MaybeError)
      modifies this`count
      ensures count == old(count) + 1
      ensures err == if count > limit then Some(TOO_MANY_REDIRECTS) else None
    {
      count := count + 1;
      if count > limit {
        return Some(TOO_MANY_REDIRECTS);
      }
      return None;
    }
  }

  class PolicyState {
    var err: MaybeError

    constructor ()
      ensures err.None?
    {
      err := None;
    }

    method Fail(berr: BrowserError)
      modifies this`err
      ensures err == if old(err).None? then Some(berr) else old(err)
    {
      if err.None? {
        err := Some(berr);
      }
    }
  }

  // One browser run's interception: the shared objects and all handlers.
  class Interceptor {
    const tracker: RedirectTracker
    const policy: PolicyState
    var handlers: map<Hid, Handler>
    ghost var run: seq<Step>

    function View(): State
      reads this, tracker, policy
    {
      State(tracker.limit, tracker.count, policy.err, handlers)
    }

    ghost predicate Valid()
      reads this, tracker, policy
    {
      ValidRun(tracker.limit, run) && After(tracker.limit, run) == View()
    }

    constructor (limit: nat)
      ensures Valid() && run == [] && tracker.limit == limit && policy.err.None?
      ensures fresh(tracker) && fresh(policy)
    {
      tracker := new RedirectTracker(limit);
      policy := new PolicyState();
      handlers, run := map[], [];
    }

    method Perform(step: Step)
      requires Enabled(View(), step)
      modifies this`handlers, tracker, policy
      ensures View() == Apply(old(View()), step)
    {
      match step
      case Arrive(h, req) => handlers := handlers[h := Handler(req, 0, Arrived)];
      case Drop(h) => handlers := handlers[h := handlers[h].(pc := Dropped)];
      case Record(h) =>
        var answer := tracker.Record();
        handlers := handlers[h := handlers[h].(hop := tracker.count, pc := Counted(answer))];
      case Check(h) =>
        var out := CheckRequest(handlers[h]);
        handlers := handlers[h := handlers[h].(pc := if out.Some? then Violating(out.value) else Passing)];
      case PolicyFail(h, err) =>
        policy.Fail(err);
        handlers := handlers[h := handlers[h].(pc := Aborting)];
      case Answer(h) =>
        handlers := handlers[h := handlers[h].(pc := if handlers[h].pc.Aborting? then Blocked else Continued)];
    }

    method Do(step: Step)
      requires Valid() && Enabled(View(), step)
      modifies this, tracker, policy
      ensures Valid() && View() == Apply(old(View()), step) && run == old(run) + [step]
    {
      ExtendRun(tracker.limit, run, step);
      Perform(step);
      run := run + [step];
    }

    // Any number of steps of handlers other than `mine`.
    method Interfere(mine: Option<Hid>)
      requires Valid() && (mine.Some? ==> mine.value in handlers)
      modifies this, tracker, policy
      ensures Valid() && old(run) <= run
      ensures mine.Some? ==> mine.value in handlers && handlers[mine.value] == old(handlers[mine.value])
      ensures old(policy.err).Some? ==> policy.err == old(policy.err)
    {
      var n: nat :| true;
      for i := 0 to n
        invariant Valid() && old(run) <= run
        invariant mine.Some? ==> mine.value in handlers && handlers[mine.value] == old(handlers[mine.value])
        invariant old(policy.err).Some? ==> policy.err == old(policy.err)
      {
        var step: Step :| true;
        if Enabled(View(), step) && Some(step.h) != mine {
          Do(step);
        }
      }
    }

    // handlePausedRequest (worker.go:436-458), with the other handlers' steps
    // between any two of its own.
    method HandlePausedRequest(h: Hid, req: Request)
      requires Valid() && h !in handlers
      modifies this, tracker, policy
      ensures Valid() && old(run) <= run && h in handlers && handlers[h].req == req
      ensures handlers[h].pc.Dropped? || handlers[h].pc.Blocked? || handlers[h].pc.Continued?
      ensures handlers[h].pc.Blocked? ==> policy.err.Some? && !Admitted(tracker.limit, handlers[h])
      ensures handlers[h].pc.Continued? ==> Admitted(tracker.limit, handlers[h])
      ensures handlers[h].pc.Continued? && req.isRedirect ==> 0 < handlers[h].hop <= tracker.limit
      ensures handlers[h].pc.Blocked? ==> RecordedFor(tracker.limit, run, h, handlers[h])
    {
      Do(Arrive(h, req));
      Interfere(Some(h));
      var hasTarget: bool :| true;
      if !hasTarget {
        Do(Drop(h));
        return;
      }
      Decide(h);
      Settle(h);
      if handlers[h].pc.Blocked? {
        BlockedWasRecorded(tracker.limit, run, h);
      }
    }

    // checkInterceptedRequest.
    method Decide(h: Hid)
      requires Valid() && h in handlers && handlers[h].pc.Arrived?
      modifies this, tracker, policy
      ensures Valid() && old(run) <= run && h in handlers && handlers[h].req == old(handlers[h].req)
      ensures handlers[h].pc.Violating? || handlers[h].pc.Passing?
    {
      if handlers[h].req.isRedirect {
        Do(Record(h));
        Interfere(Some(h));
      }
      Do(Check(h));
      Interfere(Some(h));
    }

    // Record the violation and abort, or let the request continue.
    method Settle(h: Hid)
      requires Valid() && h in handlers && (handlers[h].pc.Violating? || handlers[h].pc.Passing?)
      modifies this, tracker, policy
      ensures Valid() && old(run) <= run && h in handlers && handlers[h].req == old(handlers[h].req)
      ensures handlers[h].pc.Blocked? || handlers[h].pc.Continued?
      ensures handlers[h].pc.Blocked? ==> policy.err.Some? && !Admitted(tracker.limit, handlers[h])
      ensures handlers[h].pc.Continued? ==> Admitted(tracker.limit, handlers[h])
      ensures handlers[h].pc.Continued? && handlers[h].req.isRedirect ==> 0 < handlers[h].hop <= tracker.limit
    {
      if handlers[h].pc.Violating? {
        Do(PolicyFail(h, handlers[h].pc.err));
        Interfere(Some(h));
      }
      Do(Answer(h));
      ReachableInv(tracker.limit, run);
      assert HandlerInv(View(), handlers[h]);
    }
  }
}
