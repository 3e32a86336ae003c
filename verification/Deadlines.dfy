// Context deadlines over an abstract clock: context.WithTimeout never extends
// the deadline of its parent.
module Deadlines {
  import opened Models

  type Time = nat

  // A caller's context, or one derived from it.
  datatype Context =
    | Root(deadline: nat, bounded: bool)
    | WithTimeout(parent: Context, at: Time, timeout: nat)

  predicate HasDeadline(c: Context) {
    match c
    case Root(_, bounded) => bounded
    case WithTimeout(_, _, _) => true
  }

  // WithDeadline keeps the parent's deadline if that is earlier.
  function Deadline(c: Context): Time
    requires HasDeadline(c)
  {
    match c
    case Root(d, _) => d
    case WithTimeout(p, at, t) => if HasDeadline(p) && Deadline(p) < at + t then Deadline(p) else at + t
  }

  // A derived context ends with its own timeout or with its parent, whichever is first.
  lemma DeadlineIsEarliest(p: Context, at: Time, timeout: nat)
    ensures var d := Deadline(WithTimeout(p, at, timeout));
      && d <= at + timeout && (HasDeadline(p) ==> d <= Deadline(p))
      && (d == at + timeout || (HasDeadline(p) && d == Deadline(p)))
  {
  }

  predicate Within(c: Context, limit: Time) { HasDeadline(c) && Deadline(c) <= limit }

  // c is root or was derived from it.
  predicate Descends(c: Context, root: Context) {
    c == root || (c.WithTimeout? && Descends(c.parent, root))
  }

  // Every context derived from a bounded one keeps its bound.
  lemma {:induction false} DescendantsStayWithin(c: Context, root: Context, limit: Time)
    requires Descends(c, root) && Within(root, limit)
    ensures Within(c, limit)
    decreases c
  {
    if c != root {
      DescendantsStayWithin(c.parent, root, limit);
    }
  }

  // What one browser operation does; the query actions wait for the element first.
  datatype OpKind =
    | EnableInterception
    | NavigateTo(url: string)
    | ClickOn(selector: string)
    | FillIn(selector: string, value: string)
    | ChooseOption(selector: string, value: string)
    | AwaitVisible(selector: string)
    | ReadLocation
    | Capture
    | ExtractPage

  // passed is an error of the worker's own that a failed operation hands through;
  // location is what the browser reports to ReadLocation; identifier is the one
  // under which the store accepts what Capture delivers, None if saving it fails.
  datatype Outcome =
    | OpFailed(passed: MaybeError, contextDone: bool)
    | OpDone(location: string, identifier: Option<ArtifactId>)

  function Located(outcome: Outcome): string { if outcome.OpDone? then outcome.location else "" }

  function Stored(outcome: Outcome): Option<ArtifactId> { if outcome.OpDone? then outcome.identifier else None }

  // seen counts the steps that request handlers had taken when it returned.
  datatype Op = Op(kind: OpKind, context: Context, start: Time, end: Time, outcome: Outcome, seen: nat)

  // Context c was derived from parent between the end of the operation before
  // the n-th and the start of the n-th.
  predicate DerivedFor(ops: seq<Op>, n: nat, c: Context, parent: Context, timeout: nat)
    requires n < |ops|
  {
    && c.WithTimeout? && c.parent == parent && c.timeout == timeout
    && c.at <= ops[n].start && (n > 0 ==> ops[n - 1].end <= c.at)
  }

  // Operation n runs under a context of its own, derived from parent.
  predicate Under(ops: seq<Op>, n: nat, parent: Context, timeout: nat)
    requires n < |ops|
  {
    DerivedFor(ops, n, ops[n].context, parent, timeout)
  }

  // The operation runs under limit and returns once its context is done.
  predicate Timely(op: Op, limit: Time) {
    && Within(op.context, limit)
    && op.start <= op.end
    && (op.end <= Deadline(op.context) || op.end == op.start)
  }

  // An operation takes no longer than the timeout of any context it descends
  // from that was derived before it started, and ends by the parent's deadline
  // if it started by then.
  lemma OwnTimeoutHolds(ops: seq<Op>, n: nat, c: Context, parent: Context, timeout: nat, limit: Time)
    requires n < |ops| && DerivedFor(ops, n, c, parent, timeout) && Descends(ops[n].context, c) && Timely(ops[n], limit)
    ensures ops[n].end <= ops[n].start + timeout
    ensures HasDeadline(parent) && ops[n].start <= Deadline(parent) ==> ops[n].end <= Deadline(parent)
  {
    DescendantsStayWithin(ops[n].context, c, Deadline(c));
  }

  // Operations of one goroutine follow each other.
  predicate Sequential(ops: seq<Op>, from: Time) {
    && (ops != [] ==> from <= ops[0].start)
    && (forall i, j :: 0 <= i < j < |ops| ==> ops[i].end <= ops[j].start && ops[i].seen <= ops[j].seen)
  }

  predicate AllTimely(ops: seq<Op>, limit: Time) { forall i :: 0 <= i < |ops| ==> Timely(ops[i], limit) }

  function TotalTime(ops: seq<Op>): int {
    if ops == [] then 0 else ops[0].end - ops[0].start + TotalTime(ops[1..])
  }

  lemma {:induction false} TotalTimeAppend(ops: seq<Op>, op: Op)
    ensures TotalTime(ops + [op]) == TotalTime(ops) + (op.end - op.start)
    decreases |ops|
  {
    if ops == [] {
      assert [] + [op] == [op] && [op][1..] == [];
    } else {
      assert (ops + [op])[1..] == ops[1..] + [op];
      TotalTimeAppend(ops[1..], op);
    }
  }

  // However many operations there are and whatever their own timeouts, together
  // they take no longer than from the start to the common limit.
  lemma {:induction false} TotalTimeBounded(ops: seq<Op>, from: Time, limit: Time)
    requires Sequential(ops, from) && AllTimely(ops, limit)
    ensures TotalTime(ops) <= if from <= limit then limit - from else 0
    decreases |ops|
  {
    if ops != [] {
      var op := ops[0];
      assert Timely(op, limit);
      assert ops[1..] != [] ==> ops[1..][0] == ops[1];
      TotalTimeBounded(ops[1..], op.end, limit);
    }
  }
}
