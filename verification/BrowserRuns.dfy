// One browser run (internal/browser/replay.go, worker.go): a runner goroutine
// that executes browser operations one after the other while request handlers
// run concurrently. Browser operations and saves are nondeterministic outcomes;
// any number of handler steps may happen during each of them.
module BrowserRuns {
  import opened Models
  import opened Utf8
  import opened Artifacts
  import opened Deadlines
  import opened Lifecycle
  import opened Interception
  import opened Ledger
  import opened RunReports
  import Doc = FlowDocument

  class BrowserRun {
    const requests: Interceptor
    const hasStore: bool
    const config: Config
    const base: Local             // where the handler stood when this object took over
    const began: Time
    var now: Time
    var issued: set<ArtifactId>
    ghost var ops: seq<Op>
    ghost var checks: seq<PolicyCheck>
    ghost var script: seq<Event>
    ghost var local: Local
    ghost var unsupported: nat    // executions of executeStep's default branch

    ghost function Footprint(): set<object> { {this, requests, requests.tracker, requests.policy} }

    // The log of the run so far.
    ghost function Past(): Log
      reads this, requests
    {
      Log(ops, checks, requests.run)
    }

    ghost predicate Valid()
      reads Footprint()
    {
      && requests.Valid() && requests.tracker.limit == MAX_REDIRECTS
      && Fold(base, script) == Some(local)
      && issued == local.issued && local.live <= local.issued
      && Sequential(ops, began) && began <= now
      && (forall i :: 0 <= i < |ops| ==> ops[i].end <= now && ops[i].seen <= |requests.run|)
      && ChecksInOrder(checks, |requests.run|)
    }

    constructor (hasStore: bool, config: Config, base: Local, now: Time)
      requires base.live <= base.issued
      ensures Valid() && fresh(Footprint()) && this.base == base && local == base && script == []
      ensures this.hasStore == hasStore && this.config == config && this.now == now && began == now
      ensures Past() == Log([], [], []) && requests.tracker.limit == MAX_REDIRECTS
    {
      requests := new Interceptor(MAX_REDIRECTS);
      this.hasStore, this.config, this.base, this.began, this.now := hasStore, config, base, now, now;
      issued, local := base.issued, base;
      ops, checks, script, unsupported := [], [], [], 0;
    }

    // What every part of a run keeps: the log only grows and time only advances.
    twostate predicate Advances()
      reads Footprint()
    {
      old(now) <= now && Grows(old(Past()), Past()) && unsupported == old(unsupported)
    }

    // The operations since the n-th run under limit.
    ghost predicate OpsWithin(n: nat, limit: Time)
      reads this
    {
      n <= |ops| && forall i :: n <= i < |ops| ==> Timely(ops[i], limit)
    }

    // They also ask only for what a well-formed flow may ask for.
    ghost predicate OpsKeep(n: nat, limit: Time, parse: Doc.URLPolicy)
      reads this
    {
      KeepsTo(ops, n, limit, parse)
    }

    function Env(browserCtx: Context): Setting { Setting(hasStore, config, browserCtx) }

    // ---- Primitive actions ------------------------------------------------------

    ghost method Emit(e: Event)
      requires Valid() && Next(local, e).Some? && !e.Saved?
      modifies this`script, this`local
      ensures Valid() && local.issued == old(local).issued && script == old(script) + [e]
        && local == Next(old(local), e).value
    {
      FoldAppend(base, script, e);
      OnlySavingIssues(local, e);
      script := script + [e];
      local := Next(local, e).value;
    }

    // What a browser operation and, for a capture, the save after it come to. A
    // random identifier may also fail to be drawn.
    method Foreign() returns (outcome: Outcome)
      ensures Stored(outcome).Some? ==> OpaqueID(Stored(outcome).value) && Stored(outcome).value !in issued
    {
      var failed, contextDone: bool, passed: MaybeError, location: string, random: Option<seq<Byte>> :| true;
      if failed {
        return OpFailed(passed, contextDone);
      }
      if random.None? || |random.value| != ID_LENGTH / 2 || HexEncode(random.value) in issued {
        return OpDone(location, None);
      }
      GeneratedIDsAreOpaque(random.value);
      return OpDone(location, Some(HexEncode(random.value)));
    }

    // The time an operation takes under a context, and what it comes to; handlers
    // run meanwhile. It returns once its context is done.
    method AwaitOp(context: Context) returns (start: Time, end: Time, outcome: Outcome)
      requires Valid()
      modifies this`now, requests, requests.tracker, requests.policy
      ensures Valid() && old(requests.run) <= requests.run
      ensures old(now) <= start <= end == now
      ensures HasDeadline(context) ==> end <= Deadline(context) || end == start
      ensures Stored(outcome).Some? ==> OpaqueID(Stored(outcome).value) && Stored(outcome).value !in issued
    {
      requests.Interfere(None);
      start, end :| true;
      start := if start < now then now else start;
      end := if end < start then start else end;
      if HasDeadline(context) && end > Deadline(context) {
        end := if start > Deadline(context) then start else Deadline(context);
      }
      now := end;
      outcome := Foreign();
    }

    ghost method LogOp(op: Op)
      requires Valid() && op.start <= op.end <= now && op.seen == |requests.run|
      requires forall i :: 0 <= i < |ops| ==> ops[i].end <= op.start
      requires began <= op.start
      modifies this`ops
      ensures Valid() && ops == old(ops) + [op]
    {
      ops := ops + [op];
    }

    // A browser operation under a context.
    method RunOp(kind: OpKind, context: Context) returns (outcome: Outcome)
      requires Valid()
      modifies Footprint()
      ensures Valid() && Advances() && checks == old(checks)
      ensures |ops| == |old(ops)| + 1 && ops[..|old(ops)|] == old(ops)
      ensures var op := ops[|old(ops)|];
        op.kind == kind && op.context == context && op.outcome == outcome && old(now) <= op.start
      ensures HasDeadline(context) ==> Timely(ops[|old(ops)|], Deadline(context))
      ensures Stored(outcome).Some? ==> OpaqueID(Stored(outcome).value) && Stored(outcome).value !in issued
      ensures script == old(script) && local == old(local) && issued == old(issued)
    {
      var start, end: Time;
      start, end, outcome := AwaitOp(context);
      LogOp(Op(kind, context, start, end, outcome, |requests.run|));
    }

    // policy.violation(): the check goes into the log.
    method Violation() returns (v: MaybeError)
      requires Valid()
      modifies Footprint()
      ensures Valid() && Advances() && ops == old(ops) && now == old(now)
      ensures |checks| == |old(checks)| + 1
      ensures CheckedAfter(Past(), |old(checks)|, |ops|) && v == Visible(Past(), |old(checks)|)
      ensures script == old(script) && local == old(local) && issued == old(issued)
    {
      requests.Interfere(None);
      v := requests.policy.err;
      checks := checks + [PolicyCheck(|ops|, |requests.run|)];
      FirstViolationWins(requests.tracker.limit, requests.run);
      assert requests.run[..|requests.run|] == requests.run;
    }

    // store.Save of what an operation delivered, under the identifier it gets.
    method Save(outcome: Outcome) returns (id: Option<ArtifactId>)
      requires Valid() && local.browser
      requires Stored(outcome).Some? ==> OpaqueID(Stored(outcome).value) && Stored(outcome).value !in issued
      modifies this`issued, this`script, this`local
      ensures Valid() && id == Stored(outcome) && local == Storing(old(local), id)
      ensures script == old(script) + if id.Some? then [Saved(id.value)] else []
    {
      id := Stored(outcome);
      if id.None? {
        assert script + [] == script;
      } else {
        AddArtifact(id.value);
      }
    }

    method AddArtifact(id: ArtifactId)
      requires Valid() && local.browser && OpaqueID(id) && id !in issued
      modifies this`issued, this`script, this`local
      ensures Valid() && local == Storing(old(local), Some(id)) && script == old(script) + [Saved(id)]
    {
      FoldAppend(base, script, Saved(id));
      issued := issued + {id};
      script := script + [Saved(id)];
      local := local.(live := local.live + {id}, issued := local.issued + {id});
    }

    // A browser operation under a timeout of its own.
    method OwnOp(kind: OpKind, context: Context, timeout: nat) returns (outcome: Outcome)
      requires Valid()
      modifies Footprint()
      ensures Valid() && Advances() && checks == old(checks)
      ensures |ops| == |old(ops)| + 1 && ops[|old(ops)|].kind == kind && ops[|old(ops)|].outcome == outcome
      ensures Under(ops, |old(ops)|, context, timeout) && old(now) <= ops[|old(ops)|].context.at
      ensures HasDeadline(context) ==> Timely(ops[|old(ops)|], Deadline(context))
      ensures Stored(outcome).Some? ==> OpaqueID(Stored(outcome).value) && Stored(outcome).value !in issued
      ensures script == old(script) && local == old(local) && issued == old(issued)
    {
      var opCtx := WithTimeout(context, now, timeout);
      if HasDeadline(context) {
        DescendantsStayWithin(opCtx, context, Deadline(context));
      }
      outcome := RunOp(kind, opCtx);
    }

    // screenshot (worker.go:352-368).
    method Screenshot(context: Context) returns (id: Option<ArtifactId>, err: MaybeError)
      requires Valid() && local.browser
      modifies Footprint()
      ensures Valid() && Advances() && checks == old(checks)
      ensures ShotTaken(Env(context), ops, |old(ops)|, id, err) && Added(old(local), local, id)
      ensures |ops| > |old(ops)| ==> old(now) <= ops[|old(ops)|].context.at
      ensures HasDeadline(context) ==> OpsWithin(|old(ops)|, Deadline(context))
    {
      if !hasStore {
        return None, Some(NO_STORE);
      }
      var outcome := OwnOp(Capture, context, config.extractionTimeout);
      id, err := SaveShot(outcome);
    }

    method SaveShot(outcome: Outcome) returns (id: Option<ArtifactId>, err: MaybeError)
      requires Valid() && local.browser
      requires Stored(outcome).Some? ==> OpaqueID(Stored(outcome).value) && Stored(outcome).value !in issued
      modifies this`issued, this`script, this`local
      ensures Valid() && id == Stored(outcome) && Added(old(local), local, id)
      ensures err == if id.None? then Some(ShotError(outcome)) else None
    {
      if outcome.OpFailed? {
        return None, Some(BrowserError(ScreenshotFailed, CaptureFailed));
      }
      id := Save(outcome);
      err := if id.None? then Some(BrowserError(ScreenshotFailed, StoreFailed)) else None;
    }

    // ---- Flow steps ---------------------------------------------------------------

    // A step that queries the page or navigates: one operation under the step's context.
    method PageStep(stepCtx: Context, step: Doc.Step) returns (err: MaybeError)
      requires Valid() && HasDeadline(stepCtx) && !step.kind.Screenshot? && !step.kind.Unknown?
      modifies Footprint()
      ensures Valid() && Advances() && checks == old(checks) && local == old(local)
      ensures |ops| == |old(ops)| + 1 && ops[|old(ops)|].kind == StepOp(step) && ops[|old(ops)|].context == stepCtx
      ensures old(now) <= ops[|old(ops)|].start && Timely(ops[|old(ops)|], Deadline(stepCtx))
      ensures if Succeeded(step, ops[|old(ops)|]) then err.None?
        else err == Some(StepError(Env(stepCtx), ops, |old(ops)|, step))
    {
      err := None;
      var outcome := RunOp(StepOp(step), stepCtx);
      if outcome.OpFailed? {
        err := Some(ClassifyStepError(outcome));
      } else if step.kind.AssertURL? && outcome.location != step.url {
        err := Some(BrowserError(FlowStepFailed, AssertURLMismatch));
      }
    }

    // The switch of executeStep (replay.go:245-303): at most one operation, under
    // the step's own context.
    method DispatchStep(browserCtx: Context, stepCtx: Context, step: Doc.Step)
      returns (shot: Option<ArtifactId>, err: MaybeError)
      requires Valid() && local.browser && HasDeadline(browserCtx)
        && stepCtx == WithTimeout(browserCtx, now, StepTimeout(step))
      modifies Footprint()
      ensures Valid() && old(now) <= now && Grows(old(Past()), Past()) && checks == old(checks)
      ensures unsupported == old(unsupported) + if step.kind.Unknown? then 1 else 0
      ensures Dispatched(Env(browserCtx), ops, |old(ops)|, step, shot, err)
      ensures Added(old(local), local, shot)
      ensures StepOps(step, |old(ops)|, Deadline(browserCtx))
    {
      DescendantsStayWithin(stepCtx, browserCtx, Deadline(browserCtx));
      shot, err := None, None;
      if step.kind.Screenshot? {
        shot, err := Screenshot(stepCtx);
      } else if step.kind.Unknown? {
        unsupported := unsupported + 1;
        err := Some(UNSUPPORTED);
      } else {
        err := PageStep(stepCtx, step);
      }
    }

    // The best-effort diagnostic screenshot of a failed step.
    method Diagnose(browserCtx: Context, step: Doc.Step) returns (shot: Option<ArtifactId>)
      requires Valid() && local.browser && HasDeadline(browserCtx)
      modifies Footprint()
      ensures Valid() && Advances() && checks == old(checks)
      ensures |ops| == |old(ops)| + if Diagnosed(Env(browserCtx), step) then 1 else 0
      ensures DiagnosticAt(Env(browserCtx), ops, |old(ops)|, step, shot)
      ensures Added(old(local), local, shot)
      ensures forall i :: |old(ops)| <= i < |ops| ==> ops[i].kind == Capture && Timely(ops[i], Deadline(browserCtx))
    {
      shot := None;
      if !step.kind.Screenshot? && hasStore {
        var err: MaybeError;
        shot, err := Screenshot(browserCtx);
      }
    }

    // executeStep (replay.go:232-330): the report is determined by the step's own
    // operation, the policy check after it and the diagnostic screenshot; all it
    // stores is referenced there.
    method ExecuteStep(browserCtx: Context, step: Doc.Step) returns (res: StepResult)
      requires Valid() && local.browser && HasDeadline(browserCtx)
      modifies Footprint()
      ensures Valid() && old(now) <= now && Grows(old(Past()), Past())
      ensures unsupported == old(unsupported) + if step.kind.Unknown? then 1 else 0
      ensures StepDone(Env(browserCtx), Past(), |old(ops)|, |old(checks)|, step, res)
      ensures Added(old(local), local, res.screenshot)
      ensures StepOps(step, |old(ops)|, Deadline(browserCtx))
    {
      var stepCtx := WithTimeout(browserCtx, now, StepTimeout(step));
      var shot, err := DispatchStep(browserCtx, stepCtx, step);
      var v := Violation();
      if v.Some? || err.None? {
        ReportedAtCheck(Env(browserCtx), Past(), |old(ops)|, |old(checks)|, step, shot, err);
        res := StepResult(step.id, step.kind, if v.Some? then Failed else Completed, shot, v);
      } else {
        res := ReportFailure(browserCtx, step, shot, err, |old(ops)|, |old(checks)|);
      }
    }

    // The operations of a step, from the n-th on.
    ghost predicate StepOps(step: Doc.Step, n: nat, limit: Time)
      reads this
    {
      forall i :: n <= i < |ops| ==>
        Timely(ops[i], limit) && (ops[i].kind == Capture || (!step.kind.Unknown? && ops[i].kind == StepOp(step)))
    }

    // The report of a step that did not work, with a diagnostic screenshot.
    method ReportFailure(browserCtx: Context, step: Doc.Step, ghost shot: Option<ArtifactId>, err: MaybeError,
                         ghost n: nat, ghost q: nat)
      returns (res: StepResult)
      requires Valid() && local.browser && HasDeadline(browserCtx) && StepOps(step, n, Deadline(browserCtx))
      requires Dispatched(Env(browserCtx), ops, n, step, shot, err) && err.Some?
      requires CheckedAfter(Past(), q, |ops|) && |checks| == q + 1 && Visible(Past(), q).None?
      modifies Footprint()
      ensures Valid() && Advances() && StepDone(Env(browserCtx), Past(), n, q, step, res)
      ensures Added(old(local), local, res.screenshot) && StepOps(step, n, Deadline(browserCtx))
    {
      var diagnostic := Diagnose(browserCtx, step);
      ReportedAfterDiagnosis(Env(browserCtx), old(Past()), Past(), n, q, step, shot, err, diagnostic);
      res := StepResult(step.id, step.kind, Failed, diagnostic, err);
    }

    // executeStep for a well-formed step.
    method RunStep(browserCtx: Context, step: Doc.Step, ghost parse: Doc.URLPolicy) returns (res: StepResult)
      requires Valid() && local.browser && HasDeadline(browserCtx) && Doc.WellFormedStep(step, parse)
      modifies Footprint()
      ensures Valid() && Advances()
      ensures StepDone(Env(browserCtx), Past(), |old(ops)|, |old(checks)|, step, res)
      ensures Added(old(local), local, res.screenshot) && OpsKeep(|old(ops)|, Deadline(browserCtx), parse)
    {
      WellFormedStepIsProper(step, parse);
      res := ExecuteStep(browserCtx, step);
    }

    // ---- The replay loop ------------------------------------------------------------

    // What the handler stored is what the reports refer to, and the operations
    // from the n-th on keep to the flow's limits.
    ghost predicate Tidy(start: Local, ids: seq<ArtifactId>, n: nat, limit: Time, parse: Doc.URLPolicy)
      reads this
    {
      Gained(start, local, ids) && OpsKeep(n, limit, parse)
    }

    // One iteration, which adds a report to done.
    method AppendStep(browserCtx: Context, step: Doc.Step, ghost done: seq<StepResult>,
                      ghost n: nat, ghost start: Local, ghost parse: Doc.URLPolicy)
      returns (r: StepResult)
      requires Valid() && local.browser && HasDeadline(browserCtx) && Doc.WellFormedStep(step, parse)
      requires Tidy(start, StepRefs(done), n, Deadline(browserCtx), parse)
      modifies Footprint()
      ensures Valid() && Advances() && local.browser
      ensures StepDone(Env(browserCtx), Past(), |old(ops)|, |old(checks)|, step, r)
      ensures Tidy(start, StepRefs(done + [r]), n, Deadline(browserCtx), parse)
    {
      r := RunStep(browserCtx, step, parse);
      StepRefsAppend(done, r);
      GainMore(start, old(local), StepRefs(done), r.screenshot, local);
      KeepsLonger(old(ops), ops, n, Deadline(browserCtx), parse);
    }

    // One more step; error says whether it failed.
    method NextStep(browserCtx: Context, steps: seq<Doc.Step>, done: seq<StepResult>,
                    ghost n: nat, ghost q: nat, ghost start: Local, ghost parse: Doc.URLPolicy)
      returns (longer: seq<StepResult>, error: MaybeError)
      requires Valid() && local.browser && HasDeadline(browserCtx) && Doc.AllWellFormed(steps, parse)
      requires |done| < |steps| && AllCompleted(done) && Replayed(Env(browserCtx), Past(), n, q, steps, done)
      requires Tidy(start, StepRefs(done), n, Deadline(browserCtx), parse)
      modifies Footprint()
      ensures Valid() && Advances() && local.browser
      ensures |longer| == |done| + 1 && Replayed(Env(browserCtx), Past(), n, q, steps, longer)
      ensures Tidy(start, StepRefs(longer), n, Deadline(browserCtx), parse)
      ensures error == LastError(longer) && (error.None? ==> AllCompleted(longer))
    {
      var r := AppendStep(browserCtx, steps[|done|], done, n, start, parse);
      ReplayedMore(Env(browserCtx), old(Past()), Past(), n, q, steps, done, r);
      longer, error := done + [r], r.error;
    }

    lemma NothingYet(browserCtx: Context, steps: seq<Doc.Step>, parse: Doc.URLPolicy)
      requires HasDeadline(browserCtx)
      ensures Replayed(Env(browserCtx), Past(), |ops|, |checks|, steps, [])
      ensures Tidy(local, StepRefs([]), |ops|, Deadline(browserCtx), parse)
    {
      GainNothing(local);
    }

    // The loop of runFlow (replay.go:167-175).
    method RunSteps(browserCtx: Context, steps: seq<Doc.Step>, ghost parse: Doc.URLPolicy)
      returns (done: seq<StepResult>, error: MaybeError)
      requires Valid() && local.browser && HasDeadline(browserCtx) && Doc.AllWellFormed(steps, parse) && steps != []
      modifies Footprint()
      ensures Valid() && Advances() && local.browser
      ensures Replayed(Env(browserCtx), Past(), |old(ops)|, |old(checks)|, steps, done)
      ensures Tidy(old(local), StepRefs(done), |old(ops)|, Deadline(browserCtx), parse)
      ensures LoopStopped(steps, done, error)
    {
      done, error := [], None;
      NothingYet(browserCtx, steps, parse);
      for i := 0 to |steps|
        invariant Valid() && Advances() && local.browser && error.None?
        invariant |done| == i && AllCompleted(done) && error == LastError(done)
        invariant Replayed(Env(browserCtx), Past(), |old(ops)|, |old(checks)|, steps, done)
        invariant Tidy(old(local), StepRefs(done), |old(ops)|, Deadline(browserCtx), parse)
      {
        done, error := NextStep(browserCtx, steps, done, |old(ops)|, |old(checks)|, old(local), parse);
        if error.Some? {
          break;
        }
      }
    }

    // recordFinalURL (replay.go:219-226).
    method RecordFinalURL(browserCtx: Context) returns (finalURL: string)
      requires Valid() && HasDeadline(browserCtx)
      modifies Footprint()
      ensures Valid() && Advances() && checks == old(checks) && local == old(local)
      ensures |ops| == |old(ops)| + 1 && FinalRead(Env(browserCtx), ops, |old(ops)|, finalURL)
      ensures Timely(ops[|old(ops)|], Deadline(browserCtx))
    {
      var outcome := OwnOp(ReadLocation, browserCtx, config.extractionTimeout);
      finalURL := if outcome.OpDone? then outcome.location else "";
    }

    // store.Delete.
    method Delete(id: ArtifactId)
      requires Valid() && id in local.live
      modifies this`script, this`local
      ensures Valid() && local == Next(old(local), Deleted(id)).value && script == old(script) + [Deleted(id)]
    {
      Emit(Deleted(id));
    }

    // The policy check that follows a stored screenshot; a violation deletes it.
    method AuditScreenshot(id: ArtifactId, ghost before: Local) returns (v: MaybeError)
      requires Valid() && before.live <= before.issued && Added(before, local, Some(id))
      modifies Footprint()
      ensures Valid() && Advances() && ops == old(ops) && |checks| == |old(checks)| + 1
      ensures CheckedAfter(Past(), |old(checks)|, |ops|) && v == Visible(Past(), |old(checks)|)
      ensures if v.None? then local == old(local) else Kept(before, local, []) && local.browser == old(local).browser
    {
      v := Violation();
      if v.Some? {
        Discard(id, before);
      }
    }

    // A screenshot that has just been stored is deleted again.
    method Discard(id: ArtifactId, ghost before: Local)
      requires Valid() && before.live <= before.issued && Added(before, local, Some(id))
      modifies this`script, this`local
      ensures Valid() && Kept(before, local, []) && local.browser == old(local).browser
    {
      GainNothing(before);
      GainAndDelete(before, before, [], id, before.(issued := before.issued + {id}));
      assert before.live + {id} - {id} == before.live;
      Delete(id);
    }

    // The screenshot at the end of a browser task or flow run (worker.go:324-337,
    // replay.go:184-200).
    method FinalScreenshot(browserCtx: Context) returns (id: Option<ArtifactId>, err: MaybeError)
      requires Valid() && local.browser && HasDeadline(browserCtx)
      modifies Footprint()
      ensures Valid() && Advances() && local.browser
      ensures ShotOutcome(Env(browserCtx), Past(), |old(ops)|, |old(checks)|, id, err)
      ensures id.Some? <==> err.None?
      ensures if id.Some? then Added(old(local), local, id) else Kept(old(local), local, [])
      ensures forall i :: |old(ops)| <= i < |ops| ==> ops[i].kind == Capture && Timely(ops[i], Deadline(browserCtx))
    {
      id, err := Screenshot(browserCtx);
      if err.Some? {
        ShotNotTaken(Env(browserCtx), Past(), |old(ops)|, |old(checks)|, err);
        GainNothing(old(local));
      } else {
        id, err := KeepOrDelete(browserCtx, id.value, old(local), |old(ops)|);
      }
    }

    // A stored screenshot stays only if the check after it finds nothing.
    method KeepOrDelete(ghost browserCtx: Context, stored: ArtifactId, ghost before: Local, ghost n: nat)
      returns (id: Option<ArtifactId>, err: MaybeError)
      requires Valid() && local.browser && before.live <= before.issued && Added(before, local, Some(stored))
      requires ShotTaken(Env(browserCtx), ops, n, Some(stored), None)
      modifies Footprint()
      ensures Valid() && Advances() && local.browser && ops == old(ops)
      ensures ShotOutcome(Env(browserCtx), Past(), n, |old(checks)|, id, err) && (id.Some? <==> err.None?)
      ensures if id.Some? then Added(before, local, id) else Kept(before, local, [])
    {
      err := AuditScreenshot(stored, before);
      id := if err.Some? then None else Some(stored);
    }

    // The loop and the policy check after it, which overrides its outcome.
    method RunAndCheck(browserCtx: Context, steps: seq<Doc.Step>, ghost parse: Doc.URLPolicy)
      returns (done: seq<StepResult>, error: MaybeError)
      requires Valid() && local.browser && HasDeadline(browserCtx) && Doc.AllWellFormed(steps, parse) && steps != []
      modifies Footprint()
      ensures Valid() && Advances() && local.browser
      ensures LoopOver(Env(browserCtx), Past(), |old(ops)|, |old(checks)|, steps, done, error)
      ensures Tidy(old(local), StepRefs(done), |old(ops)|, Deadline(browserCtx), parse)
    {
      done, error := RunSteps(browserCtx, steps, parse);
      ghost var looped := Past();
      error := CheckLoop(browserCtx, steps, done, error, |old(ops)|, |old(checks)|, old(local), parse);
      GrowsTwice(old(Past()), looped, Past());
    }

    // The check after the loop (replay.go:177-180).
    method CheckLoop(ghost browserCtx: Context, ghost steps: seq<Doc.Step>, ghost done: seq<StepResult>,
                     stopped: MaybeError,
                     ghost n: nat, ghost q: nat, ghost start: Local, ghost parse: Doc.URLPolicy)
      returns (error: MaybeError)
      requires Valid() && HasDeadline(browserCtx) && LoopStopped(steps, done, stopped)
      requires Replayed(Env(browserCtx), Past(), n, q, steps, done)
      requires Tidy(start, StepRefs(done), n, Deadline(browserCtx), parse)
      modifies Footprint()
      ensures Valid() && Advances() && local == old(local)
      ensures LoopOver(Env(browserCtx), Past(), n, q, steps, done, error)
      ensures Tidy(start, StepRefs(done), n, Deadline(browserCtx), parse)
    {
      var v := Violation();
      LoopedAfterCheck(Env(browserCtx), old(Past()), Past(), n, q, steps, done, stopped);
      error := if v.Some? then v else stopped;
    }

    // The loop, the policy check after it, and the final URL (replay.go:167-182).
    method ReplaySteps(browserCtx: Context, steps: seq<Doc.Step>, ghost parse: Doc.URLPolicy)
      returns (done: seq<StepResult>, error: MaybeError, finalURL: string)
      requires Valid() && local.browser && HasDeadline(browserCtx) && Doc.AllWellFormed(steps, parse) && steps != []
      modifies Footprint()
      ensures Valid() && Advances() && local.browser
      ensures Concluded(Env(browserCtx), Past(), |old(ops)|, |old(checks)|, steps, done, error, finalURL)
      ensures Tidy(old(local), StepRefs(done), |old(ops)|, Deadline(browserCtx), parse)
    {
      done, error := RunAndCheck(browserCtx, steps, parse);
      ghost var looped := Past();
      finalURL := ReadAtEnd(browserCtx, steps, done, error, |old(ops)|, |old(checks)|, old(local), parse);
      GrowsTwice(old(Past()), looped, Past());
    }

    method ReadAtEnd(browserCtx: Context, ghost steps: seq<Doc.Step>, ghost done: seq<StepResult>,
                     ghost error: MaybeError,
                     ghost n: nat, ghost q: nat, ghost start: Local, ghost parse: Doc.URLPolicy)
      returns (finalURL: string)
      requires Valid() && HasDeadline(browserCtx) && LoopOver(Env(browserCtx), Past(), n, q, steps, done, error)
      requires Tidy(start, StepRefs(done), n, Deadline(browserCtx), parse)
      modifies Footprint()
      ensures Valid() && Advances() && local == old(local)
      ensures Concluded(Env(browserCtx), Past(), n, q, steps, done, error, finalURL)
      ensures Tidy(start, StepRefs(done), n, Deadline(browserCtx), parse)
    {
      finalURL := ReadKept(browserCtx, n, parse);
      ConcludedAfterRead(Env(browserCtx), old(Past()), Past(), n, q, steps, done, error, finalURL);
    }

    // The end of runFlow (replay.go:184-202).
    method FinishRun(browserCtx: Context, ghost steps: seq<Doc.Step>, done: seq<StepResult>, error: MaybeError,
                     finalURL: string,
                     capture: bool, ghost n: nat, ghost q: nat, ghost start: Local, ghost parse: Doc.URLPolicy)
      returns (r: RunResult)
      requires Valid() && local.browser && HasDeadline(browserCtx)
      requires Concluded(Env(browserCtx), Past(), n, q, steps, done, error, finalURL)
      requires Tidy(start, StepRefs(done), n, Deadline(browserCtx), parse)
      modifies Footprint()
      ensures Valid() && Advances() && local.browser
      ensures StepsOutcome(Env(browserCtx), Past(), n, q, steps, r, capture)
      ensures Kept(start, local, Refs(r)) && OpsKeep(n, Deadline(browserCtx), parse)
    {
      if error.None? && capture {
        r := CaptureRun(browserCtx, steps, done, finalURL, n, q, start, parse);
      } else {
        r := PlainResult(done, error, finalURL);
        PlainOutcome(Env(browserCtx), Past(), n, q, steps, done, error, finalURL, capture);
        assert Refs(r) == StepRefs(done);
      }
    }

    // The final screenshot of a run that nothing stopped.
    method CaptureRun(browserCtx: Context, ghost steps: seq<Doc.Step>, done: seq<StepResult>, finalURL: string,
                      ghost n: nat, ghost q: nat, ghost start: Local, ghost parse: Doc.URLPolicy)
      returns (r: RunResult)
      requires Valid() && local.browser && HasDeadline(browserCtx)
      requires Concluded(Env(browserCtx), Past(), n, q, steps, done, None, finalURL)
      requires Tidy(start, StepRefs(done), n, Deadline(browserCtx), parse)
      modifies Footprint()
      ensures Valid() && Advances() && local.browser
      ensures StepsOutcome(Env(browserCtx), Past(), n, q, steps, r, true)
      ensures Kept(start, local, Refs(r)) && OpsKeep(n, Deadline(browserCtx), parse)
    {
      var id, err := ShootAtEnd(browserCtx, StepRefs(done), n, start, parse);
      ShotAfterSteps(Env(browserCtx), old(Past()), Past(), n, q, steps, done, finalURL, id, err);
      r := PlainResult(done, err, finalURL).(finalScreenshot := id);
    }

    method ShootAtEnd(browserCtx: Context, ghost ids: seq<ArtifactId>, ghost n: nat, ghost start: Local,
                      ghost parse: Doc.URLPolicy)
      returns (id: Option<ArtifactId>, err: MaybeError)
      requires Valid() && local.browser && HasDeadline(browserCtx) && Tidy(start, ids, n, Deadline(browserCtx), parse)
      modifies Footprint()
      ensures Valid() && Advances() && local.browser
      ensures ShotOutcome(Env(browserCtx), Past(), |old(ops)|, |old(checks)|, id, err)
      ensures Kept(start, local, OptionSeq(id) + ids) && OpsKeep(n, Deadline(browserCtx), parse)
    {
      id, err := FinalScreenshot(browserCtx);
      FinalLedger(start, old(local), ids, id, local);
      KeepsLonger(old(ops), ops, n, Deadline(browserCtx), parse);
    }

    // The steps, and the end of the run.
    method ReplayToEnd(browserCtx: Context, steps: seq<Doc.Step>, capture: bool, ghost parse: Doc.URLPolicy)
      returns (r: RunResult)
      requires Valid() && local.browser && HasDeadline(browserCtx) && Doc.AllWellFormed(steps, parse) && steps != []
      modifies Footprint()
      ensures Valid() && Advances() && local.browser
      ensures StepsOutcome(Env(browserCtx), Past(), |old(ops)|, |old(checks)|, steps, r, capture)
      ensures Kept(old(local), local, Refs(r)) && OpsKeep(|old(ops)|, Deadline(browserCtx), parse)
    {
      var done, error, finalURL := ReplaySteps(browserCtx, steps, parse);
      ghost var replayed := Past();
      r := FinishRun(browserCtx, steps, done, error, finalURL, capture, |old(ops)|, |old(checks)|, old(local), parse);
      GrowsTwice(old(Past()), replayed, Past());
    }

    // Everything after the start URL, whose operation, if any, was the n-th.
    method ReplayRest(browserCtx: Context, flow: Doc.Flow, capture: bool,
                      ghost n: nat, ghost q: nat, ghost start: Local, ghost parse: Doc.URLPolicy)
      returns (r: RunResult)
      requires Valid() && local.browser && HasDeadline(browserCtx) && Doc.WellFormedFlow(flow, parse)
      requires Ended(Past(), n + Lead(flow), q + Lead(flow)) && Opened(Env(browserCtx), Past(), n, q, flow)
      requires local == start && OpsKeep(n, Deadline(browserCtx), parse)
      modifies Footprint()
      ensures Valid() && Advances() && local.browser
      ensures ReplayOutcome(Env(browserCtx), Past(), n, q, flow, r, capture)
      ensures Kept(start, local, Refs(r)) && OpsKeep(n, Deadline(browserCtx), parse)
    {
      r := ReplayKept(browserCtx, flow.steps, capture, n, parse);
      RestOutcome(Env(browserCtx), old(Past()), Past(), n, q, flow, r, capture);
    }

    method ReplayKept(browserCtx: Context, steps: seq<Doc.Step>, capture: bool, ghost n: nat,
                      ghost parse: Doc.URLPolicy)
      returns (r: RunResult)
      requires Valid() && local.browser && HasDeadline(browserCtx) && Doc.AllWellFormed(steps, parse) && steps != []
      requires OpsKeep(n, Deadline(browserCtx), parse)
      modifies Footprint()
      ensures Valid() && Advances() && local.browser
      ensures StepsOutcome(Env(browserCtx), Past(), |old(ops)|, |old(checks)|, steps, r, capture)
      ensures Kept(old(local), local, Refs(r)) && OpsKeep(n, Deadline(browserCtx), parse)
    {
      r := ReplayToEnd(browserCtx, steps, capture, parse);
      KeepsOn(old(ops), ops, n, Deadline(browserCtx), parse);
    }

    // The start URL (replay.go:156-165); a completed visit leaves no artifact.
    method OpenStartURL(browserCtx: Context, flow: Doc.Flow, ghost parse: Doc.URLPolicy) returns (res: StepResult)
      requires Valid() && local.browser && HasDeadline(browserCtx) && parse(flow.startURL).None?
      modifies Footprint()
      ensures Valid() && Advances() && local.browser
      ensures StepDone(Env(browserCtx), Past(), |old(ops)|, |old(checks)|, StartStep(flow.startURL), res)
      ensures Tidy(old(local), OptionSeq(res.screenshot), |old(ops)|, Deadline(browserCtx), parse)
      ensures res.status == Completed ==>
        && local == old(local) && Ended(Past(), |old(ops)| + 1, |old(checks)| + 1)
        && Opened(Env(browserCtx), Past(), |old(ops)|, |old(checks)|, flow)
    {
      res := ExecuteStep(browserCtx, StartStep(flow.startURL));
      GainOne(old(local), local, res.screenshot);
      if res.status == Completed {
        OpenedByVisit(Env(browserCtx), Past(), |old(ops)|, |old(checks)|, flow, res);
      }
    }

    // The report of a start URL that could not be opened (replay.go:158-164).
    method ReportStartFailure(browserCtx: Context, flow: Doc.Flow, res: StepResult, ghost capture: bool,
                              ghost n: nat, ghost q: nat, ghost start: Local, ghost parse: Doc.URLPolicy)
      returns (r: RunResult)
      requires Valid() && HasDeadline(browserCtx) && flow.startURL != "" && res.status == Failed
      requires StepDone(Env(browserCtx), Past(), n, q, StartStep(flow.startURL), res)
      requires Tidy(start, OptionSeq(res.screenshot), n, Deadline(browserCtx), parse)
      modifies Footprint()
      ensures Valid() && Advances() && local == old(local)
      ensures ReplayOutcome(Env(browserCtx), Past(), n, q, flow, r, capture)
      ensures Kept(start, local, Refs(r)) && OpsKeep(n, Deadline(browserCtx), parse)
    {
      var finalURL := ReadKept(browserCtx, n, parse);
      r := StartReport(res, finalURL);
      StartFailureOutcome(Env(browserCtx), old(Past()), Past(), n, q, flow, res, finalURL, capture);
    }

    // recordFinalURL, among operations that keep to the flow's limits.
    method ReadKept(browserCtx: Context, ghost n: nat, ghost parse: Doc.URLPolicy) returns (finalURL: string)
      requires Valid() && HasDeadline(browserCtx) && OpsKeep(n, Deadline(browserCtx), parse)
      modifies Footprint()
      ensures Valid() && Advances() && local == old(local) && Ended(Past(), |old(ops)| + 1, |old(checks)|)
      ensures FinalRead(Env(browserCtx), ops, |old(ops)|, finalURL) && OpsKeep(n, Deadline(browserCtx), parse)
    {
      finalURL := RecordFinalURL(browserCtx);
      KeepsLonger(old(ops), ops, n, Deadline(browserCtx), parse);
    }

    // Opens the start URL; a failure ends the run with its report.
    method OpenOrReport(browserCtx: Context, flow: Doc.Flow, ghost capture: bool, ghost parse: Doc.URLPolicy)
      returns (failure: Option<RunResult>)
      requires Valid() && local.browser && HasDeadline(browserCtx) && flow.startURL != "" && parse(flow.startURL).None?
      modifies Footprint()
      ensures Valid() && Advances() && local.browser
      ensures failure.None? ==>
        && local == old(local) && Ended(Past(), |old(ops)| + 1, |old(checks)| + 1)
        && Opened(Env(browserCtx), Past(), |old(ops)|, |old(checks)|, flow)
      ensures failure.Some? ==>
        && ReplayOutcome(Env(browserCtx), Past(), |old(ops)|, |old(checks)|, flow, failure.value, capture)
        && Kept(old(local), local, Refs(failure.value))
      ensures OpsKeep(|old(ops)|, Deadline(browserCtx), parse)
    {
      var res := OpenStartURL(browserCtx, flow, parse);
      if res.status == Completed {
        return None;
      }
      ghost var visited := Past();
      var r := ReportStartFailure(browserCtx, flow, res, capture, |old(ops)|, |old(checks)|, old(local), parse);
      GrowsTwice(old(Past()), visited, Past());
      failure := Some(r);
    }

    // runFlow once the browser is up (replay.go:154-202).
    method Replay(browserCtx: Context, flow: Doc.Flow, capture: bool, ghost parse: Doc.URLPolicy) returns (r: RunResult)
      requires Valid() && local.browser && HasDeadline(browserCtx) && Doc.WellFormedFlow(flow, parse)
      modifies Footprint()
      ensures Valid() && Advances() && local.browser
      ensures ReplayOutcome(Env(browserCtx), Past(), |old(ops)|, |old(checks)|, flow, r, capture)
      ensures Kept(old(local), local, Refs(r)) && OpsKeep(|old(ops)|, Deadline(browserCtx), parse)
    {
      if flow.startURL != "" {
        var failure := OpenOrReport(browserCtx, flow, capture, parse);
        if failure.Some? {
          return failure.value;
        }
      }
      r := ReplayRest(browserCtx, flow, capture, |old(ops)|, |old(checks)|, old(local), parse);
    }
  }
}
