// The HTTP handlers of cmd/worker/main.go that run browsers: handleTask and
// handleFlowRun. Decoding is not represented; free says whether the select on
// the slots channel found room.
module Handlers {
  import opened Models
  import opened Deadlines
  import opened Lifecycle
  import opened BrowserRuns
  import opened Ledger
  import opened RunReports
  import opened WorkerReports
  import opened WorkerRuns
  import Doc = FlowDocument

  // A request that has just arrived.
  ghost predicate Arrived(run: BrowserRun)
    reads run.Footprint()
  {
    Fresh(run) && run.base == IDLE && run.script == []
  }

  // The handler's whole script keeps the discipline and ends with nothing held;
  // event `written` is the response, and at that point the store holds exactly
  // the artifacts that the response refers to.
  predicate Answered(script: seq<Event>, written: nat, refs: seq<ArtifactId>) {
    && Disciplined(script) && written < |script| && script[written] == Responded
    && Fold(IDLE, script[..written]).Some? && Fold(IDLE, script[..written]).value.live == Elements(refs)
  }

  // An answer given without a slot.
  predicate Rejected(script: seq<Event>, ops: seq<Op>) { script == [] && ops == [] }

  const TASK_OVERLOAD := BrowserError(Overloaded, TaskLimitReached)
  const FLOW_OVERLOAD := BrowserError(Overloaded, RequestLimitReached)

  // The slot and the in-flight mark (main.go:188-198, 255-265).
  method Enter(run: BrowserRun)
    requires Arrived(run)
    modifies run`script, run`local
    ensures Unstarted(run) && run.local == IDLE.(slot := true, inFlight := true)
  {
    run.Emit(SlotTaken);
    run.Emit(InFlightUp);
  }

  lemma CollectMore(head: seq<ArtifactId>, steps: seq<StepResult>, i: nat)
    requires i < |steps|
    ensures head + StepRefs(steps[..i + 1]) == head + StepRefs(steps[..i]) + OptionSeq(steps[i].screenshot)
  {
    assert steps[..i + 1] == steps[..i] + [steps[i]];
    StepRefsAppend(steps[..i], steps[i]);
  }

  // The identifiers a flow response refers to (main.go:271-279).
  method CollectIDs(result: RunResult) returns (artifactIDs: seq<ArtifactId>)
    ensures artifactIDs == Refs(result)
  {
    artifactIDs := [];
    if result.finalScreenshot.Some? {
      artifactIDs := artifactIDs + [result.finalScreenshot.value];
    }
    for i := 0 to |result.steps|
      invariant artifactIDs == OptionSeq(result.finalScreenshot) + StepRefs(result.steps[..i])
    {
      CollectMore(OptionSeq(result.finalScreenshot), result.steps, i);
      if result.steps[i].screenshot.Some? {
        artifactIDs := artifactIDs + [result.steps[i].screenshot.value];
      }
    }
    assert result.steps[..|result.steps|] == result.steps;
  }

  // The deferred deletion: afterwards the handler has nothing stored.
  method DeleteAll(run: BrowserRun, ids: seq<ArtifactId>)
    requires run.Valid() && NoRepeats(ids) && run.local.live == Elements(ids)
    modifies run`script, run`local
    ensures run.Valid() && run.local == old(run.local).(live := {})
    ensures old(run.script) <= run.script
  {
    for i := 0 to |ids|
      invariant run.Valid() && run.local == old(run.local).(live := Elements(ids[i..]))
      invariant old(run.script) <= run.script
    {
      assert ids[i..][0] == ids[i] && ids[i..][1..] == ids[i + 1..];
      assert Elements(ids[i..]) - {ids[i]} == Elements(ids[i + 1..]);
      run.Delete(ids[i]);
    }
    assert Elements(ids[|ids|..]) == {};
  }

  // Response, deferred deletion, in-flight mark, slot: in this order.
  method Leave(run: BrowserRun, ids: seq<ArtifactId>) returns (ghost written: nat)
    requires run.Valid() && run.base == IDLE && NoRepeats(ids)
    requires run.local.live == Elements(ids) && run.local.slot && run.local.inFlight
    requires !run.local.profile && !run.local.browser && !run.local.responded
    modifies run`script, run`local
    ensures run.Valid() && Answered(run.script, written, ids) && run.Past() == old(run.Past())
  {
    written := |run.script|;
    run.Emit(Responded);
    DeleteAll(run, ids);
    run.Emit(InFlightDown);
    run.Emit(SlotFreed);
    assert run.script[..written] == old(run.script);
  }

  method AnswerFlow(run: BrowserRun, r: RunResult) returns (ghost written: nat)
    requires run.Valid() && run.base == IDLE && Kept(IDLE.(slot := true, inFlight := true), run.local, Refs(r))
    modifies run`script, run`local
    ensures run.Valid() && Answered(run.script, written, Refs(r)) && run.Past() == old(run.Past())
  {
    var artifactIDs := CollectIDs(r);
    written := Leave(run, artifactIDs);
  }

  // handleFlowRun once it has a slot (main.go:264-292).
  method FlowRunWithSlot(run: BrowserRun, ctx: Context, launch: LaunchOutcome, flow: Doc.Flow, capture: bool,
                         parse: Doc.URLPolicy, destination: Doc.URLPolicy)
    returns (r: RunResult, ghost written: nat)
    requires Arrived(run)
    modifies run.Footprint()
    ensures run.Valid() && Answered(run.script, written, Refs(r))
    ensures Orderly(run.ops, run.began, run.config.flowTimeout, parse)
    ensures FlowAnswer(FlowEnv(run, ctx), run.Past(), launch, flow, parse, destination, r, capture)
    ensures FlowRefused(flow, parse, destination) ==> run.ops == []
  {
    Enter(run);
    r := RunFlow(run, ctx, launch, flow, capture, parse, destination);
    written := AnswerFlow(run, r);
  }

  // handleFlowRun (main.go:222-293).
  method HandleFlowRun(run: BrowserRun, ctx: Context, free: bool, launch: LaunchOutcome, flow: Doc.Flow, capture: bool,
                       parse: Doc.URLPolicy, destination: Doc.URLPolicy)
    returns (r: RunResult, ghost written: nat)
    requires Arrived(run)
    modifies run.Footprint()
    ensures run.Valid() && Orderly(run.ops, run.began, run.config.flowTimeout, parse)
    ensures if !Doc.WellFormedFlow(flow, parse) || !free then Rejected(run.script, run.ops)
      else Answered(run.script, written, Refs(r))
    ensures if Doc.WellFormedFlow(flow, parse) && !free then r == FailedRun(FLOW_OVERLOAD)
      else FlowAnswer(FlowEnv(run, ctx), run.Past(), launch, flow, parse, destination, r, capture)
    ensures FlowRefused(flow, parse, destination) ==> run.ops == []
  {
    written := 0;
    var invalid := Doc.Validate(Some(flow), parse);
    if invalid.None? && free {
      r, written := FlowRunWithSlot(run, ctx, launch, flow, capture, parse, destination);
    } else {
      r := FailedRun(if invalid.Some? then invalid.value else FLOW_OVERLOAD);
      RunIsBounded(run, run.config.flowTimeout);
    }
  }

  // handleTask once it has a slot (main.go:187-216).
  method TaskWithSlot(run: BrowserRun, ctx: Context, launch: LaunchOutcome, req: TaskRequest,
                      destination: Doc.URLPolicy)
    returns (r: BrowserResult, ghost written: nat)
    requires Arrived(run)
    modifies run.Footprint()
    ensures run.Valid() && Answered(run.script, written, OptionSeq(r.screenshot))
      && Bounded(run.ops, run.began, run.config.taskTimeout)
    ensures TaskAnswer(TaskEnv(run, ctx), run.Past(), launch, req, destination, r)
    ensures TaskRefused(req, destination) ==> run.ops == []
  {
    Enter(run);
    r := RunTask(run, ctx, launch, req, destination);
    written := Leave(run, OptionSeq(r.screenshot));
  }

  // handleTask (main.go:160-217).
  method HandleTask(run: BrowserRun, ctx: Context, free: bool, launch: LaunchOutcome, req: TaskRequest,
                    destination: Doc.URLPolicy)
    returns (r: BrowserResult, ghost written: nat)
    requires Arrived(run)
    modifies run.Footprint()
    ensures run.Valid() && Bounded(run.ops, run.began, run.config.taskTimeout)
    ensures if ValidateRequest(req).Some? || !free then Rejected(run.script, run.ops)
      else Answered(run.script, written, OptionSeq(r.screenshot))
    ensures if ValidateRequest(req).None? && !free then r == FailedResult(TASK_OVERLOAD)
      else TaskAnswer(TaskEnv(run, ctx), run.Past(), launch, req, destination, r)
    ensures TaskRefused(req, destination) ==> run.ops == []
  {
    written := 0;
    var invalid := ValidateRequest(req);
    if invalid.None? && free {
      r, written := TaskWithSlot(run, ctx, launch, req, destination);
    } else {
      r := FailedResult(if invalid.Some? then invalid.value else TASK_OVERLOAD);
      RunIsBounded(run, run.config.taskTimeout);
    }
  }
}
