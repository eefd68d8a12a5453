/** How pack results move a run's checkpoint, without looking at any business fact. */
module Coordinator {
  import opened Outcomes
  import opened PlanJournal

  /** The exact identity of an external effect that awaits business proof. */
  datatype ExecutionRef = ExecutionRef(permitId: string, attemptId: string, taskId: string, stepId: string,
                                       resultProbeRef: string)

  datatype AdvanceResult =
    | StepCompleted(runId: string, stepId: Option<string>)
    | AwaitingApproval(runId: string)
    | PendingResultProbe(runId: string, execution: ExecutionRef)
    | AdvanceFailed(runId: string)

  datatype ProbeStatus = Confirmed | NotConfirmed | Inconclusive

  datatype ProbeResult = ProbeResult(status: ProbeStatus, execution: ExecutionRef)

  datatype CoordinationError =
    | WrongRoot | NoActiveStep | WrongStep | WrongExecution
    | NotProbeBlocked | WrongProbe | ProbeNotConfirmed

  /** `None` is a result that changes nothing. */
  type Translation = Result<Option<(Checkpoint, Transition)>, CoordinationError>

  /** The active step is done and the next one, if any, becomes active. */
  function CompleteActive(c: Checkpoint): Checkpoint
    requires c.activeStep.Some?
  {
    var done := c.activeStep.value.(state := CompletedStep);
    if c.remainingSuffix == [] then
      c.(completedPrefix := c.completedPrefix + [done], activeStep := None, remainingSuffix := [], state := COMPLETED)
    else
      c.(completedPrefix := c.completedPrefix + [done], activeStep := Some(c.remainingSuffix[0].(state := ActiveStep)),
         remainingSuffix := c.remainingSuffix[1..], state := ACTIVE)
  }

  /**
    A pending execution is the active step's: same task and step, and no other permit or attempt than one already
    recorded.
  */
  predicate OfActiveStep(active: StepRef, e: ExecutionRef) {
    && e.taskId == active.nativeTaskId && e.stepId == active.nativeStepId
    && (active.permitId.Some? ==> active.permitId == Some(e.permitId))
    && (active.attemptId.Some? ==> active.attemptId == Some(e.attemptId))
  }

  function Blocked(c: Checkpoint, e: ExecutionRef): Checkpoint
    requires c.activeStep.Some?
  {
    var step := c.activeStep.value.(state := BlockedStep, permitId := Some(e.permitId), attemptId := Some(e.attemptId),
                                    probeRef := Some(e.resultProbeRef));
    c.(state := PROBE_BLOCKED, activeStep := Some(step))
  }

  function Advance(c: Checkpoint, r: AdvanceResult): Translation {
    if r.runId != c.rootTaskId then Refused(WrongRoot)
    else match r
      case StepCompleted(_, stepId) =>
        if c.state.COMPLETED? then Ok(None)
        else if c.activeStep.None? then Refused(NoActiveStep)
        else if stepId != Some(c.activeStep.value.nativeStepId) then Refused(WrongStep)
        else
          var c' := CompleteActive(c);
          Ok(Some((c', if c'.activeStep.Some? then ChildCompleted else PlanCompleted)))
      case PendingResultProbe(_, e) =>
        if c.activeStep.None? then Refused(NoActiveStep)
        else if !OfActiveStep(c.activeStep.value, e) then Refused(WrongExecution)
        else if c.state.PROBE_BLOCKED? && c.activeStep.value.attemptId == Some(e.attemptId) then Ok(None)
        else Ok(Some((Blocked(c, e), ProbeBlocked)))
      case _ => Ok(None)
  }

  /** The probed execution is exactly the one the blocked step recorded. */
  predicate ExactExecution(active: StepRef, e: ExecutionRef) {
    && e.taskId == active.nativeTaskId && e.stepId == active.nativeStepId
    && active.permitId == Some(e.permitId) && active.attemptId == Some(e.attemptId)
  }

  function Probe(c: Checkpoint, r: ProbeResult): Translation {
    if !c.state.PROBE_BLOCKED? || c.activeStep.None? then Refused(NotProbeBlocked)
    else if !ExactExecution(c.activeStep.value, r.execution) then Refused(WrongProbe)
    else match r.status
      case Inconclusive => Ok(None)
      case NotConfirmed => Refused(ProbeNotConfirmed)
      case Confirmed =>
        var c' := CompleteActive(c);
        Ok(Some((c', if c'.activeStep.Some? then ProbeResolved else PlanCompleted)))
  }

  // ----- Runs of results -----------------------------------------------------

  datatype Input = Advanced(advance: AdvanceResult) | Probed(probe: ProbeResult)

  function Translate(c: Checkpoint, input: Input): Translation {
    match input
    case Advanced(r) => Advance(c, r)
    case Probed(r) => Probe(c, r)
  }

  predicate Moves(c: Checkpoint, input: Input) {
    Translate(c, input).Ok? && Translate(c, input).value.Some?
  }

  /** A result that is refused or changes nothing leaves the checkpoint alone. */
  function Step(c: Checkpoint, input: Input): Checkpoint {
    if Moves(c, input) then Translate(c, input).value.value.0 else c
  }

  function After(c: Checkpoint, inputs: seq<Input>): Checkpoint {
    if inputs == [] then c else Step(After(c, inputs[..|inputs| - 1]), inputs[|inputs| - 1])
  }

  /** Whether an input completes the active step. */
  predicate Completes(c: Checkpoint, input: Input) {
    Moves(c, input) && !Translate(c, input).value.value.1.ProbeBlocked?
  }

  function Completions(c: Checkpoint, inputs: seq<Input>): nat {
    if inputs == [] then 0
    else Completions(c, inputs[..|inputs| - 1])
         + if Completes(After(c, inputs[..|inputs| - 1]), inputs[|inputs| - 1]) then 1 else 0
  }

  /** What a step is, apart from how far it has come. */
  function StepIdentity(s: StepRef): StepRef {
    s.(state := PendingStep, permitId := None, attemptId := None, probeRef := None)
  }

  function ActiveSteps(c: Checkpoint): seq<StepRef> {
    if c.activeStep.Some? then [c.activeStep.value] else []
  }

  function Identities(steps: seq<StepRef>): seq<StepRef> {
    seq(|steps|, i requires 0 <= i < |steps| => StepIdentity(steps[i]))
  }

  /** The plan's steps in order. */
  function Plan(c: Checkpoint): seq<StepRef> {
    Identities(c.completedPrefix + ActiveSteps(c) + c.remainingSuffix)
  }

  /** Active until the end, and nothing is left over at the end. */
  predicate Shaped(c: Checkpoint) {
    (c.activeStep.None? <==> c.state.COMPLETED?) && (c.activeStep.None? ==> c.remainingSuffix == [])
  }

  /** All a result can change of a checkpoint. */
  predicate SameRun(c: Checkpoint, c': Checkpoint) {
    c' == c.(completedPrefix := c'.completedPrefix, activeStep := c'.activeStep, remainingSuffix := c'.remainingSuffix,
             state := c'.state)
  }

  /** A translated result fits its own transition, which the journal may append, and leaves the run what it is. */
  lemma TranslationFitsItsTransition(c: Checkpoint, input: Input)
    requires Moves(c, input)
    ensures var (c', t) := Translate(c, input).value.value;
            TransitionOk(t, c') && Appendable(t) && SameRun(c, c') && (Terminal(t) <==> c'.state.COMPLETED?)
  {
  }

  lemma OneStepKeepsThePlan(c: Checkpoint, input: Input)
    ensures Plan(Step(c, input)) == Plan(c)
    ensures c.completedPrefix <= Step(c, input).completedPrefix
    ensures |Step(c, input).completedPrefix| == |c.completedPrefix| + if Completes(c, input) then 1 else 0
    ensures SameRun(c, Step(c, input))
    ensures Shaped(c) ==> Shaped(Step(c, input))
  {
    if Moves(c, input) {
      var c' := Step(c, input);
      if Completes(c, input) {
        assert c' == CompleteActive(c);
        CompletingKeepsThePlan(c);
      } else {
        assert c'.completedPrefix == c.completedPrefix && c'.remainingSuffix == c.remainingSuffix;
        assert StepIdentity(c'.activeStep.value) == StepIdentity(c.activeStep.value);
        assert Plan(c') == Plan(c);
      }
    }
  }

  lemma CompletingKeepsThePlan(c: Checkpoint)
    requires c.activeStep.Some?
    ensures Plan(CompleteActive(c)) == Plan(c)
  {
    var c' := CompleteActive(c);
    var before, after := c.completedPrefix + ActiveSteps(c) + c.remainingSuffix,
      c'.completedPrefix + ActiveSteps(c') + c'.remainingSuffix;
    assert |before| == |after|;
    forall i | 0 <= i < |before| ensures StepIdentity(before[i]) == StepIdentity(after[i]) {
    }
  }

  /**
    Whatever results arrive, in whatever order: the steps of the plan keep their identities and their order, the
    completed prefix only grows, by exactly one per completion, and nothing else about the run changes.
  */
  lemma {:induction false} ResultsKeepThePlan(c: Checkpoint, inputs: seq<Input>)
    ensures Plan(After(c, inputs)) == Plan(c)
    ensures c.completedPrefix <= After(c, inputs).completedPrefix
    ensures |After(c, inputs).completedPrefix| == |c.completedPrefix| + Completions(c, inputs)
    ensures SameRun(c, After(c, inputs))
    ensures Shaped(c) ==> Shaped(After(c, inputs))
  {
    if inputs != [] {
      var front, last := inputs[..|inputs| - 1], inputs[|inputs| - 1];
      ResultsKeepThePlan(c, front);
      OneStepKeepsThePlan(After(c, front), last);
    }
  }

  /**
    A run is COMPLETED after exactly as many completions as it had open steps, and then has no active step; never
    earlier.
  */
  lemma CompletedAfterEveryStep(c: Checkpoint, inputs: seq<Input>)
    requires Shaped(c)
    ensures var open := |ActiveSteps(c)| + |c.remainingSuffix|; var c' := After(c, inputs);
            && Completions(c, inputs) <= open
            && (c'.state.COMPLETED? <==> Completions(c, inputs) == open)
            && (c'.state.COMPLETED? <==> c'.activeStep.None?)
            && (c'.state.COMPLETED? ==> |c'.completedPrefix| == |Plan(c)|)
  {
    ResultsKeepThePlan(c, inputs);
    assert |Plan(After(c, inputs))| == |Plan(c)|;
  }

  // ----- Redelivery ----------------------------------------------------------

  ghost predicate DistinctNativeSteps(c: Checkpoint) {
    forall i, j :: 0 <= i < j < |Plan(c)| ==> Plan(c)[i].nativeStepId != Plan(c)[j].nativeStepId
  }

  /** The active step is the plan's step right after the completed prefix. */
  lemma ActiveIsNext(c: Checkpoint)
    requires c.activeStep.Some?
    ensures |c.completedPrefix| < |Plan(c)| && Plan(c)[|c.completedPrefix|] == StepIdentity(c.activeStep.value)
  {
  }

  /** After any further results, a completion that has already moved the run never moves it again. */
  lemma CompletionIsDeliveredOnce(c: Checkpoint, r: AdvanceResult, inputs: seq<Input>)
    requires DistinctNativeSteps(c) && r.StepCompleted? && Moves(c, Advanced(r))
    ensures !Moves(After(Step(c, Advanced(r)), inputs), Advanced(r))
  {
    var c1 := Step(c, Advanced(r));
    var c2 := After(c1, inputs);
    OneStepKeepsThePlan(c, Advanced(r));
    ResultsKeepThePlan(c1, inputs);
    ActiveIsNext(c);
    if c2.activeStep.Some? {
      ActiveIsNext(c2);
      assert Plan(c)[|c.completedPrefix|].nativeStepId != Plan(c)[|c2.completedPrefix|].nativeStepId;
    }
  }

  /** The run still waits for exactly this execution, or is past its step. */
  predicate Settled(c0: Checkpoint, e: ExecutionRef, c: Checkpoint) {
    || |c.completedPrefix| > |c0.completedPrefix|
    || (|c.completedPrefix| == |c0.completedPrefix| && c.state.PROBE_BLOCKED? && c.activeStep.Some?
        && ExactExecution(c.activeStep.value, e))
  }

  lemma {:induction false} StaysSettled(c0: Checkpoint, e: ExecutionRef, c: Checkpoint, inputs: seq<Input>)
    requires Settled(c0, e, c)
    ensures Settled(c0, e, After(c, inputs))
  {
    if inputs != [] {
      var front := inputs[..|inputs| - 1];
      StaysSettled(c0, e, c, front);
      OneStepKeepsThePlan(After(c, front), inputs[|inputs| - 1]);
    }
  }

  /** After any further results, a pending result that has already blocked the run never moves it again. */
  lemma PendingResultIsDeliveredOnce(c: Checkpoint, r: AdvanceResult, inputs: seq<Input>)
    requires DistinctNativeSteps(c) && r.PendingResultProbe? && Moves(c, Advanced(r))
    ensures !Moves(After(Step(c, Advanced(r)), inputs), Advanced(r))
    ensures Advance(Step(c, Advanced(r)), r) == Ok(None)
  {
    var c1 := Step(c, Advanced(r));
    var c2 := After(c1, inputs);
    OneStepKeepsThePlan(c, Advanced(r));
    ResultsKeepThePlan(c1, inputs);
    StaysSettled(c, r.execution, c1, inputs);
    ActiveIsNext(c);
    if c2.activeStep.Some? && |c2.completedPrefix| > |c.completedPrefix| {
      ActiveIsNext(c2);
      assert Plan(c)[|c.completedPrefix|].nativeStepId != Plan(c)[|c2.completedPrefix|].nativeStepId;
    }
  }

  // ----- What unblocks a probe-blocked run -----------------------------------

  /** `probe` moves a run exactly on confirmed evidence for the task, step, permit and attempt it is blocked on. */
  lemma ProbeMovesOnlyOnExactEvidence(c: Checkpoint, r: ProbeResult)
    ensures Moves(c, Probed(r)) <==>
              c.state.PROBE_BLOCKED? && c.activeStep.Some? && ExactExecution(c.activeStep.value, r.execution)
                  && r.status.Confirmed?
    ensures Moves(c, Probed(r)) ==> Step(c, Probed(r)) == CompleteActive(c)
  {
  }

  /**
    A blocked run leaves its block by confirmed evidence or, without any evidence, by a completion naming its root and
    step.
  */
  lemma WhatUnblocks(c: Checkpoint, input: Input)
    requires c.state.PROBE_BLOCKED? && c.activeStep.Some? && c.activeStep.value.attemptId.Some?
    ensures Moves(c, input) <==>
              match input
              case Probed(r) => r.status.Confirmed? && ExactExecution(c.activeStep.value, r.execution)
              case Advanced(r) =>
                r.StepCompleted? && r.runId == c.rootTaskId && r.stepId == Some(c.activeStep.value.nativeStepId)
    ensures Moves(c, input) ==> Step(c, input) == CompleteActive(c)
  {
  }
}
