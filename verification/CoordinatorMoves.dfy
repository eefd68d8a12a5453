/** What each single result does to a checkpoint, field by field, and which results are refused or change nothing. */
module CoordinatorMoves {
  import opened Outcomes
  import opened PlanJournal
  import opened Coordinator

  /** Nothing but the steps' progress and the run's state differs. */
  predicate OnlyProgress(c: Checkpoint, c': Checkpoint) {
    && c'.planRunId == c.planRunId && c'.admissionId == c.admissionId && c'.rootTaskId == c.rootTaskId
    && c'.planId == c.planId && c'.planVersion == c.planVersion && c'.authorityContractId == c.authorityContractId
    && c'.supersededSuffix == c.supersededSuffix && c'.replanCount == c.replanCount && c'.maxReplans == c.maxReplans
    && c'.journalSequence == c.journalSequence && c'.journalDigest == c.journalDigest
  }

  /** The active step moves, completed, to the end of the prefix, and the first of the open steps takes its place. */
  predicate StepDone(c: Checkpoint, c': Checkpoint) {
    && OnlyProgress(c, c') && c.activeStep.Some?
    && |c'.completedPrefix| == |c.completedPrefix| + 1
    && (forall i :: 0 <= i < |c.completedPrefix| ==> c'.completedPrefix[i] == c.completedPrefix[i])
    && c'.completedPrefix[|c.completedPrefix|] == c.activeStep.value.(state := CompletedStep)
    && (if |c.remainingSuffix| == 0
        then c'.activeStep.None? && c'.remainingSuffix == [] && c'.state.COMPLETED?
        else
          && c'.state.ACTIVE? && c'.activeStep == Some(c.remainingSuffix[0].(state := ActiveStep))
          && |c'.remainingSuffix| == |c.remainingSuffix| - 1
          && forall i :: 0 <= i < |c'.remainingSuffix| ==> c'.remainingSuffix[i] == c.remainingSuffix[i + 1])
  }

  /** The active step waits, blocked, for the proof of this execution; no other step moves. */
  predicate StepBlocked(c: Checkpoint, c': Checkpoint, e: ExecutionRef) {
    && OnlyProgress(c, c') && c.activeStep.Some? && c'.activeStep.Some?
    && c'.completedPrefix == c.completedPrefix && c'.remainingSuffix == c.remainingSuffix && c'.state.PROBE_BLOCKED?
    && var active, blocked := c.activeStep.value, c'.activeStep.value;
       && blocked.state.BlockedStep? && blocked.permitId == Some(e.permitId) && blocked.attemptId == Some(e.attemptId)
       && blocked.probeRef == Some(e.resultProbeRef)
       && blocked.businessPlanStepId == active.businessPlanStepId && blocked.stepDigest == active.stepDigest
       && blocked.workOrderId == active.workOrderId && blocked.workOrderDigest == active.workOrderDigest
       && blocked.nativeTaskId == active.nativeTaskId && blocked.nativeStepId == active.nativeStepId
       && blocked.nativeContractId == active.nativeContractId
       && blocked.authorityContractId == active.authorityContractId
  }

  /** A pending execution that is not the active step's, or not the one recorded for it. */
  predicate OfAnotherStep(active: StepRef, e: ExecutionRef) {
    || e.taskId != active.nativeTaskId || e.stepId != active.nativeStepId
    || active.permitId !in {None, Some(e.permitId)} || active.attemptId !in {None, Some(e.attemptId)}
  }

  /**
    A completion of the run's active step completes it; while the run is over it changes nothing; and it is refused for
    another root, without an active step, and for another step.
  */
  lemma WhatACompletionDoes(c: Checkpoint, runId: string, stepId: Option<string>)
    ensures var t := Advance(c, StepCompleted(runId, stepId));
            && (t == Refused(WrongRoot) <==> runId != c.rootTaskId)
            && (t == Ok(None) <==> runId == c.rootTaskId && c.state.COMPLETED?)
            && (t == Refused(NoActiveStep) <==>
                  runId == c.rootTaskId && !c.state.COMPLETED? && c.activeStep.None?)
            && (t == Refused(WrongStep) <==>
                  && runId == c.rootTaskId && !c.state.COMPLETED? && c.activeStep.Some?
                  && (stepId.None? || stepId.value != c.activeStep.value.nativeStepId))
            && ((t.Ok? && t.value.Some?) <==>
                  && runId == c.rootTaskId && !c.state.COMPLETED? && c.activeStep.Some? && stepId.Some?
                  && stepId.value == c.activeStep.value.nativeStepId)
            && (t.Ok? && t.value.Some? ==>
                  && StepDone(c, t.value.value.0)
                  && t.value.value.1 == if |c.remainingSuffix| == 0 then PlanCompleted else ChildCompleted)
  {
  }

  /**
    A pending result of the active step blocks the run on exactly its execution; a run already blocked on the attempt
    stays as it is; and it is refused for another root, without an active step, and for another execution.
  */
  lemma WhatAPendingResultDoes(c: Checkpoint, runId: string, e: ExecutionRef)
    ensures var t := Advance(c, PendingResultProbe(runId, e));
            && (t == Refused(WrongRoot) <==> runId != c.rootTaskId)
            && (t == Refused(NoActiveStep) <==> runId == c.rootTaskId && c.activeStep.None?)
            && (t == Refused(WrongExecution) <==>
                  runId == c.rootTaskId && c.activeStep.Some? && OfAnotherStep(c.activeStep.value, e))
            && (t == Ok(None) <==>
                  && runId == c.rootTaskId && c.activeStep.Some? && !OfAnotherStep(c.activeStep.value, e)
                  && c.state.PROBE_BLOCKED? && c.activeStep.value.attemptId == Some(e.attemptId))
            && ((t.Ok? && t.value.Some?) <==>
                  && runId == c.rootTaskId && c.activeStep.Some? && !OfAnotherStep(c.activeStep.value, e)
                  && (!c.state.PROBE_BLOCKED? || c.activeStep.value.attemptId.None?))
            && (t.Ok? && t.value.Some? ==>
                  StepBlocked(c, t.value.value.0, e) && t.value.value.1 == ProbeBlocked)
  {
  }

  /** Awaiting an approval and failing are not the journal's business. */
  lemma OtherResultsDoNothing(c: Checkpoint, r: AdvanceResult)
    requires r.AwaitingApproval? || r.AdvanceFailed?
    ensures Advance(c, r) == if r.runId == c.rootTaskId then Ok(None) else Refused(WrongRoot)
  {
  }

  /**
    A confirmed probe of exactly the blocked execution completes the step; an inconclusive one changes nothing, and one
    that does not confirm is refused, as is any probe of a run that is not blocked or of another execution.
  */
  lemma WhatAProbeDoes(c: Checkpoint, r: ProbeResult)
    ensures var t, e := Probe(c, r), r.execution; var blocked := c.state.PROBE_BLOCKED? && c.activeStep.Some?;
            var exact := blocked && e.taskId == c.activeStep.value.nativeTaskId
                         && e.stepId == c.activeStep.value.nativeStepId
                         && c.activeStep.value.permitId == Some(e.permitId)
                         && c.activeStep.value.attemptId == Some(e.attemptId);
            && (t == Refused(NotProbeBlocked) <==> !blocked)
            && (t == Refused(WrongProbe) <==> blocked && !exact)
            && (t == Refused(ProbeNotConfirmed) <==> exact && r.status.NotConfirmed?)
            && (t == Ok(None) <==> exact && r.status.Inconclusive?)
            && ((t.Ok? && t.value.Some?) <==> exact && r.status.Confirmed?)
            && (t.Ok? && t.value.Some? ==>
                  && StepDone(c, t.value.value.0)
                  && t.value.value.1 == if |c.remainingSuffix| == 0 then PlanCompleted else ProbeResolved)
  {
  }

  // ----- Any number of results -----------------------------------------------

  /** What a step is, apart from how far it has come. */
  predicate SameStep(a: StepRef, b: StepRef) {
    && b.businessPlanStepId == a.businessPlanStepId && b.stepDigest == a.stepDigest
    && b.workOrderId == a.workOrderId && b.workOrderDigest == a.workOrderDigest
    && b.nativeTaskId == a.nativeTaskId && b.nativeStepId == a.nativeStepId
    && b.nativeContractId == a.nativeContractId && b.authorityContractId == a.authorityContractId
  }

  /** The steps of a run in their order: those done, the active one, and those to come. */
  function StepsOf(c: Checkpoint): seq<StepRef> {
    c.completedPrefix + (match c.activeStep case Some(active) => [active] case None => []) + c.remainingSuffix
  }

  predicate SameSteps(a: seq<StepRef>, b: seq<StepRef>) {
    |a| == |b| && forall i :: 0 <= i < |a| ==> SameStep(a[i], b[i])
  }

  lemma OneResultMovesOneStep(c: Checkpoint, input: Input)
    ensures var c' := Step(c, input);
            || c' == c
            || StepDone(c, c')
            || (input.Advanced? && input.advance.PendingResultProbe? && StepBlocked(c, c', input.advance.execution))
  {
    hide StepDone, StepBlocked;
    match input
    case Probed(r) => WhatAProbeDoes(c, r);
    case Advanced(StepCompleted(runId, stepId)) => WhatACompletionDoes(c, runId, stepId);
    case Advanced(PendingResultProbe(runId, e)) => WhatAPendingResultDoes(c, runId, e);
    case Advanced(_) =>
  }

  lemma DoneStepsKeepTheirPlace(c: Checkpoint, c': Checkpoint)
    requires StepDone(c, c')
    ensures SameSteps(StepsOf(c), StepsOf(c'))
  {
    var before, after := StepsOf(c), StepsOf(c');
    assert |before| == |after|;
    var n := |c.completedPrefix|;
    forall i | 0 <= i < |before| ensures SameStep(before[i], after[i]) {
      if i > n + 1 {
        assert before[i] == c.remainingSuffix[i - n - 1] && after[i] == c'.remainingSuffix[i - n - 2];
      }
    }
  }

  lemma BlockedStepsKeepTheirPlace(c: Checkpoint, c': Checkpoint, e: ExecutionRef)
    requires StepBlocked(c, c', e)
    ensures SameSteps(StepsOf(c), StepsOf(c'))
  {
  }

  /**
    Whatever results arrive: every step of the run keeps its identity and its place, those completed on the way are
    marked so, and nothing else of the run changes but its state.
  */
  lemma {:induction false} ResultsKeepEveryStep(c: Checkpoint, inputs: seq<Input>)
    ensures var c' := After(c, inputs);
            && SameSteps(StepsOf(c), StepsOf(c')) && OnlyProgress(c, c')
            && |c.completedPrefix| <= |c'.completedPrefix|
            && (forall i :: 0 <= i < |c.completedPrefix| ==> c'.completedPrefix[i] == c.completedPrefix[i])
            && (forall i :: |c.completedPrefix| <= i < |c'.completedPrefix| ==>
                              c'.completedPrefix[i].state.CompletedStep?)
  {
    if inputs != [] {
      var front, last := inputs[..|inputs| - 1], inputs[|inputs| - 1];
      ResultsKeepEveryStep(c, front);
      var before := After(c, front);
      OneResultMovesOneStep(before, last);
      if StepDone(before, Step(before, last)) {
        DoneStepsKeepTheirPlace(before, Step(before, last));
      } else if Step(before, last) != before {
        BlockedStepsKeepTheirPlace(before, Step(before, last), last.advance.execution);
      }
      SameStepsChain(StepsOf(c), StepsOf(before), StepsOf(After(c, inputs)));
    }
  }

  lemma SameStepsChain(a: seq<StepRef>, b: seq<StepRef>, d: seq<StepRef>)
    requires SameSteps(a, b) && (d == b || SameSteps(b, d))
    ensures SameSteps(a, d)
  {
  }
}
