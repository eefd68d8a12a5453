/** Every step of the loop keeps the invariant of the run, and every report it ends with is true of the run. */
module LoopSafety {
  import opened Outcomes
  import opened AttemptStore
  import opened LoopContracts
  import opened LoopTrace
  import opened LoopProgress
  import opened LoopSteps

  /** A step without a runtime call that keeps the run going, ends it truthfully, or lets an exception escape. */
  ghost predicate Calm(c: Setup, v: Progress, m: Move) {
    && TurnOk(c, m.v, m.turn)
    && m.v.run == v.run && m.v.executions == v.executions && m.v.iterations == v.iterations
  }

  /** A step that makes at most one runtime call. */
  ghost predicate Steady(c: Setup, v: Progress, m: Move) {
    && TurnOk(c, m.v, m.turn)
    && m.v.run == v.run && m.v.iterations == v.iterations
    && v.executions <= m.v.executions && |m.v.executions| <= |v.executions| + 1
  }

  /** The step ends the run with this status and reason, unless the sink refuses the terminal event. */
  predicate EndsAs(m: Move, a: Answers, status: LoopStatus, reason: string) {
    m.turn.Stop? && (TerminalStage !in a.refuses ==>
                     m.turn.report.status == status && m.turn.report.reasonCode == reason)
  }

  // ----- Events and the end --------------------------------------------------

  /** An event of an ongoing run that is neither an observation nor the start of an action. */
  lemma RecordKeepsCore(c: Setup, v: Progress, a: Answers, code: string, observationId: Option<string>,
                        fingerprint: Option<string>, detail: Detail)
    requires Core(c, v) && !EndsAmbiguous(v)
    requires MayFollow(v.run, v.events, NextEvent(v, code, observationId, fingerprint, detail))
    requires !detail.Observed? && !detail.Started? && !detail.Ended?
    ensures var v' := Emitted(v, a, code, observationId, fingerprint, detail);
            && Core(c, v')
            && ObservationCount(v'.events) == ObservationCount(v.events) && Current(v'.events) == Current(v.events)
            && SuccessCount(v'.events) ==
               SuccessCount(v.events) + (if a.Accepts(detail) && SaysSuccess(detail) then 1 else 0)
            && (if a.Accepts(detail) then v'.events != []
                && LastEvent(v'.events) == NextEvent(v, code, observationId, fingerprint, detail) && v'.fault == v.fault
                else v'.events == v.events && LetEscape(v'))
  {
    if a.Accepts(detail) {
      var e := NextEvent(v, code, observationId, fingerprint, detail);
      EventKeepsCore(c, v, e);
      Appended(v.run, v.events, e);
    }
  }

  /** The status and the particulars the code gives a run that ends at `v` are those of the verdict on it. */
  ghost predicate EndFits(c: Setup, v: Progress, status: LoopStatus, reason: string, approvalRef: Option<string>,
                          checkpoint: Option<Checkpoint>) {
    && Core(c, v) && status == Verdict(v)
    && checkpoint == PendingCheckpoint(v) && (approvalRef.Some? <==> AsksApproval(v))
    && MayFollow(v.run, v.events, NextEvent(v, reason, v.lastObservationId, None, Detail.Ended(status)))
    && ReasonFits(c.config, v, reason)
  }

  lemma AcceptedEnd(c: Setup, v: Progress, a: Answers, status: LoopStatus, reason: string, approvalRef: Option<string>,
                    checkpoint: Option<Checkpoint>)
    requires EndFits(c, v, status, reason, approvalRef, checkpoint) && a.Accepts(Detail.Ended(status))
    ensures Calm(c, v, Ending(v, a, status, reason, approvalRef, checkpoint))
  {
    EndKeepsSound(c, v, NextEvent(v, reason, v.lastObservationId, None, Detail.Ended(status)));
  }

  lemma RefusedEnd(c: Setup, v: Progress, a: Answers, status: LoopStatus, reason: string, approvalRef: Option<string>,
                   checkpoint: Option<Checkpoint>)
    requires EndFits(c, v, status, reason, approvalRef, checkpoint) && !a.Accepts(Detail.Ended(status))
    ensures Calm(c, v, Ending(v, a, status, reason, approvalRef, checkpoint))
  {
    FaultKeepsSound(c, v, SinkRefused(NextEvent(v, reason, v.lastObservationId, None, Detail.Ended(status))));
  }

  /** A run that ends with the verdict on it ends truthfully. */
  lemma EndingIsTrue(c: Setup, v: Progress, a: Answers, status: LoopStatus, reason: string,
                     approvalRef: Option<string>, checkpoint: Option<Checkpoint>)
    requires EndFits(c, v, status, reason, approvalRef, checkpoint)
    ensures Calm(c, v, Ending(v, a, status, reason, approvalRef, checkpoint))
    ensures EndsAs(Ending(v, a, status, reason, approvalRef, checkpoint), a, status, reason)
  {
    if a.Accepts(Detail.Ended(status)) {
      AcceptedEnd(c, v, a, status, reason, approvalRef, checkpoint);
    } else {
      RefusedEnd(c, v, a, status, reason, approvalRef, checkpoint);
    }
  }

  /** A run with nothing open behind it that has failed. */
  lemma FailIsTrue(c: Setup, v: Progress, a: Answers, reason: string)
    requires Core(c, v) && AllLetGoOn(c.reopen, v.executions) && !AsksApproval(v) && Verdict(v) == FAILED
    requires ReasonFits(c.config, v, reason)
    ensures Calm(c, v, Fail(v, a, reason)) && EndsAs(Fail(v, a, reason), a, FAILED, reason)
  {
    EndingIsTrue(c, v, a, FAILED, reason, None, None);
  }

  // ----- Observing -----------------------------------------------------------

  /** A page was captured; its event is not on record yet. */
  function Seen(c: Setup, v: Progress, raw: RawObservation): Progress {
    v.(observations := v.observations + 1, lastObservationId := Some(Bound(c, raw, v.observations + 1).id))
  }

  /** The event that records a page. */
  function PageEvent(c: Setup, v: Progress, raw: RawObservation): Event {
    NextEvent(Seen(c, v, raw), "OBSERVATION_CAPTURED", Some(Bound(c, raw, v.observations + 1).id), None,
              Observed(v.observations + 1))
  }

  lemma SeenKeepsCore(c: Setup, v: Progress, raw: RawObservation)
    requires Ready(c, v) && Paid(v)
    ensures Core(c, Seen(c, v, raw))
  {
  }

  lemma PageKeepsCore(c: Setup, v: Progress, raw: RawObservation)
    requires Ready(c, v) && Paid(v) && MayLook(v.events)
    ensures Core(c, Seen(c, v, raw).(events := v.events + [PageEvent(c, v, raw)]))
    ensures ObservationCount(v.events + [PageEvent(c, v, raw)]) == v.observations + 1
    ensures Current(v.events + [PageEvent(c, v, raw)]) == PageEvent(c, v, raw).observationId
  {
    SeenKeepsCore(c, v, raw);
    EventKeepsCore(c, Seen(c, v, raw), PageEvent(c, v, raw));
    Appended(v.run, v.events, PageEvent(c, v, raw));
  }

  lemma PageLostKeepsCore(c: Setup, v: Progress, fault: Fault)
    requires Core(c, v) && AllLetGoOn(c.reopen, v.executions)
    requires if fault.SinkRefused? then fault.event.detail.Observed? else fault.port.Observing?
    ensures var v' := v.(fault := Some(fault)); Core(c, v') && !LetEscape(v') && Verdict(v') == WithoutPage(v)
  {
    FaultKeepsSound(c, v, fault);
  }

  lemma ObserveCases(c: Setup, v: Progress, a: Answers)
    ensures Observe(c, v, a) == match a.page
                                case None => (v.(fault := Some(PortRaised(Observing))), None)
                                case Some(raw) =>
                                  if ObservationStage in a.refuses
                                  then (Seen(c, v, raw).(fault := Some(SinkRefused(PageEvent(c, v, raw)))), None)
                                  else (Seen(c, v, raw).(events := v.events + [PageEvent(c, v, raw)]),
                                        Some(Bound(c, raw, v.observations + 1)))
  {
  }

  /** A look that succeeds leaves the run live. */
  lemma LookedLive(c: Setup, v: Progress, a: Answers)
    requires Ready(c, v) && Paid(v) && |v.executions| <= v.actionsExecuted + v.retriesUsed && MayLook(v.events)
    requires Observe(c, v, a).1.Some?
    ensures Live(c, Observe(c, v, a).0, Observe(c, v, a).1.value.id)
    ensures var next := Observe(c, v, a).0;
            && |next.events| == |v.events| + 1 && next.events[..|v.events|] == v.events
            && LastEvent(next.events).detail.Observed? && next.run == v.run
            && next.executions == v.executions
            && next.iterations == v.iterations && next.retriesUsed == v.retriesUsed
  {
    ObserveCases(c, v, a);
    PageKeepsCore(c, v, a.page.value);
  }

  /** One that fails is a fault, and nothing else the verdict depends on has changed. */
  lemma LookedInVain(c: Setup, v: Progress, a: Answers)
    requires Ready(c, v) && Paid(v) && Observe(c, v, a).1.None?
    ensures var next := Observe(c, v, a).0;
            && Core(c, next) && next.executions == v.executions && next.events == v.events
            && next.iterations == v.iterations && next.run == v.run
            && next.effectMayHaveStarted == v.effectMayHaveStarted && !LetEscape(next)
            && Verdict(next) == WithoutPage(v)
            && ReasonFits(c.config, next, WithoutPageReason(v))
  {
    hide Sound, EndsAmbiguous, EndsAwaitingProbe;
    ObserveCases(c, v, a);
    match a.page
    case None => PageLostKeepsCore(c, v, PortRaised(Observing));
    case Some(raw) =>
      SeenKeepsCore(c, v, raw);
      PageLostKeepsCore(c, Seen(c, v, raw), SinkRefused(PageEvent(c, v, raw)));
  }

  lemma RetryIsPaid(c: Setup, v: Progress)
    requires Ready(c, v) && FailsHere(v) && v.retriesUsed < c.config.maxRetries
    ensures var v' := v.(retriesUsed := v.retriesUsed + 1);
            Ready(c, v') && Paid(v') && FailsHere(v') && !AsksApproval(v')
                && |v'.executions| <= v'.actionsExecuted + v'.retriesUsed
  {
  }

  /** Without a retry left the reason is the spent budget, and nothing else can have lost the page there. */
  lemma RetryReasons(c: Setup, v: Progress)
    requires Ready(c, v) && FailsHere(v) && WantsRetry(v)
    ensures WithoutPageReason(v) == "RETRY_BUDGET_EXHAUSTED"
    ensures v.retriesUsed >= c.config.maxRetries ==> ReasonFits(c.config, v, "RETRY_BUDGET_EXHAUSTED")
  {
  }

  /** A retry within the budget goes on or fails; beyond it the run fails. */
  lemma RetryIsSafe(c: Setup, v: Progress, a: Answers)
    requires Ready(c, v) && FailsHere(v) && WantsRetry(v) && MayLook(v.events)
    ensures Calm(c, v, TryAgain(c, v, a))
    ensures if TryAgain(c, v, a).turn.Go?
            then TryAgain(c, v, a).v.retriesUsed == v.retriesUsed + 1 <= c.config.maxRetries
            else EndsAs(TryAgain(c, v, a), a, FAILED, "RETRY_BUDGET_EXHAUSTED")
  {
    hide Core, Finished, Sound, Observe, Ending;
    RetryReasons(c, v);
    if v.retriesUsed >= c.config.maxRetries {
      FailIsTrue(c, v, a, "RETRY_BUDGET_EXHAUSTED");
      assert TryAgain(c, v, a) == Fail(v, a, "RETRY_BUDGET_EXHAUSTED");
    } else {
      var paid := v.(retriesUsed := v.retriesUsed + 1);
      RetryIsPaid(c, v);
      if Observe(c, paid, a).1.Some? {
        LookedLive(c, paid, a);
        assert TryAgain(c, v, a) == Move(Observe(c, paid, a).0, Go(Observe(c, paid, a).1.value));
      } else {
        LookedInVain(c, paid, a);
        assert TryAgain(c, v, a) == Fail(Observe(c, paid, a).0, a, "RETRY_BUDGET_EXHAUSTED");
        FailIsTrue(c, Observe(c, paid, a).0, a, "RETRY_BUDGET_EXHAUSTED");
      }
    }
  }

  lemma LookIsSafe(c: Setup, v: Progress, a: Answers)
    requires Ready(c, v) && Paid(v) && |v.executions| <= v.actionsExecuted + v.retriesUsed && WithoutPage(v) == FAILED
             && !AsksApproval(v)
    requires WithoutPageReason(v) == "OBSERVATION_FAILED" && MayLook(v.events)
    ensures Calm(c, v, LookOn(c, v, a))
    ensures LookOn(c, v, a).turn.Go? || EndsAs(LookOn(c, v, a), a, FAILED, "OBSERVATION_FAILED")
  {
    if Observe(c, v, a).1.Some? {
      LookedLive(c, v, a);
    } else {
      LookedInVain(c, v, a);
      FailIsTrue(c, Observe(c, v, a).0, a, "OBSERVATION_FAILED");
    }
  }

  // ----- Verifying -----------------------------------------------------------

  /** A point at which the code asks the verifier. */
  ghost predicate Askable(c: Setup, v: Progress, after: string, fingerprint: Option<string>) {
    && Core(c, v) && v.fault.None? && !EndsAmbiguous(v) && Current(v.events) == Some(after)
    && MayJudge(v.events, fingerprint)
  }

  lemma VerifyIsSafe(c: Setup, v: Progress, a: Answers, after: string, fingerprint: Option<string>)
    requires Askable(c, v, after, fingerprint)
    ensures var r := Verify(v, a, after, fingerprint);
            && Core(c, r) && r == v.(events := r.events, fault := r.fault)
            && ObservationCount(r.events) == ObservationCount(v.events) && Current(r.events) == Some(after)
            && SuccessCount(r.events) == SuccessCount(v.events)
            && if VerificationStage in a.refuses then r.events == v.events && LetEscape(r)
               else r.events == v.events + [NextEvent(v, Judgment(a).reasonCode, Some(after), fingerprint,
                                                      Verified(Judgment(a).disposition, Judgment(a).evidenceCount))]
                    && r.fault == (if a.verification.None? then Some(PortRaised(Verifying)) else None)
  {
    var j := Judgment(a);
    var asked := if a.verification.None? then v.(fault := Some(PortRaised(Verifying))) else v;
    RecordKeepsCore(c, asked, a, j.reasonCode, Some(after), fingerprint, Verified(j.disposition, j.evidenceCount));
  }

  /** The verdict `j` is the last word on record of a run with nothing open behind it. */
  ghost predicate Judged(c: Setup, v: Progress, j: Verification) {
    && Core(c, v) && AllLetGoOn(c.reopen, v.executions)
    && v.events != [] && LastEvent(v.events).detail == Verified(j.disposition, j.evidenceCount)
    && LastEvent(v.events).code == j.reasonCode
    && (v.fault.None? || (v.fault == Some(PortRaised(Verifying)) && j.disposition.Unclear?))
  }

  /** A conclusive verdict is the status and the reason of the report. */
  lemma VerdictIsSafe(c: Setup, v: Progress, a: Answers, j: Verification)
    requires Judged(c, v, j)
    ensures VerificationTerminal(v, a, j).None? <==> j.disposition.Continue? || j.disposition.Retry?
    ensures VerificationTerminal(v, a, j).Some? ==>
              var m := VerificationTerminal(v, a, j).value;
              && Calm(c, v, m)
              && EndsAs(m, a, if j.disposition.Succeeded? then SUCCEEDED else if j.disposition.Unclear? then UNKNOWN
                        else FAILED, j.reasonCode)
  {
    match j.disposition
    case Succeeded => EndingIsTrue(c, v, a, SUCCEEDED, j.reasonCode, None, None);
    case Disproved => EndingIsTrue(c, v, a, FAILED, j.reasonCode, None, None);
    case Unclear => EndingIsTrue(c, v, a, UNKNOWN, j.reasonCode, None, None);
    case Continue =>
    case Retry =>
  }

  /** A claim of success is reported only as the verifier confirms it, and makes no runtime call. */
  lemma SuccessIsSafe(c: Setup, v: Progress, a: Answers, observation: Observation)
    requires Ready(c, v) && Paid(v) && |v.executions| <= v.actionsExecuted + v.retriesUsed
    requires Current(v.events) == Some(observation.id) && v.events != [] && SaysSuccess(LastEvent(v.events).detail)
    ensures Calm(c, v, OnSuccess(c, v, a, observation))
  {
    var j := Judgment(a);
    var judged := Verify(v, a, observation.id, None);
    VerifyIsSafe(c, v, a, observation.id, None);
    if VerificationStage !in a.refuses {
      VerdictIsSafe(c, judged, a, j);
      if j.disposition.Retry? {
        RetryIsSafe(c, judged, a);
      } else if j.disposition.Continue? {
        LookIsSafe(c, judged, a);
      }
    }
  }

  // ----- Acting --------------------------------------------------------------

  /**
    A result that awaits its probe ends the run UNKNOWN on the exact checkpoint of its call, or lets the sink's
    exception escape.
  */
  lemma SuspendIsSafe(c: Setup, v: Progress, a: Answers, command: Command, result: ActionResult)
    requires Askable(c, v, command.observationId, Some(command.fingerprint)) && EndsAwaitingProbe(v)
    requires LastCall(v).outcome == Returned(result) && LastEvent(v.events).detail.Completed?
    ensures var m := Suspend(v, a, command, result);
            && Calm(c, v, m) && m.v.effectMayHaveStarted
            && (if VerificationStage in a.refuses then m.turn.Escaped?
                else
                  && EndsAs(m, a, UNKNOWN, "PENDING_RESULT_PROBE")
                  && m.turn.report.status == UNKNOWN && m.turn.report.checkpoint == result.checkpoint)
  {
    var flagged := v.(effectMayHaveStarted := true);
    FlagKeepsCore(c, v);
    VerifyIsSafe(c, flagged, a, command.observationId, Some(command.fingerprint));
    if VerificationStage !in a.refuses {
      EndingIsTrue(c, Verify(flagged, a, command.observationId, Some(command.fingerprint)), a, UNKNOWN,
                   "PENDING_RESULT_PROBE", None, result.checkpoint);
    }
  }

  /** A verdict to retry, on record, about the call the run has just made. */
  ghost predicate AsksRetry(c: Setup, v: Progress, after: Observation, command: Command) {
    && Core(c, v) && AllLetGoOn(c.reopen, v.executions) && v.fault.None? && v.executions != []
    && LastCall(v).command == command
    && v.observations == ObservationCount(v.events) && |v.executions| <= v.actionsExecuted + v.retriesUsed
    && Current(v.events) == Some(after.id)
    && v.events != [] && LastEvent(v.events).fingerprint.Some? && LastEvent(v.events).detail.Verified?
    && LastEvent(v.events).detail.outcome.Retry?
  }

  /** A write is never tried again: the run ends UNKNOWN.  Anything else goes on at the price of a retry, or fails. */
  lemma ReconsiderIsSafe(c: Setup, v: Progress, a: Answers, after: Observation, command: Command)
    requires AsksRetry(c, v, after, command)
    ensures var m := Reconsider(c, v, a, after, command);
            && Calm(c, v, m)
            && (IsWrite(command.authorization.effect) ==> EndsAs(m, a, UNKNOWN, "WRITE_RETRY_REQUIRES_RECOVERY"))
            && (m.turn.Go? <==> !IsWrite(command.authorization.effect) && v.retriesUsed < c.config.maxRetries)
            && (m.turn.Go? ==> m.v.retriesUsed == v.retriesUsed + 1)
  {
    if IsWrite(command.authorization.effect) {
      EndingIsTrue(c, v, a, UNKNOWN, "WRITE_RETRY_REQUIRES_RECOVERY", None, None);
    } else if v.retriesUsed >= c.config.maxRetries {
      FailIsTrue(c, v, a, "RETRY_BUDGET_EXHAUSTED");
    }
  }

  lemma JudgeIsSafe(c: Setup, v: Progress, a: Answers, after: Observation, command: Command)
    requires Live(c, v, after.id) && v.executions != [] && LastCall(v).command == command
    requires MayJudge(v.events, Some(command.fingerprint)) && LastEvent(v.events).detail.Observed?
    ensures Calm(c, v, Judge(c, v, a, after, command))
  {
    hide Finished, Ending, Verify, Reconsider, VerificationTerminal;
    var j := Judgment(a);
    var judged := Verify(v, a, after.id, Some(command.fingerprint));
    VerifyIsSafe(c, v, a, after.id, Some(command.fingerprint));
    if VerificationStage !in a.refuses {
      VerdictIsSafe(c, judged, a, j);
      if j.disposition.Retry? {
        ReconsiderIsSafe(c, judged, a, after, command);
      }
    }
  }

  /** Without the page behind a returned action a write is left open and anything else fails. */
  lemma LookAfterIsSafe(c: Setup, v: Progress, a: Answers, command: Command)
    requires Ready(c, v) && Paid(v) && |v.executions| <= v.actionsExecuted + v.retriesUsed && v.executions != []
             && LastCall(v).command == command
    requires MayJudge(v.events, Some(command.fingerprint)) && LastEvent(v.events).detail.Completed?
    ensures Calm(c, v, LookAfter(c, v, a, command))
    ensures Observe(c, v, a).1.None? ==>
              EndsAs(LookAfter(c, v, a, command), a, if IsWrite(command.authorization.effect) then UNKNOWN else FAILED,
                     "POST_ACTION_OBSERVATION_FAILED")
  {
    var (next, page) := Observe(c, v, a);
    match page
    case Some(after) =>
      LookedLive(c, v, a);
      JudgeIsSafe(c, next, a, after, command);
    case None =>
      LookedInVain(c, v, a);
      EndingIsTrue(c, next, a, if IsWrite(command.authorization.effect) then UNKNOWN else FAILED,
                   "POST_ACTION_OBSERVATION_FAILED", None, None);
  }

  lemma ReturnIsSafe(c: Setup, v: Progress, a: Answers, command: Command, result: ActionResult)
    requires Launched(c, v, command, Returned(result))
    ensures Calm(c, v, AfterReturn(c, v, a, command, result))
  {
    var recorded := Emitted(v, a, result.detailCode, Some(command.observationId), Some(command.fingerprint),
                            Completed(result.completed));
    RecordKeepsCore(c, v, a, result.detailCode, Some(command.observationId), Some(command.fingerprint),
                    Completed(result.completed));
    if CompletionStage !in a.refuses {
      if result.checkpoint.Some? {
        SuspendIsSafe(c, recorded, a, command, result);
      } else {
        LookAfterIsSafe(c, recorded, a, command);
      }
    }
  }

  /**
    The run goes on only when the call left nothing to a probe or to recovery; a raised write that may have had its
    effect ends it UNKNOWN.
  */
  lemma AnswerIsSafe(c: Setup, v: Progress, a: Answers, command: Command, outcome: ExecuteOutcome)
    requires Launched(c, v, command, outcome)
    ensures Calm(c, v, Answer(c, v, a, command, outcome))
    ensures outcome.Raised? && !Retryable(outcome.error) && IsWrite(command.authorization.effect) ==>
              EndsAs(Answer(c, v, a, command, outcome), a, UNKNOWN, "ACTION_EFFECT_UNKNOWN")
  {
    match outcome
    case Returned(result) => ReturnIsSafe(c, v, a, command, result);
    case Raised(error) =>
      if MayGoOn(command, outcome) && Retryable(error) {
        RetryIsSafe(c, v, a);
      } else if IsWrite(command.authorization.effect) {
        if error.Runtime? && !error.effectMayHaveStarted {
          RetryIsSafe(c, v, a);
        } else {
          EndingIsTrue(c, v, a, UNKNOWN, "ACTION_EFFECT_UNKNOWN", None, None);
        }
      } else if error.Runtime? {
        RetryIsSafe(c, v, a);
      } else {
        FailIsTrue(c, v, a, "ACTION_EXECUTION_FAILED");
      }
  }

  /** The iteration has its observation and a runtime call of its budget left. */
  ghost predicate Open(c: Setup, v: Progress, id: string) {
    Live(c, v, id) && v.observations <= v.iterations && |v.executions| < v.iterations
  }

  /** A refused announcement escapes, and the runtime is not called. */
  lemma RefusedStartEscapes(c: Setup, v: Progress, e: Event)
    requires Core(c, v) && AllLetGoOn(c.reopen, v.executions) && !AsksApproval(v) && e.detail.Started?
    ensures TurnOk(c, v.(fault := Some(SinkRefused(e))), Escaped)
  {
    FaultKeepsSound(c, v, SinkRefused(e));
  }

  /** The runtime is called exactly when the sink took the announcement, and then exactly once. */
  lemma PerformIsSafe(c: Setup, v: Progress, a: Answers, call: CallAnswer, command: Command, source: DecisionSource,
                      age: real)
    requires Open(c, v, command.observationId) && MayAnswer(c, call)
    requires Authority(command) && Timely(c.config, age)
    requires v.events != [] && LastEvent(v.events).detail == PolicyDecided(AllowAction)
    requires LastEvent(v.events).observationId == Some(command.observationId)
             && LastEvent(v.events).fingerprint == Some(command.fingerprint)
    ensures Steady(c, v, Perform(c, v, a, call, command, source, age))
    ensures Perform(c, v, a, call, command, source, age).v.executions
              == if StartStage in a.refuses then v.executions else v.executions + [CallMade(v, call, command, age)]
  {
    hide Finished, Sound, Ending, Answer;
    var detail := Started(command.action.kind, command.authorization.effect, source);
    var announced := Emitted(v, a, "ACTION_STARTED", Some(command.observationId), Some(command.fingerprint), detail);
    if StartStage in a.refuses {
      RefusedStartEscapes(c, v, NextEvent(v, "ACTION_STARTED", Some(command.observationId), Some(command.fingerprint),
                                          detail));
    } else {
      var x := CallMade(v, call, command, age);
      LaunchKeepsCore(c, v, LastEvent(announced.events), x, Called(announced, x), source);
      AnswerIsSafe(c, Called(announced, x), a, command, call.outcome);
    }
  }

  // ----- One iteration -------------------------------------------------------

  /** No call is made without a command that binds, or on an observation that has aged. */
  lemma AllowedIsSafe(c: Setup, v: Progress, a: Answers, call: CallAnswer, observation: Observation, action: Action,
                      fingerprint: string,
                      authorization: Authorization, profile: Profile, source: DecisionSource)
    requires Open(c, v, observation.id) && MayAnswer(c, call)
    requires v.events != [] && LastEvent(v.events).detail == PolicyDecided(AllowAction)
    requires LastEvent(v.events).observationId == Some(observation.id)
             && LastEvent(v.events).fingerprint == Some(fingerprint)
    ensures var m := OnAllowed(c, v, a, call, observation, action, fingerprint, authorization, profile, source);
            && Steady(c, v, m)
            && (m.v.executions != v.executions ==>
                  AuthorizedCommand(observation, action, fingerprint, authorization, profile).Some?
                      && !IsStale(c, observation, a.now))
  {
    hide Core, Finished, Sound, Perform, TryAgain, Ending;
    match AuthorizedCommand(observation, action, fingerprint, authorization, profile)
    case None => FailIsTrue(c, v, a, "INVALID_EXECUTION_AUTHORIZATION");
    case Some(command) =>
      if IsStale(c, observation, a.now) {
        RetryIsSafe(c, v, a);
      } else {
        PerformIsSafe(c, v, a, call, command, source, a.now - observation.capturedAt);
      }
  }

  lemma PolicyIsSafe(c: Setup, v: Progress, a: Answers, call: CallAnswer, observation: Observation, action: Action,
                     fingerprint: string,
                     policy: Policy, source: DecisionSource)
    requires Core(c, v) && AllLetGoOn(c.reopen, v.executions) && v.fault.None?
             && v.observations == ObservationCount(v.events) <= v.iterations
    requires |v.executions| <= v.actionsExecuted + v.retriesUsed && |v.executions| < v.iterations
             && Current(v.events) == Some(observation.id)
    requires MayAnswer(c, call)
    requires v.events != [] && LastEvent(v.events).detail == PolicyDecided(policy.Disposition())
             && LastEvent(v.events).code == policy.reasonCode
    requires LastEvent(v.events).observationId == Some(observation.id)
             && LastEvent(v.events).fingerprint == Some(fingerprint)
    ensures Steady(c, v, OnVerdict(c, v, a, call, observation, action, fingerprint, policy, source))
  {
    match policy
    case Deny(reason) => FailIsTrue(c, v, a, reason);
    case AskApproval(reason, approvalRef) => EndingIsTrue(c, v, a, AWAITING_APPROVAL, reason, Some(approvalRef), None);
    case LookAgain(_) => RetryIsSafe(c, v, a);
    case Allow(_, authorization, profile) =>
      AllowedIsSafe(c, v, a, call, observation, action, fingerprint, authorization, profile, source);
  }

  lemma ActionIsSafe(c: Setup, v: Progress, a: Answers, call: CallAnswer, observation: Observation, action: Action,
                     source: DecisionSource)
    requires Open(c, v, observation.id) && MayAnswer(c, call)
    requires v.events != [] && LastEvent(v.events).detail == Decided(ActionKind, source)
             && LastEvent(v.events).observationId == Some(observation.id)
    ensures Steady(c, v, OnAction(c, v, a, call, observation, action, source))
  {
    hide Finished, Ending, OnVerdict;
    var fingerprint := c.hashes.fingerprint(v.run.taskId, v.run.stepId, action, observation.id);
    match a.policy
    case None =>
      FaultKeepsSound(c, v, PortRaised(Authorizing));
      FailIsTrue(c, v.(fault := Some(PortRaised(Authorizing))), a, "POLICY_EVALUATION_FAILED");
    case Some(policy) =>
      var recorded := Emitted(v, a, policy.reasonCode, Some(observation.id), Some(fingerprint),
                              PolicyDecided(policy.Disposition()));
      RecordKeepsCore(c, v, a, policy.reasonCode, Some(observation.id), Some(fingerprint),
                      PolicyDecided(policy.Disposition()));
      if PolicyStage !in a.refuses {
        PolicyIsSafe(c, recorded, a, call, observation, action, fingerprint, policy, source);
      }
  }

  lemma DecisionIsSafe(c: Setup, v: Progress, a: Answers, call: CallAnswer, observation: Observation,
                       decision: Decision, source: DecisionSource)
    requires Open(c, v, observation.id) && MayAnswer(c, call) && MayDecide(v.events)
    ensures Steady(c, v, OnDecision(c, v, a, call, observation, decision, source))
  {
    hide Finished, Ending, Trace, AllAnnounced, FlagOk, OnSuccess, OnAction;
    var recorded := Emitted(v, a, decision.reasonCode, Some(observation.id), None, Decided(decision.Kind(), source));
    RecordKeepsCore(c, v, a, decision.reasonCode, Some(observation.id), None, Decided(decision.Kind(), source));
    if DecisionStage !in a.refuses {
      match decision
      case GiveUp(_, reason) => FailIsTrue(c, recorded, a, reason);
      case Succeed(_, _) => SuccessIsSafe(c, recorded, a, observation);
      case Act(_, action, _) => ActionIsSafe(c, recorded, a, call, observation, action, source);
    }
  }

  /** Without a decision, or with one on another observation, the run fails and nothing is called. */
  lemma IterationIsSafe(c: Setup, v: Progress, a: Answers, call: CallAnswer, observation: Observation)
    requires Open(c, v, observation.id) && BetweenIterations(v) && MayAnswer(c, call)
    ensures var m := Iteration(c, v, a, call, observation);
            var r := Decide(c, v.run, a, observation);
            && Steady(c, v, m)
            && (r.None? ==> m.v.executions == v.executions && EndsAs(m, a, FAILED, "DECISION_PROVIDER_FAILED"))
            && (r.Some? && r.value.0.observationId != observation.id ==>
                m.v.executions == v.executions && EndsAs(m, a, FAILED, "DECISION_OBSERVATION_MISMATCH"))
  {
    match Decide(c, v.run, a, observation)
    case None =>
      FaultKeepsSound(c, v, PortRaised(Deciding));
      FailIsTrue(c, v.(fault := Some(PortRaised(Deciding))), a, "DECISION_PROVIDER_FAILED");
    case Some((decision, source)) =>
      if decision.observationId != observation.id {
        FailIsTrue(c, v, a, "DECISION_OBSERVATION_MISMATCH");
      } else {
        DecisionIsSafe(c, v, a, call, observation, decision, source);
      }
  }

  // ----- Whole runs ----------------------------------------------------------

  lemma {:induction false} IterationsAreSafe(c: Setup, begun: Move, turns: seq<Round>)
    requires TurnOk(c, begun.v, begun.turn) && begun.v.iterations == 0
    requires |turns| <= c.config.maxIterations && forall i :: 0 <= i < |turns| ==> MayAnswer(c, turns[i].call)
    ensures var m := Iterations(c, begun, turns);
            TurnOk(c, m.v, m.turn) && m.v.run == begun.v.run && (m.turn.Go? ==> m.v.iterations == |turns|)
  {
    hide Core, Finished, Sound, Iteration;
    if turns != [] {
      var front := turns[..|turns| - 1];
      IterationsAreSafe(c, begun, front);
      var before := Iterations(c, begun, front);
      if before.turn.Go? {
        BeginIteration(c, before.v, before.turn.observation.id);
        IterationIsSafe(c, before.v.(iterations := |turns|), turns[|turns| - 1].ports, turns[|turns| - 1].call,
                        before.turn.observation);
      }
    }
  }

  /** An exception that escaped is reported by the effect flag alone, and a spent budget is a failure. */
  lemma ConclusionIsSafe(c: Setup, m: Move, last: Answers)
    requires TurnOk(c, m.v, m.turn) && (m.turn.Go? ==> m.v.iterations == c.config.maxIterations)
    ensures var r := Concluded(m, last);
            && Calm(c, m.v, r) && r.turn.Stop?
            && (m.turn.Escaped? ==> EndsAs(r, last, Fallback(m.v), "EVENT_OR_LOOP_FAILURE"))
            && (m.turn.Go? ==> EndsAs(r, last, FAILED, "ITERATION_BUDGET_EXHAUSTED"))
  {
    match m.turn
    case Stop(_) =>
    case Go(_) => FailIsTrue(c, m.v, last, "ITERATION_BUDGET_EXHAUSTED");
    case Escaped => EndingIsTrue(c, m.v, last, Fallback(m.v), "EVENT_OR_LOOP_FAILURE", None, None);
  }

  /** However the ports answer, a run ends within its budgets with a report that is true of it. */
  lemma RunsAreSafe(c: Setup, run: RunContext, script: Script)
    requires Plausible(c, run, script)
    ensures var m := RunOf(c, run, script); m.turn.Stop? && Finished(c, m.v, m.turn.report) && m.v.run == run
  {
    LookIsSafe(c, Fresh(run), script.first);
    var begun := LookOn(c, Fresh(run), script.first);
    IterationsAreSafe(c, begun, script.turns);
    ConclusionIsSafe(c, Iterations(c, begun, script.turns), script.last);
  }
}
