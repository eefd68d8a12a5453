/** The run state as a value, its invariant, and what every report must say of the run behind it. */
module LoopProgress {
  import opened Outcomes
  import opened AttemptStore
  import opened LoopContracts
  import opened LoopTrace

  /**
    One runtime call: its outcome, whether the durable executor reached the browser, the event that announced it, the
    observation its decision was made on, and the age of that observation when the call was let through.
  */
  datatype Execution = Execution(command: Command, outcome: ExecuteOutcome, reached: bool, at: nat, decidedOn: string,
                                 age: real)

  datatype Port = Observing | Deciding | Authorizing | Verifying

  /**
    A port that failed the run: the sink refused an event, or another port raised.  (What `execute` raises is in its
    execution.)
  */
  datatype Fault = SinkRefused(event: Event) | PortRaised(port: Port)

  /** `executions` and `fault`, the latest one, are history. */
  datatype Progress = Progress(run: RunContext, iterations: nat, retriesUsed: nat, observations: nat,
                               actionsExecuted: nat,
                               lastObservationId: Option<string>, lastEffect: Effect, effectMayHaveStarted: bool,
                               events: seq<Event>, executions: seq<Execution>, fault: Option<Fault>)

  /** A write whose call raised in a way that leaves its effect open. */
  predicate Ambiguous(e: Execution) {
    e.outcome.Raised? && !Retryable(e.outcome.error) && IsWrite(e.command.authorization.effect)
  }

  predicate AwaitsProbe(e: Execution) {
    e.outcome.Returned? && e.outcome.result.checkpoint.Some?
  }

  /**
    A call the run may go on after; `reopen` says whether the fault hook may reopen a call that reached the browser.
  */
  predicate LetsGoOn(reopen: bool, e: Execution) {
    !Ambiguous(e) && !AwaitsProbe(e) && (e.reached ==> reopen)
  }

  predicate AllLetGoOn(reopen: bool, executions: seq<Execution>) {
    forall i :: 0 <= i < |executions| ==> LetsGoOn(reopen, executions[i])
  }

  function ReturnCount(executions: seq<Execution>): nat {
    if executions == [] then 0
    else ReturnCount(executions[..|executions| - 1]) + if executions[|executions| - 1].outcome.Returned? then 1 else 0
  }

  function ReachedCount(executions: seq<Execution>): nat {
    if executions == [] then 0
    else ReachedCount(executions[..|executions| - 1]) + if executions[|executions| - 1].reached then 1 else 0
  }

  /** A write that returned saying its effect may have started. */
  predicate ShowsEffect(e: Execution) {
    e.outcome.Returned? && e.outcome.result.effectMayHaveStarted && IsWrite(e.command.authorization.effect)
  }

  /**
    The effect flag is set for every returned write that may have had its effect, and only for those and for
    results awaiting a probe.  (A probe-awaiting result sets it after its own event was accepted.)
  */
  predicate FlagOk(flag: bool, executions: seq<Execution>) {
    && (forall i :: 0 <= i < |executions| && ShowsEffect(executions[i]) ==> flag)
    && (flag ==> exists i :: 0 <= i < |executions| && (ShowsEffect(executions[i]) || AwaitsProbe(executions[i])))
  }

  /**
    Permit and idempotency references are present, the authorization is for this action on this observation, and the
    profile is eligible.
  */
  predicate Authority(c: Command) {
    && c.authorization.permitId != "" && c.authorization.idempotencyKey != ""
    && c.authorization.fingerprint == c.fingerprint && c.authorization.observationHash == c.observationId
    && ProfileAllowed(c.authorization.effect, c.profile)
  }

  /**
    The call is authorized, rests on a decision about a fresh enough observation, and was announced by its own
    ACTION_STARTED event.
  */
  predicate Announced(config: LoopConfig, events: seq<Event>, e: Execution) {
    && Authority(e.command) && Timely(config, e.age) && e.decidedOn == e.command.observationId
    && e.at < |events| && events[e.at].detail.Started?
    && events[e.at].detail.effect == e.command.authorization.effect
    && events[e.at].fingerprint == Some(e.command.fingerprint)
    && events[e.at].observationId == Some(e.command.observationId)
  }

  /** No older than configured, and at most five seconds in the future. */
  predicate Timely(config: LoopConfig, age: real) {
    -5.0 <= age <= config.maxObservationAge
  }

  /** Only external writes reach the browser through the executor, and it keeps its promise about them. */
  predicate CallKept(reopen: bool, x: Execution) {
    x.reached ==> x.command.authorization.effect.ExternalWrite? && Promised(reopen, x.outcome)
  }

  /** Every call was announced, in order, and was one the runtime may make. */
  ghost predicate AllAnnounced(c: Setup, v: Progress) {
    && (forall i :: 0 <= i < |v.executions| ==>
        Announced(c.config, v.events, v.executions[i]) && CallKept(c.reopen, v.executions[i]))
    && (forall i, j :: 0 <= i < j < |v.executions| ==> v.executions[i].at < v.executions[j].at)
  }

  function LastCall(v: Progress): Execution
    requires v.executions != []
  {
    v.executions[|v.executions| - 1]
  }

  /** The last call leaves its effect to recovery, or to a probe. */
  predicate EndsAmbiguous(v: Progress) {
    v.executions != [] && Ambiguous(LastCall(v))
  }

  predicate EndsAwaitingProbe(v: Progress) {
    v.executions != [] && AwaitsProbe(LastCall(v))
  }

  predicate EndsWithWrite(v: Progress) {
    v.executions != [] && IsWrite(LastCall(v).command.authorization.effect)
  }

  // ----- What a run that ends here reports -----------------------------------

  /** Without an accepted event to say otherwise. */
  function Fallback(v: Progress): LoopStatus {
    if v.effectMayHaveStarted then UNKNOWN else FAILED
  }

  /** The run stands directly behind the completion event of a write. */
  predicate BehindWrite(v: Progress) {
    v.events != [] && LastEvent(v.events).detail.Completed? && EndsWithWrite(v)
  }

  /** The page could not be captured, or its event was refused. */
  function WithoutPage(v: Progress): LoopStatus {
    if BehindWrite(v) then UNKNOWN else FAILED
  }

  /** The last word of a run in which no port failed. */
  function OwnVerdict(v: Progress): LoopStatus {
    if EndsAmbiguous(v) || EndsAwaitingProbe(v) then UNKNOWN
    else if v.events == [] then FAILED
    else match LastEvent(v.events).detail
         case PolicyDecided(RequireApproval) => AWAITING_APPROVAL
         case Verified(Succeeded, _) => SUCCEEDED
         case Verified(Unclear, _) => UNKNOWN
         case Verified(Retry, _) =>
           if LastEvent(v.events).fingerprint.Some? && EndsWithWrite(v) then UNKNOWN else FAILED
         case _ => FAILED
  }

  /**
    The status of a run that ends at `v`, before its terminal event: an event that is no observation sends it through
    the handler in `run`, a missing page is only dangerous directly behind a write, the providers of decisions and of
    policy never are, and otherwise the trace and the last call decide.
  */
  function Verdict(v: Progress): LoopStatus {
    match v.fault
    case Some(SinkRefused(e)) => if e.detail.Observed? then WithoutPage(v) else Fallback(v)
    case Some(PortRaised(Observing)) => WithoutPage(v)
    case Some(PortRaised(Verifying)) => UNKNOWN
    case Some(PortRaised(_)) => FAILED
    case None => OwnVerdict(v)
  }

  // ----- And why -------------------------------------------------------------

  /** A verdict to retry that is not about a write. */
  predicate RetriesFreely(v: Progress)
    requires v.events != []
  {
    var last := LastEvent(v.events);
    last.detail.Verified? && last.detail.outcome.Retry? && (last.fingerprint.Some? ==> !EndsWithWrite(v))
  }

  /**
    Where an iteration begins, and where the iterations run out: at a page, or at a verdict that lets the run go on with
    it.
  */
  predicate BetweenIterations(v: Progress) {
    && v.events != []
    && var last := LastEvent(v.events);
       || last.detail.Observed?
       || (last.detail.Verified? && last.detail.outcome.Continue? && last.fingerprint.Some?)
       || (RetriesFreely(v) && last.fingerprint.Some?)
  }

  /**
    Where the loop looks again at the price of a retry: at a verdict to retry, at a policy that asks for a new page, at
    an allowed action on an aged page, and at a call that raised a stale page or a harmless error.
  */
  predicate WantsRetry(v: Progress) {
    && v.events != []
    && var last := LastEvent(v.events);
       || RetriesFreely(v)
       || last.detail == PolicyDecided(Reobserve) || last.detail == PolicyDecided(AllowAction)
       || (last.detail.Started? && v.executions != [] && LastCall(v).outcome.Raised?
           && !LastCall(v).outcome.error.Other?)
  }

  /** A decision, a policy or a verdict that says itself that the run has failed. */
  predicate SaysFailure(detail: Detail) {
    || (detail.Decided? && detail.kind.FailureKind?)
    || detail == PolicyDecided(DenyAction)
    || (detail.Verified? && detail.outcome.Disproved?)
  }

  /** A call without a write that raised something the loop does not know. */
  predicate RaisedHarmlessly(v: Progress) {
    && v.events != [] && LastEvent(v.events).detail.Started?
    && v.executions != [] && LastCall(v).outcome == Raised(Raise.Other) && !EndsWithWrite(v)
  }

  /**
    The ways in which a run fails although no port failed it: a mismatched decision, a spent budget, an invalid
    authorization, a raising call that is no write, and a model, a policy or a verifier that says so.  Its last call
    leaves nothing to a probe or to recovery.
  */
  predicate OwnFailure(config: LoopConfig, v: Progress, reason: string) {
    && v.events != [] && !EndsAmbiguous(v) && !EndsAwaitingProbe(v)
    && (|| (reason == "DECISION_OBSERVATION_MISMATCH" && BetweenIterations(v))
        || (reason == "ITERATION_BUDGET_EXHAUSTED" && BetweenIterations(v) && v.iterations == config.maxIterations)
        || (reason == "RETRY_BUDGET_EXHAUSTED" && WantsRetry(v) && v.retriesUsed == config.maxRetries)
        || (reason == "INVALID_EXECUTION_AUTHORIZATION" && LastEvent(v.events).detail == PolicyDecided(AllowAction))
        || (reason == "ACTION_EXECUTION_FAILED" && RaisedHarmlessly(v))
        || (reason == LastEvent(v.events).code && SaysFailure(LastEvent(v.events).detail)))
  }

  /** The ways in which a run is left open although no port failed it. */
  predicate OwnSuspicion(v: Progress, reason: string) {
    || (EndsAmbiguous(v) && reason == "ACTION_EFFECT_UNKNOWN")
    || (!EndsAmbiguous(v) && EndsAwaitingProbe(v) && v.events != [] && LastEvent(v.events).detail.Verified?
        && reason == "PENDING_RESULT_PROBE")
    || (!EndsAmbiguous(v) && !EndsAwaitingProbe(v) && v.events != [] && LastEvent(v.events).detail.Verified?
        && match LastEvent(v.events).detail.outcome
           case Unclear => reason == LastEvent(v.events).code
           case Retry => !RetriesFreely(v) && reason == "WRITE_RETRY_REQUIRES_RECOVERY"
           case _ => false)
  }

  /** What a run that lost its page gives as the reason. */
  function WithoutPageReason(v: Progress): string {
    if v.events == [] then "OBSERVATION_FAILED"
    else match LastEvent(v.events).detail
         case Completed(_) => "POST_ACTION_OBSERVATION_FAILED"
         case Verified(Continue, _) => "OBSERVATION_FAILED"
         case _ => "RETRY_BUDGET_EXHAUSTED"
  }

  /** The reason a run that ends at `v` gives for its verdict. */
  predicate ReasonFits(config: LoopConfig, v: Progress, reason: string) {
    match v.fault
    case Some(SinkRefused(e)) => reason == if e.detail.Observed? then WithoutPageReason(v) else "EVENT_OR_LOOP_FAILURE"
    case Some(PortRaised(Observing)) => reason == WithoutPageReason(v)
    case Some(PortRaised(Deciding)) => reason == "DECISION_PROVIDER_FAILED"
    case Some(PortRaised(Authorizing)) => reason == "POLICY_EVALUATION_FAILED"
    case _ =>
      match OwnVerdict(v)
      case FAILED => OwnFailure(config, v, reason)
      case UNKNOWN => OwnSuspicion(v, reason)
      case _ => v.events != [] && reason == LastEvent(v.events).code
  }

  /** The checkpoint such a run is suspended on: its last call awaits a probe, and that is on record. */
  function PendingCheckpoint(v: Progress): Option<Checkpoint> {
    if EndsAwaitingProbe(v) && v.events != [] && LastEvent(v.events).detail.Verified?
    then LastCall(v).outcome.result.checkpoint else None
  }

  predicate AsksApproval(v: Progress) {
    v.events != [] && LastEvent(v.events).detail == PolicyDecided(RequireApproval)
  }

  /** The sink refused the terminal event itself. */
  predicate EndRefused(v: Progress) {
    v.fault.Some? && v.fault.value.SinkRefused? && v.fault.value.event.detail.Ended?
  }

  /** An open call is followed by no port that could fail, except those that put it on record. */
  predicate FaultFits(v: Progress) {
    && !EndRefused(v)
    && (EndsAmbiguous(v) ==> v.fault.None?)
    && (EndsAwaitingProbe(v) && v.fault.Some? ==>
          if v.fault.value.SinkRefused? then !v.fault.value.event.detail.Observed? else v.fault.value.port.Verifying?)
  }

  /** The sink refused an event whose refusal the loop does not catch. */
  predicate LetEscape(v: Progress) {
    v.fault.Some? && v.fault.value.SinkRefused? && !v.fault.value.event.detail.Observed?
        && !v.fault.value.event.detail.Ended?
  }

  // ----- The invariant -------------------------------------------------------

  predicate Budgets(config: LoopConfig, v: Progress) {
    && v.iterations <= config.maxIterations && v.retriesUsed <= config.maxRetries
    && v.observations <= v.iterations + 1 && v.observations <= 1 + v.retriesUsed + v.actionsExecuted
         + SuccessCount(v.events)
    && |v.executions| <= v.iterations && |v.executions| <= v.actionsExecuted + v.retriesUsed + 1
  }

  /** A further observation is paid for: by a retry, by a returned action, or by a decision that the goal is reached. */
  predicate Paid(v: Progress) {
    v.observations <= v.retriesUsed + v.actionsExecuted + SuccessCount(v.events)
  }

  /** What holds of a run at every point. */
  ghost predicate Sound(c: Setup, v: Progress) {
    && Trace(v.run, v.events)
    && StartCount(v.events) == |v.executions|
    && v.actionsExecuted == ReturnCount(v.executions)
    && (v.observations == ObservationCount(v.events) ==> v.lastObservationId == Current(v.events))
    && FlagOk(v.effectMayHaveStarted, v.executions)
    && Budgets(c.config, v)
    && AllAnnounced(c, v)
    && (forall i :: 0 <= i < |v.executions| - 1 ==> LetsGoOn(c.reopen, v.executions[i]))
  }

  /** What holds of a run at every point before its terminal event. */
  ghost predicate Core(c: Setup, v: Progress) {
    && Sound(c, v) && !Closed(v.events) && FaultFits(v)
    && ObservationCount(v.events) <= v.observations <= ObservationCount(v.events) + 1
  }

  /**
    A point at which the run may still observe: nothing open behind it, no port failed, and this iteration's observation
    not yet spent.
  */
  ghost predicate Ready(c: Setup, v: Progress) {
    && Core(c, v) && AllLetGoOn(c.reopen, v.executions) && v.fault.None?
    && v.observations == ObservationCount(v.events) <= v.iterations
  }

  /** Whoever stops here on his own account has failed. */
  predicate FailsHere(v: Progress) {
    WithoutPage(v) == FAILED && OwnVerdict(v) == FAILED
  }

  /** A point at which an iteration may end and the next one begin, looking at observation `id`. */
  ghost predicate Live(c: Setup, v: Progress, id: string) {
    && Core(c, v) && AllLetGoOn(c.reopen, v.executions) && v.fault.None? && FailsHere(v)
    && v.observations == ObservationCount(v.events)
    && |v.executions| <= v.actionsExecuted + v.retriesUsed
    && Current(v.events) == Some(id)
  }

  // ----- Reports -------------------------------------------------------------

  /** How an iteration ends: with the observation to go on with, a report, or an exception the loop lets escape. */
  datatype Turn = Go(observation: Observation) | Stop(report: Report) | Escaped

  /** The report repeats the run's counters and events. */
  predicate Reports(v: Progress, r: Report) {
    r == Report(v.run, r.status, r.reasonCode, v.iterations, v.retriesUsed, v.observations, v.actionsExecuted,
                v.lastObservationId,
                r.approvalRef, r.checkpoint, v.events)
  }

  /** The run just before its terminal event, accepted or not. */
  function BeforeEnd(v: Progress): Progress {
    if Closed(v.events) then v.(events := v.events[..|v.events| - 1]) else v
  }

  /**
    What every report of a finished run says: the counters and events of the run; the verdict on it with its reason, or
    what the refused terminal event leaves of that; the checkpoint exactly of a call suspended on one; and an approval
    reference exactly for an approval pause.
  */
  ghost predicate Finished(c: Setup, v: Progress, r: Report) {
    && Sound(c, v) && Reports(v, r)
    && (if Closed(v.events)
        then LastEvent(v.events).detail == Ended(r.status) && LastEvent(v.events).code == r.reasonCode
            && r.status == Verdict(BeforeEnd(v)) && FaultFits(v)
             && ReasonFits(c.config, BeforeEnd(v), r.reasonCode)
        else r.reasonCode == "EVENT_SINK_FAILED" && r.status == Fallback(v) && EndRefused(v))
    && r.checkpoint == PendingCheckpoint(BeforeEnd(v))
    && (r.approvalRef.Some? <==> AsksApproval(BeforeEnd(v)))
  }

  /** Where an iteration may leave the run. */
  ghost predicate TurnOk(c: Setup, v: Progress, turn: Turn) {
    match turn
    case Go(observation) => Live(c, v, observation.id) && BetweenIterations(v)
    case Stop(report) => Finished(c, v, report)
    case Escaped => Core(c, v) && LetEscape(v) && PendingCheckpoint(v).None? && !AsksApproval(v)
  }

  // ----- How changes keep the invariant --------------------------------------

  lemma EventKeepsCore(c: Setup, v: Progress, e: Event)
    requires Core(c, v) && MayFollow(v.run, v.events, e)
    requires e.detail.Observed? ==>
               v.observations == ObservationCount(v.events) + 1 && v.lastObservationId == e.observationId
    requires !e.detail.Started? && !e.detail.Ended?
    ensures Core(c, v.(events := v.events + [e]))
  {
    Appended(v.run, v.events, e);
    var v' := v.(events := v.events + [e]);
    forall i | 0 <= i < |v.executions| ensures Announced(c.config, v'.events, v'.executions[i]) {
      assert Announced(c.config, v.events, v.executions[i]);
    }
  }

  lemma FaultKeepsSound(c: Setup, v: Progress, fault: Fault)
    requires Sound(c, v)
    ensures Sound(c, v.(fault := Some(fault)))
  {
  }

  lemma EndKeepsSound(c: Setup, v: Progress, e: Event)
    requires Core(c, v) && MayFollow(v.run, v.events, e) && e.detail.Ended?
    ensures Sound(c, v.(events := v.events + [e]))
    ensures BeforeEnd(v.(events := v.events + [e])) == v
  {
    Appended(v.run, v.events, e);
    var v' := v.(events := v.events + [e]);
    assert v'.events[..|v.events|] == v.events;
    forall i | 0 <= i < |v.executions| ensures Announced(c.config, v'.events, v'.executions[i]) {
      assert Announced(c.config, v.events, v.executions[i]);
    }
  }

  lemma CallKeepsFlag(flag: bool, executions: seq<Execution>, x: Execution)
    requires FlagOk(flag, executions)
    ensures FlagOk(flag || ShowsEffect(x), executions + [x])
  {
    if flag {
      var i :| 0 <= i < |executions| && (ShowsEffect(executions[i]) || AwaitsProbe(executions[i]));
      assert (executions + [x])[i] == executions[i];
    } else if ShowsEffect(x) {
      assert (executions + [x])[|executions|] == x;
    }
  }

  lemma CallKeepsAnnouncements(c: Setup, v: Progress, e: Event, x: Execution)
    requires AllAnnounced(c, v) && x.at == |v.events| && Announced(c.config, v.events + [e], x) && CallKept(c.reopen, x)
    ensures AllAnnounced(c, v.(events := v.events + [e], executions := v.executions + [x]))
  {
    var v' := v.(events := v.events + [e], executions := v.executions + [x]);
    forall i | 0 <= i < |v'.executions|
      ensures Announced(c.config, v'.events, v'.executions[i]) && CallKept(c.reopen, v'.executions[i])
    {
      if i < |v.executions| {
        assert Announced(c.config, v.events, v.executions[i]) && CallKept(c.reopen, v.executions[i]);
      }
    }
    forall i, j | 0 <= i < j < |v'.executions| ensures v'.executions[i].at < v'.executions[j].at {
      assert Announced(c.config, v.events, v.executions[i]);
    }
  }

  /** Announcing a call, making it and recording its outcome, as one change. */
  lemma ExecutionKeepsCore(c: Setup, v: Progress, e: Event, x: Execution, v': Progress)
    requires Core(c, v) && AllLetGoOn(c.reopen, v.executions) && v.fault.None? && MayFollow(v.run, v.events, e)
             && e.detail.Started?
    requires |v.executions| <= v.actionsExecuted + v.retriesUsed && |v.executions| < v.iterations
    requires x.at == |v.events| && Announced(c.config, v.events + [e], x) && CallKept(c.reopen, x)
    requires v' == v.(events := v.events + [e], executions := v.executions + [x], lastEffect := v'.lastEffect,
                      actionsExecuted := v.actionsExecuted + (if x.outcome.Returned? then 1 else 0),
                      effectMayHaveStarted := v.effectMayHaveStarted || ShowsEffect(x))
    ensures Core(c, v')
    ensures LetsGoOn(c.reopen, x) ==> AllLetGoOn(c.reopen, v'.executions)
    ensures v'.executions[..|v.executions|] == v.executions && v'.executions[|v.executions|] == x
    ensures ObservationCount(v'.events) == ObservationCount(v.events) && Current(v'.events) == Current(v.events)
    ensures SuccessCount(v'.events) == SuccessCount(v.events)
  {
    hide Announced, CallKept;
    Appended(v.run, v.events, e);
    assert v'.executions[..|v.executions|] == v.executions;
    CallKeepsAnnouncements(c, v, e, x);
    assert v'.executions[|v.executions|] == x;
    CallKeepsFlag(v.effectMayHaveStarted, v.executions, x);
  }

  lemma FlagKeepsCore(c: Setup, v: Progress)
    requires Core(c, v) && EndsAwaitingProbe(v)
    ensures Core(c, v.(effectMayHaveStarted := true))
  {
  }

  /** The run just after a runtime call with `outcome`. */
  ghost predicate Launched(c: Setup, v: Progress, command: Command, outcome: ExecuteOutcome) {
    && Core(c, v) && v.observations == ObservationCount(v.events) <= v.iterations && v.fault.None?
    && v.executions != [] && LastCall(v).outcome == outcome && LastCall(v).command == command
    && (MayGoOn(command, outcome) ==> AllLetGoOn(c.reopen, v.executions))
    && (outcome.Returned? ==> |v.executions| <= v.actionsExecuted + v.retriesUsed && Paid(v))
    && v.events != [] && LastEvent(v.events).detail.Started? && Current(v.events) == Some(command.observationId)
    && LastEvent(v.events).observationId == Some(command.observationId)
    && LastEvent(v.events).fingerprint == Some(command.fingerprint)
  }

  /** Outcomes that leave nothing to a probe or to recovery. */
  predicate MayGoOn(command: Command, outcome: ExecuteOutcome) {
    match outcome
    case Returned(result) => result.checkpoint.None?
    case Raised(error) => Retryable(error) || !IsWrite(command.authorization.effect)
  }

  lemma LaunchKeepsCore(c: Setup, v: Progress, e: Event, x: Execution, v': Progress, source: DecisionSource)
    requires Live(c, v, x.command.observationId)
    requires v.observations <= v.iterations && |v.executions| < v.iterations
    requires Authority(x.command) && Timely(c.config, x.age) && x.decidedOn == x.command.observationId
    requires v.events != [] && LastEvent(v.events).detail == PolicyDecided(AllowAction)
    requires LastEvent(v.events).observationId == Some(x.command.observationId)
             && LastEvent(v.events).fingerprint == Some(x.command.fingerprint)
    requires e == Event(|v.events| + 1, v.run, "ACTION_STARTED", Some(x.command.observationId),
                        Some(x.command.fingerprint),
                        Started(x.command.action.kind, x.command.authorization.effect, source))
    requires x.at == |v.events| && CallKept(c.reopen, x)
    requires v' == v.(events := v.events + [e], executions := v.executions + [x], lastEffect := v'.lastEffect,
                      actionsExecuted := v.actionsExecuted + (if x.outcome.Returned? then 1 else 0),
                      effectMayHaveStarted := v.effectMayHaveStarted || ShowsEffect(x))
    ensures Launched(c, v', x.command, x.outcome)
  {
    ExecutionKeepsCore(c, v, e, x, v');
    assert LastEvent(v'.events) == e;
  }

  lemma {:induction false} NoneReached(executions: seq<Execution>)
    requires forall i :: 0 <= i < |executions| ==> !executions[i].reached
    ensures ReachedCount(executions) == 0
  {
    if executions != [] {
      NoneReached(executions[..|executions| - 1]);
    }
  }

  lemma OnlyTheLastReaches(reopen: bool, executions: seq<Execution>)
    requires forall i :: 0 <= i < |executions| - 1 ==> LetsGoOn(reopen, executions[i])
    ensures !reopen ==> ReachedCount(executions) <= 1 && forall i :: 0 <= i < |executions| - 1 ==>
        !executions[i].reached
  {
    if !reopen && executions != [] {
      NoneReached(executions[..|executions| - 1]);
    }
  }

  lemma BeginIteration(c: Setup, v: Progress, id: string)
    requires Live(c, v, id) && v.iterations < c.config.maxIterations
    ensures var v' := v.(iterations := v.iterations + 1);
            Live(c, v', id) && v'.observations <= v'.iterations && |v'.executions| < v'.iterations
  {
  }
}
