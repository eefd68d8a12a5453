/** What one iteration, and a whole run, makes of a run state: a function of what the ports answer. */
module LoopSteps {
  import opened Outcomes
  import opened AttemptStore
  import opened LoopContracts
  import opened LoopTrace
  import opened LoopProgress

  /** Where a step leaves the run, and how it goes on from there. */
  datatype Move = Move(v: Progress, turn: Turn)

  // ----- Events and the end --------------------------------------------------

  function NextEvent(v: Progress, code: string, observationId: Option<string>, fingerprint: Option<string>,
                     detail: Detail): Event {
    Event(|v.events| + 1, v.run, code, observationId, fingerprint, detail)
  }

  /** The sink takes the next event, or refuses it and nothing is recorded. */
  function Emitted(v: Progress, a: Answers, code: string, observationId: Option<string>, fingerprint: Option<string>,
                   detail: Detail): Progress {
    var e := NextEvent(v, code, observationId, fingerprint, detail);
    if a.Accepts(detail) then v.(events := v.events + [e]) else v.(fault := Some(SinkRefused(e)))
  }

  /** What `_terminal` makes of a run: the accepted terminal event and a report of just that, or the fallback. */
  function Ending(v: Progress, a: Answers, status: LoopStatus, reason: string, approvalRef: Option<string>,
                  checkpoint: Option<Checkpoint>): Move {
    var v' := Emitted(v, a, reason, v.lastObservationId, None, Detail.Ended(status));
    var ok := a.Accepts(Detail.Ended(status));
    Move(v', Stop(Report(v.run, if ok then status else Fallback(v), if ok then reason else "EVENT_SINK_FAILED",
                         v.iterations, v.retriesUsed,
                         v.observations, v.actionsExecuted, v.lastObservationId, approvalRef, checkpoint, v'.events)))
  }

  function Fail(v: Progress, a: Answers, reason: string): Move {
    Ending(v, a, FAILED, reason, None, None)
  }

  // ----- Observing -----------------------------------------------------------

  function Bound(c: Setup, raw: RawObservation, sequence: nat): Observation {
    Observation(c.hashes.observation(raw.url, raw.pageHtml), c.hashes.snapshot(raw.url, raw.pageHtml), sequence,
                raw.capturedAt)
  }

  /** A page that comes counts and is the last one, also when the sink then refuses its event. */
  function Observe(c: Setup, v: Progress, a: Answers): (Progress, Option<Observation>) {
    match a.page
    case None => (v.(fault := Some(PortRaised(Observing))), None)
    case Some(raw) =>
      var observation := Bound(c, raw, v.observations + 1);
      var seen := v.(observations := v.observations + 1, lastObservationId := Some(observation.id));
      (Emitted(seen, a, "OBSERVATION_CAPTURED", Some(observation.id), None, Observed(observation.sequence)),
       if a.Accepts(Observed(observation.sequence)) then Some(observation) else None)
  }

  /** A fresh look at the price of one retry, or the end of the run. */
  function TryAgain(c: Setup, v: Progress, a: Answers): Move {
    if v.retriesUsed >= c.config.maxRetries then Fail(v, a, "RETRY_BUDGET_EXHAUSTED")
    else
      var (next, page) := Observe(c, v.(retriesUsed := v.retriesUsed + 1), a);
      if page.Some? then Move(next, Go(page.value)) else Fail(next, a, "RETRY_BUDGET_EXHAUSTED")
  }

  /** A fresh look without spending a retry. */
  function LookOn(c: Setup, v: Progress, a: Answers): Move {
    var (next, page) := Observe(c, v, a);
    if page.Some? then Move(next, Go(page.value)) else Fail(next, a, "OBSERVATION_FAILED")
  }

  // ----- Verifying -----------------------------------------------------------

  /** A verifier that raises counts as unclear. */
  function Judgment(a: Answers): Verification {
    match a.verification
    case Some(answer) => answer
    case None => Verification(Unclear, "VERIFICATION_FAILED", 0)
  }

  /** The verdict goes on record before it is used. */
  function Verify(v: Progress, a: Answers, after: string, fingerprint: Option<string>): Progress {
    var j := Judgment(a);
    var asked := if a.verification.None? then v.(fault := Some(PortRaised(Verifying))) else v;
    Emitted(asked, a, j.reasonCode, Some(after), fingerprint, Verified(j.disposition, j.evidenceCount))
  }

  /** A conclusive verdict ends the run with its own status and reason; the others leave it open. */
  function VerificationTerminal(v: Progress, a: Answers, j: Verification): Option<Move> {
    match j.disposition
    case Succeeded => Some(Ending(v, a, SUCCEEDED, j.reasonCode, None, None))
    case Disproved => Some(Ending(v, a, FAILED, j.reasonCode, None, None))
    case Unclear => Some(Ending(v, a, UNKNOWN, j.reasonCode, None, None))
    case Continue => None
    case Retry => None
  }

  /** The model says it is done: the verifier has the last word. */
  function OnSuccess(c: Setup, v: Progress, a: Answers, observation: Observation): Move {
    var j := Judgment(a);
    var judged := Verify(v, a, observation.id, None);
    if VerificationStage in a.refuses then Move(judged, Escaped)
    else match VerificationTerminal(judged, a, j)
         case Some(m) => m
         case None => if j.disposition.Retry? then TryAgain(c, judged, a) else LookOn(c, judged, a)
  }

  // ----- Acting --------------------------------------------------------------

  /**
    The result waits for its probe: the verification boundary is recorded and the run suspends on the exact checkpoint.
  */
  function Suspend(v: Progress, a: Answers, command: Command, result: ActionResult): Move {
    var judged := Verify(v.(effectMayHaveStarted := true), a, command.observationId, Some(command.fingerprint));
    if VerificationStage in a.refuses then Move(judged, Escaped)
    else Ending(judged, a, UNKNOWN, "PENDING_RESULT_PROBE", None, result.checkpoint)
  }

  /** The verifier asks for another try: never for a write, and only within the retry budget. */
  function Reconsider(c: Setup, v: Progress, a: Answers, after: Observation, command: Command): Move {
    if IsWrite(command.authorization.effect) then Ending(v, a, UNKNOWN, "WRITE_RETRY_REQUIRES_RECOVERY", None, None)
    else if v.retriesUsed >= c.config.maxRetries then Fail(v, a, "RETRY_BUDGET_EXHAUSTED")
    else Move(v.(retriesUsed := v.retriesUsed + 1), Go(after))
  }

  /** The verifier's verdict on a returned action. */
  function Judge(c: Setup, v: Progress, a: Answers, after: Observation, command: Command): Move {
    var j := Judgment(a);
    var judged := Verify(v, a, after.id, Some(command.fingerprint));
    if VerificationStage in a.refuses then Move(judged, Escaped)
    else match VerificationTerminal(judged, a, j)
         case Some(m) => m
         case None => if j.disposition.Retry? then Reconsider(c, judged, a, after, command) else Move(judged, Go(after))
  }

  /** The page after a returned action; without it a write stays open. */
  function LookAfter(c: Setup, v: Progress, a: Answers, command: Command): Move {
    var (next, page) := Observe(c, v, a);
    match page
    case Some(after) => Judge(c, next, a, after, command)
    case None =>
      Ending(next, a, if IsWrite(command.authorization.effect) then UNKNOWN else FAILED,
             "POST_ACTION_OBSERVATION_FAILED", None, None)
  }

  /** The call returned: record it, and go on only when nothing is left to a probe or to recovery. */
  function AfterReturn(c: Setup, v: Progress, a: Answers, command: Command, result: ActionResult): Move {
    var recorded := Emitted(v, a, result.detailCode, Some(command.observationId), Some(command.fingerprint),
                            Completed(result.completed));
    if CompletionStage in a.refuses then Move(recorded, Escaped)
    else if result.checkpoint.Some? then Suspend(recorded, a, command, result)
    else LookAfter(c, recorded, a, command)
  }

  /**
    What the loop does with the runtime's answer: a raised write with a possible effect ends the run, a stale page or a
    harmless error costs a retry.
  */
  function Answer(c: Setup, v: Progress, a: Answers, command: Command, outcome: ExecuteOutcome): Move {
    var write := IsWrite(command.authorization.effect);
    match outcome
    case Returned(result) => AfterReturn(c, v, a, command, result)
    case Raised(error) =>
      if error.Stale? || (error.Runtime? && !(error.effectMayHaveStarted && write)) then TryAgain(c, v, a)
      else if write then Ending(v, a, UNKNOWN, "ACTION_EFFECT_UNKNOWN", None, None)
      else Fail(v, a, "ACTION_EXECUTION_FAILED")
  }

  /** The call the ports let happen; only an external write can reach the browser through the executor. */
  function CallMade(v: Progress, call: CallAnswer, command: Command, age: real): Execution {
    Execution(command, call.outcome, call.reached && command.authorization.effect.ExternalWrite?, |v.events|,
              command.observationId, age)
  }

  /** The runtime was called once: the counters and flags it moves. */
  function Called(v: Progress, x: Execution): Progress {
    v.(executions := v.executions + [x], lastEffect := x.command.authorization.effect,
       actionsExecuted := v.actionsExecuted + (if x.outcome.Returned? then 1 else 0),
       effectMayHaveStarted := v.effectMayHaveStarted || ShowsEffect(x))
  }

  /** Announces the action, calls the runtime once and deals with its answer. */
  function Perform(c: Setup, v: Progress, a: Answers, call: CallAnswer, command: Command, source: DecisionSource,
                   age: real): Move {
    var announced := Emitted(v, a, "ACTION_STARTED", Some(command.observationId), Some(command.fingerprint),
                             Started(command.action.kind, command.authorization.effect, source));
    if StartStage in a.refuses then Move(announced, Escaped)
    else Answer(c, Called(announced, CallMade(v, call, command, age)), a, command, call.outcome)
  }

  // ----- One iteration -------------------------------------------------------

  predicate IsStale(c: Setup, observation: Observation, now: real) {
    !Timely(c.config, now - observation.capturedAt)
  }

  function AuthorizedCommand(observation: Observation, action: Action, fingerprint: string,
                             authorization: Authorization, profile: Profile):
    (r: Option<Command>)
    ensures r.Some? <==> && authorization.permitId != "" && authorization.idempotencyKey != ""
                         && authorization.fingerprint == fingerprint && authorization.observationHash == observation.id
                         && ProfileAllowed(authorization.effect, profile)
    ensures r.Some? ==>
              && Authority(r.value) && r.value.authorization == authorization
              && r.value.observationId == observation.id && r.value.fingerprint == fingerprint
  {
    if authorization.permitId == "" || authorization.idempotencyKey == "" then None
    else if authorization.fingerprint != fingerprint || authorization.observationHash != observation.id then None
    else if !ProfileAllowed(authorization.effect, profile) then None
    else Some(Command(action, fingerprint, observation.id, observation.snapshotHash, authorization, profile))
  }

  /** The policy allowed the action: bind the command, refuse it, or look again when the observation has aged. */
  function OnAllowed(c: Setup, v: Progress, a: Answers, call: CallAnswer, observation: Observation, action: Action,
                     fingerprint: string,
                     authorization: Authorization, profile: Profile, source: DecisionSource): Move
  {
    match AuthorizedCommand(observation, action, fingerprint, authorization, profile)
    case None => Fail(v, a, "INVALID_EXECUTION_AUTHORIZATION")
    case Some(command) =>
      if IsStale(c, observation, a.now) then TryAgain(c, v, a)
        else Perform(c, v, a, call, command, source, a.now - observation.capturedAt)
  }

  /** The policy's verdict is on record. */
  function OnVerdict(c: Setup, v: Progress, a: Answers, call: CallAnswer, observation: Observation, action: Action,
                     fingerprint: string, policy: Policy,
                     source: DecisionSource): Move
  {
    match policy
    case Deny(reason) => Fail(v, a, reason)
    case AskApproval(reason, approvalRef) => Ending(v, a, AWAITING_APPROVAL, reason, Some(approvalRef), None)
    case LookAgain(_) => TryAgain(c, v, a)
    case Allow(_, authorization, profile) =>
      OnAllowed(c, v, a, call, observation, action, fingerprint, authorization, profile, source)
  }

  function OnAction(c: Setup, v: Progress, a: Answers, call: CallAnswer, observation: Observation, action: Action,
                    source: DecisionSource): Move {
    var fingerprint := c.hashes.fingerprint(v.run.taskId, v.run.stepId, action, observation.id);
    match a.policy
    case None => Fail(v.(fault := Some(PortRaised(Authorizing))), a, "POLICY_EVALUATION_FAILED")
    case Some(policy) =>
      var recorded := Emitted(v, a, policy.reasonCode, Some(observation.id), Some(fingerprint),
                              PolicyDecided(policy.Disposition()));
      if PolicyStage in a.refuses then Move(recorded, Escaped)
      else OnVerdict(c, recorded, a, call, observation, action, fingerprint, policy, source)
  }

  predicate DomainMatches(c: Setup, run: RunContext) {
    && c.domain.Some? && run.packId.Some? && run.packVersion.Some? && run.capabilityId.Some?
    && c.domain.value.packId == run.packId.value && c.domain.value.packVersion == run.packVersion.value
    && run.capabilityId.value in c.domain.value.capabilityIds
  }

  /**
    The domain pack's own action when it has one, else the model's on the input the policy prepared for this
    observation.
  */
  function Decide(c: Setup, run: RunContext, a: Answers,
                  observation: Observation): (r: Option<(Decision, DecisionSource)>)
    ensures r.Some? && r.value.1.DomainPack? ==> DomainMatches(c, run) && a.pack == Some(Some(r.value.0))
    ensures r.Some? && r.value.1.Model? ==>
              a.inputFor == Some(observation.id) && a.model == Some(r.value.0)
                  && (DomainMatches(c, run) ==> a.pack == Some(None))
  {
    if DomainMatches(c, run) && a.pack.None? then None
    else if DomainMatches(c, run) && a.pack.value.Some? then Some((a.pack.value.value, DomainPack))
    else if a.inputFor != Some(observation.id) || a.model.None? then None
    else Some((a.model.value, Model))
  }

  function OnDecision(c: Setup, v: Progress, a: Answers, call: CallAnswer, observation: Observation,
                      decision: Decision, source: DecisionSource): Move {
    var recorded := Emitted(v, a, decision.reasonCode, Some(observation.id), None, Decided(decision.Kind(), source));
    if DecisionStage in a.refuses then Move(recorded, Escaped)
    else match decision
         case GiveUp(_, reason) => Fail(recorded, a, reason)
         case Succeed(_, _) => OnSuccess(c, recorded, a, observation)
         case Act(_, action, _) => OnAction(c, recorded, a, call, observation, action, source)
  }

  /** Only a decision on the very observation the run looks at is taken up. */
  function Iteration(c: Setup, v: Progress, a: Answers, call: CallAnswer, observation: Observation): Move {
    match Decide(c, v.run, a, observation)
    case None => Fail(v.(fault := Some(PortRaised(Deciding))), a, "DECISION_PROVIDER_FAILED")
    case Some((decision, source)) =>
      if decision.observationId != observation.id then Fail(v, a, "DECISION_OBSERVATION_MISMATCH")
      else OnDecision(c, v, a, call, observation, decision, source)
  }

  // ----- Whole runs ----------------------------------------------------------

  function Fresh(run: RunContext): Progress {
    Progress(run, 0, 0, 0, 0, None, NoEffect, false, [], [], None)
  }

  /** The run after as many iterations as there are answers, or where it stopped before. */
  function Iterations(c: Setup, begun: Move, turns: seq<Round>): Move {
    if turns == [] then begun
    else
      var before := Iterations(c, begun, turns[..|turns| - 1]);
      var round := turns[|turns| - 1];
      if before.turn.Go?
      then Iteration(c, before.v.(iterations := |turns|), round.ports, round.call, before.turn.observation)
      else before
  }

  /**
    The report of a run that went as far as `m`: it stopped, let an exception escape to `run`, or spent its iterations.
  */
  function Concluded(m: Move, last: Answers): Move {
    match m.turn
    case Stop(_) => m
    case Go(_) => Fail(m.v, last, "ITERATION_BUDGET_EXHAUSTED")
    case Escaped => Ending(m.v, last, Fallback(m.v), "EVENT_OR_LOOP_FAILURE", None, None)
  }

  /**
    The answers of a whole run: to the first look, in each iteration, and to a terminal event behind the iterations.
  */
  datatype Script = Script(first: Answers, turns: seq<Round>, last: Answers)

  /** The run in which every port answers as the script says. */
  function RunOf(c: Setup, run: RunContext, script: Script): Move {
    Concluded(Iterations(c, LookOn(c, Fresh(run), script.first), script.turns), script.last)
  }

  /**
    The script is as long as the run it is played to, within the budget, and its calls are such as the runtime may make.
  */
  ghost predicate Plausible(c: Setup, run: RunContext, script: Script) {
    && |script.turns| <= c.config.maxIterations
    && (forall i :: 0 <= i < |script.turns| ==> MayAnswer(c, script.turns[i].call))
    && (Iterations(c, LookOn(c, Fresh(run), script.first), script.turns).turn.Go? ==>
        |script.turns| == c.config.maxIterations)
  }

  predicate MayAnswer(c: Setup, call: CallAnswer) {
    call.reached ==> Promised(c.reopen, call.outcome)
  }
}
