/**
  The governed browser loop.  Its ports may answer anything well typed, or raise: the answers of an iteration are chosen
  arbitrarily when it begins, except the runtime's, which the durable executor gives where there is one.
*/
module BrowserLoop {
  import opened Outcomes
  import opened AttemptStore
  import opened LoopContracts
  import opened LoopProgress
  import By = LoopAnswers
  import Persisted = PersistedExecutor
  import Reports = LoopReports
  import Safety = LoopSafety
  import Steps = LoopSteps

  class RunState {
    const run: RunContext
    var iterations: nat
    var retriesUsed: nat
    var observations: nat
    var actionsExecuted: nat
    var lastObservationId: Option<string>
    var lastEffect: Effect
    var effectMayHaveStarted: bool
    var events: seq<Event>
    ghost var executions: seq<Execution>
    ghost var fault: Option<Fault>

    constructor (run: RunContext)
      ensures View() == Steps.Fresh(run)
    {
      this.run := run;
      iterations, retriesUsed, observations, actionsExecuted := 0, 0, 0, 0;
      lastObservationId, lastEffect, effectMayHaveStarted := None, NoEffect, false;
      events, executions, fault := [], [], None;
    }

    ghost function View(): Progress
      reads this
    {
      Progress(run, iterations, retriesUsed, observations, actionsExecuted, lastObservationId, lastEffect,
               effectMayHaveStarted,
               events, executions, fault)
    }
  }

  /** Stands for the call of an iteration that makes none. */
  const NO_CALL := CallAnswer(Raised(Raise.Other), false)

  class BrowserLoop {
    const config: LoopConfig
    const hashes: LoopHashes
    const domain: Option<PackBinding>
    /** The durable executor the loop runs on, or null for a plain runtime. */
    const executor: Persisted.Executor?

    constructor (config: LoopConfig, hashes: LoopHashes, domain: Option<PackBinding>, executor: Persisted.Executor?)
      ensures this.config == config && this.hashes == hashes && this.domain == domain && this.executor == executor
    {
      this.config, this.hashes, this.domain, this.executor := config, hashes, domain, executor;
    }

    ghost function Footprint(): set<object> {
      if executor == null then {} else {executor, executor.deployment}
    }

    function Context(): Setup {
      Setup(config, hashes, domain, executor != null && executor.hookMayReopen)
    }

    /** The executor's browser calls are those it had before the run plus the run's own. */
    ghost predicate RuntimeOk(prior: seq<nat>, executions: seq<Execution>)
      reads Footprint()
    {
      if executor == null then ReachedCount(executions) == 0
      else executor.Valid() && prior <= executor.calls && |executor.calls| == |prior| + ReachedCount(executions)
    }

    // ----- Events and the end --------------------------------------------------

    method Emit(s: RunState, a: Answers, code: string, observationId: Option<string>, fingerprint: Option<string>,
                detail: Detail)
      returns (ok: bool)
      modifies s
      ensures ok <==> StageOf(detail) !in a.refuses
      ensures var event := Event(|old(s.events)| + 1, s.run, code, observationId, fingerprint, detail);
              s.View() == if ok then old(s.View()).(events := old(s.events) + [event])
                          else old(s.View()).(fault := Some(SinkRefused(event)))
    {
      var event := Event(|s.events| + 1, s.run, code, observationId, fingerprint, detail);
      ok := a.Accepts(detail);
      if ok {
        s.events := s.events + [event];
      } else {
        s.fault := Some(SinkRefused(event));
      }
    }

    /** Ends the run: the report says what the accepted terminal event says, or falls back on the effect flag. */
    method Terminal(s: RunState, a: Answers, status: LoopStatus, reason: string, approvalRef: Option<string>,
                    checkpoint: Option<Checkpoint>)
      returns (turn: Turn)
      modifies s
      ensures s.executions == old(s.executions)
      ensures Steps.Move(s.View(), turn) == Steps.Ending(old(s.View()), a, status, reason, approvalRef, checkpoint)
      ensures turn.Stop? && turn.report.approvalRef == approvalRef && turn.report.checkpoint == checkpoint
              && turn.report.events == s.events
      ensures if TerminalStage !in a.refuses then turn.report.status == status && turn.report.reasonCode == reason
              else
                && turn.report.status == (if s.effectMayHaveStarted then UNKNOWN else FAILED)
                && turn.report.reasonCode == "EVENT_SINK_FAILED"
    {
      var status', reason' := status, reason;
      var ok := Emit(s, a, reason, s.lastObservationId, None, Detail.Ended(status));
      if !ok {
        status' := if s.effectMayHaveStarted then UNKNOWN else FAILED;
        reason' := "EVENT_SINK_FAILED";
      }
      turn := Stop(Report(s.run, status', reason', s.iterations, s.retriesUsed, s.observations, s.actionsExecuted,
                          s.lastObservationId, approvalRef, checkpoint, s.events));
    }

    // ----- Observing -----------------------------------------------------------

    /** A page that comes is counted and is the last one, also when the sink then refuses its event. */
    method Observe(s: RunState, a: Answers) returns (r: Option<Observation>)
      modifies s
      ensures s.executions == old(s.executions)
      ensures (s.View(), r) == Steps.Observe(Context(), old(s.View()), a)
      ensures r.Some? <==> a.page.Some? && ObservationStage !in a.refuses
      ensures s.observations == old(s.observations) + if a.page.Some? then 1 else 0
    {
      if !a.page.Some? {
        s.fault := Some(PortRaised(Observing));
        return None;
      }
      var raw := a.page.value;
      s.observations := s.observations + 1;
      var observation := Observation(hashes.observation(raw.url, raw.pageHtml), hashes.snapshot(raw.url, raw.pageHtml),
                                     s.observations, raw.capturedAt);
      s.lastObservationId := Some(observation.id);
      var ok := Emit(s, a, "OBSERVATION_CAPTURED", Some(observation.id), None, Observed(observation.sequence));
      r := if ok then Some(observation) else None;
    }

    method ConsumeRetry(s: RunState) returns (ok: bool)
      modifies s
      ensures ok <==> old(s.retriesUsed) < config.maxRetries
      ensures s.View() == old(s.View()).(retriesUsed := old(s.retriesUsed) + if ok then 1 else 0)
    {
      if s.retriesUsed >= config.maxRetries {
        return false;
      }
      s.retriesUsed := s.retriesUsed + 1;
      return true;
    }

    /** A retry buys one look at the page; without one nothing changes. */
    method RetryReobserve(s: RunState, a: Answers) returns (r: Option<Observation>)
      modifies s
      ensures s.executions == old(s.executions)
      ensures s.observations <= old(s.observations) + 1
      ensures if old(s.retriesUsed) < config.maxRetries
              then (s.View(), r) == Steps.Observe(Context(), old(s.View()).(retriesUsed := old(s.retriesUsed) + 1), a)
              else s.View() == old(s.View()) && r.None?
    {
      var ok := ConsumeRetry(s);
      if ok {
        r := Observe(s, a);
      } else {
        r := None;
      }
    }

    /** A fresh look at the price of one retry, or the end of the run. */
    method TryAgain(s: RunState, a: Answers) returns (turn: Turn)
      modifies s
      ensures s.executions == old(s.executions)
      ensures Steps.Move(s.View(), turn) == Steps.TryAgain(Context(), old(s.View()), a)
    {
      var refreshed := RetryReobserve(s, a);
      if refreshed.Some? {
        turn := Go(refreshed.value);
      } else {
        turn := Terminal(s, a, FAILED, "RETRY_BUDGET_EXHAUSTED", None, None);
      }
    }

    /** A fresh look without spending a retry. */
    method LookOn(s: RunState, a: Answers) returns (turn: Turn)
      modifies s
      ensures s.iterations == old(s.iterations)
      ensures s.executions == old(s.executions)
      ensures Steps.Move(s.View(), turn) == Steps.LookOn(Context(), old(s.View()), a)
    {
      var next := Observe(s, a);
      if next.Some? {
        turn := Go(next.value);
      } else {
        turn := Terminal(s, a, FAILED, "OBSERVATION_FAILED", None, None);
      }
    }

    // ----- Verifying -----------------------------------------------------------

    /** A verifier that raises counts as unclear; `None` when the sink refuses the verdict. */
    method Verify(s: RunState, a: Answers, after: string, fingerprint: Option<string>) returns (r: Option<Verification>)
      modifies s
      ensures s.executions == old(s.executions)
      ensures s.View() == Steps.Verify(old(s.View()), a, after, fingerprint)
      ensures r.None? <==> VerificationStage in a.refuses
      ensures r.Some? ==>
                r.value == if a.verification.Some? then a.verification.value
                           else Verification(Unclear, "VERIFICATION_FAILED", 0)
    {
      var result: Verification;
      if a.verification.Some? {
        result := a.verification.value;
      } else {
        s.fault := Some(PortRaised(Verifying));
        result := Verification(Unclear, "VERIFICATION_FAILED", 0);
      }
      var ok := Emit(s, a, result.reasonCode, Some(after), fingerprint,
                     Verified(result.disposition, result.evidenceCount));
      r := if ok then Some(result) else None;
    }

    /** A conclusive verdict ends the run with its own status and reason. */
    method VerificationTerminal(s: RunState, a: Answers, result: Verification) returns (r: Option<Turn>)
      modifies s
      ensures s.executions == old(s.executions)
      ensures r.None? <==> result.disposition.Continue? || result.disposition.Retry?
      ensures r.None? ==> s.View() == old(s.View())
      ensures Steps.VerificationTerminal(old(s.View()), a, result) ==
              if r.None? then None else Some(Steps.Move(s.View(), r.value))
      ensures r.Some? && TerminalStage !in a.refuses ==>
                && r.value.Stop? && r.value.report.reasonCode == result.reasonCode
                && (r.value.report.status == SUCCEEDED <==> result.disposition.Succeeded?)
                && (r.value.report.status == FAILED <==> result.disposition.Disproved?)
                && (r.value.report.status == UNKNOWN <==> result.disposition.Unclear?)
    {
      var status: LoopStatus;
      match result.disposition {
        case Succeeded => status := SUCCEEDED;
        case Disproved => status := FAILED;
        case Unclear => status := UNKNOWN;
        case Continue => return None;
        case Retry => return None;
      }
      var turn := Terminal(s, a, status, result.reasonCode, None, None);
      return Some(turn);
    }

    /** The model says it is done: the verifier has the last word. */
    method OnSuccess(s: RunState, a: Answers, observation: Observation) returns (turn: Turn)
      modifies s
      ensures s.executions == old(s.executions)
      ensures Steps.Move(s.View(), turn) == Steps.OnSuccess(Context(), old(s.View()), a, observation)
    {
      var verification := Verify(s, a, observation.id, None);
      if verification.None? {
        return Escaped;
      }
      var terminal := VerificationTerminal(s, a, verification.value);
      if terminal.Some? {
        turn := terminal.value;
      } else if verification.value.disposition.Retry? {
        turn := TryAgain(s, a);
      } else {
        turn := LookOn(s, a);
      }
    }

    // ----- Acting --------------------------------------------------------------

    /**
      The result waits for its probe: the verification boundary is recorded and the run suspends on the exact
      checkpoint.
    */
    method Suspend(s: RunState, a: Answers, command: Command, result: ActionResult) returns (turn: Turn)
      modifies s
      ensures s.executions == old(s.executions)
      ensures Steps.Move(s.View(), turn) == Steps.Suspend(old(s.View()), a, command, result)
      ensures turn == Escaped <==> VerificationStage in a.refuses
      ensures turn != Escaped ==>
                turn.Stop? && turn.report.status == UNKNOWN && turn.report.checkpoint == result.checkpoint
    {
      s.effectMayHaveStarted := true;
      var verification := Verify(s, a, command.observationId, Some(command.fingerprint));
      if verification.None? {
        turn := Escaped;
      } else {
        turn := Terminal(s, a, UNKNOWN, "PENDING_RESULT_PROBE", None, result.checkpoint);
      }
    }

    /** The verifier asks for another try: never for a write, and only within the retry budget. */
    method Reconsider(s: RunState, a: Answers, after: Observation, command: Command) returns (turn: Turn)
      modifies s
      ensures s.executions == old(s.executions)
      ensures Steps.Move(s.View(), turn) == Steps.Reconsider(Context(), old(s.View()), a, after, command)
      ensures turn.Go? <==> !IsWrite(command.authorization.effect) && old(s.retriesUsed) < config.maxRetries
      ensures turn.Go? ==> turn.observation == after && s.retriesUsed == old(s.retriesUsed) + 1
      ensures IsWrite(command.authorization.effect) && TerminalStage !in a.refuses ==> turn.report.status == UNKNOWN
    {
      if IsWrite(command.authorization.effect) {
        turn := Terminal(s, a, UNKNOWN, "WRITE_RETRY_REQUIRES_RECOVERY", None, None);
        return;
      }
      var ok := ConsumeRetry(s);
      if ok {
        turn := Go(after);
      } else {
        turn := Terminal(s, a, FAILED, "RETRY_BUDGET_EXHAUSTED", None, None);
      }
    }

    /** The verifier's verdict on a returned action. */
    method Judge(s: RunState, a: Answers, after: Observation, command: Command) returns (turn: Turn)
      modifies s
      ensures s.executions == old(s.executions)
      ensures Steps.Move(s.View(), turn) == Steps.Judge(Context(), old(s.View()), a, after, command)
    {
      var verification := Verify(s, a, after.id, Some(command.fingerprint));
      if verification.None? {
        return Escaped;
      }
      var terminal := VerificationTerminal(s, a, verification.value);
      if terminal.Some? {
        turn := terminal.value;
      } else if verification.value.disposition.Retry? {
        turn := Reconsider(s, a, after, command);
      } else {
        turn := Go(after);
      }
    }

    /** The page after a returned action; without it a write stays open. */
    method LookAfter(s: RunState, a: Answers, command: Command) returns (turn: Turn)
      modifies s
      ensures s.executions == old(s.executions)
      ensures Steps.Move(s.View(), turn) == Steps.LookAfter(Context(), old(s.View()), a, command)
    {
      var after := Observe(s, a);
      if after.Some? {
        turn := Judge(s, a, after.value, command);
      } else {
        var status := if IsWrite(command.authorization.effect) then UNKNOWN else FAILED;
        turn := Terminal(s, a, status, "POST_ACTION_OBSERVATION_FAILED", None, None);
      }
    }

    /** The call returned: record it, and go on only when nothing is left to a probe. */
    method AfterReturn(s: RunState, a: Answers, command: Command, result: ActionResult) returns (turn: Turn)
      modifies s
      ensures s.executions == old(s.executions)
      ensures Steps.Move(s.View(), turn) == Steps.AfterReturn(Context(), old(s.View()), a, command, result)
    {
      var ok := Emit(s, a, result.detailCode, Some(command.observationId), Some(command.fingerprint),
                     Completed(result.completed));
      if !ok {
        turn := Escaped;
      } else if result.checkpoint.Some? {
        turn := Suspend(s, a, command, result);
      } else {
        turn := LookAfter(s, a, command);
      }
    }

    /** What the loop does with the runtime's answer. */
    method Answer(s: RunState, a: Answers, command: Command, outcome: ExecuteOutcome) returns (turn: Turn)
      modifies s
      ensures s.executions == old(s.executions)
      ensures Steps.Move(s.View(), turn) == Steps.Answer(Context(), old(s.View()), a, command, outcome)
    {
      var write := IsWrite(command.authorization.effect);
      match outcome {
        case Returned(result) => turn := AfterReturn(s, a, command, result);
        case Raised(error) =>
          if error.Stale? || (error.Runtime? && !(error.effectMayHaveStarted && write)) {
            turn := TryAgain(s, a);
          } else if write {
            turn := Terminal(s, a, UNKNOWN, "ACTION_EFFECT_UNKNOWN", None, None);
          } else {
            turn := Terminal(s, a, FAILED, "ACTION_EXECUTION_FAILED", None, None);
          }
      }
    }

    /** The runtime call itself, on the durable executor when there is one. */
    method Call(command: Command, ghost prior: seq<nat>, ghost v: Progress, ghost age: real)
      returns (outcome: ExecuteOutcome, ghost call: CallAnswer)
      requires RuntimeOk(prior, v.executions)
      modifies Footprint()
      ensures call.outcome == outcome && Steps.MayAnswer(Context(), call)
      ensures RuntimeOk(prior, v.executions + [Steps.CallMade(v, call, command, age)])
    {
      if executor != null {
        ghost var before := executor.calls;
        ghost var p: nat;
        ghost var browser: Option<ActionResult>;
        outcome, p, browser := executor.Execute(command);
        call := CallAnswer(outcome, executor.calls != before);
      } else {
        outcome := *;
        call := CallAnswer(outcome, false);
      }
      ghost var x := Steps.CallMade(v, call, command, age);
      assert (v.executions + [x])[..|v.executions|] == v.executions;
    }

    /** One runtime call and the counters and flags it moves. */
    method CallAndRecord(s: RunState, command: Command, ghost prior: seq<nat>, ghost v: Progress, ghost age: real)
      returns (outcome: ExecuteOutcome, ghost call: CallAnswer)
      requires RuntimeOk(prior, s.executions) && v.executions == s.executions
      modifies s, Footprint()
      ensures call.outcome == outcome && Steps.MayAnswer(Context(), call)
      ensures s.View() == Steps.Called(old(s.View()), Steps.CallMade(v, call, command, age))
      ensures RuntimeOk(prior, s.executions)
    {
      hide ReachedCount;
      s.lastEffect := command.authorization.effect;
      outcome, call := Call(command, prior, v, age);
      s.executions := s.executions + [Steps.CallMade(v, call, command, age)];
      if outcome.Returned? {
        s.actionsExecuted := s.actionsExecuted + 1;
        if outcome.result.effectMayHaveStarted && IsWrite(command.authorization.effect) {
          s.effectMayHaveStarted := true;
        }
      }
    }

    /** Announces the action, calls the runtime once and deals with its answer. */
    method Perform(s: RunState, a: Answers, ghost prior: seq<nat>, command: Command, source: DecisionSource,
                   ghost age: real)
      returns (turn: Turn, ghost call: CallAnswer)
      requires RuntimeOk(prior, s.executions)
      modifies s, Footprint()
      ensures Steps.MayAnswer(Context(), call) && RuntimeOk(prior, s.executions)
      ensures Steps.Move(s.View(), turn) == Steps.Perform(Context(), old(s.View()), a, call, command, source, age)
    {
      ghost var v := s.View();
      var ok := Emit(s, a, "ACTION_STARTED", Some(command.observationId), Some(command.fingerprint),
                     Started(command.action.kind, command.authorization.effect, source));
      if !ok {
        return Escaped, NO_CALL;
      }
      var outcome: ExecuteOutcome;
      outcome, call := CallAndRecord(s, command, prior, v, age);
      turn := Answer(s, a, command, outcome);
    }

    // ----- One iteration -------------------------------------------------------

    /** The policy allowed the action: bind the command, refuse it, or look again when the observation has aged. */
    method OnAllowed(s: RunState, a: Answers, ghost prior: seq<nat>, observation: Observation, action: Action,
                     fingerprint: string,
                     authorization: Authorization, profile: Profile, source: DecisionSource)
      returns (turn: Turn, ghost call: CallAnswer)
      requires RuntimeOk(prior, s.executions)
      modifies s, Footprint()
      ensures Steps.MayAnswer(Context(), call) && RuntimeOk(prior, s.executions)
      ensures Steps.Move(s.View(), turn)
                == Steps.OnAllowed(Context(), old(s.View()), a, call, observation, action, fingerprint, authorization,
                                   profile, source)
    {
      hide Steps.Perform, Steps.TryAgain, Steps.Ending;
      call := NO_CALL;
      var command := Steps.AuthorizedCommand(observation, action, fingerprint, authorization, profile);
      if command.None? {
        turn := Terminal(s, a, FAILED, "INVALID_EXECUTION_AUTHORIZATION", None, None);
      } else if Steps.IsStale(Context(), observation, a.now) {
        turn := TryAgain(s, a);
      } else {
        turn, call := Perform(s, a, prior, command.value, source, a.now - observation.capturedAt);
      }
    }

    method OnVerdict(s: RunState, a: Answers, ghost prior: seq<nat>, observation: Observation, action: Action,
                     fingerprint: string,
                     policy: Policy, source: DecisionSource)
      returns (turn: Turn, ghost call: CallAnswer)
      requires RuntimeOk(prior, s.executions)
      modifies s, Footprint()
      ensures Steps.MayAnswer(Context(), call) && RuntimeOk(prior, s.executions)
      ensures Steps.Move(s.View(), turn) ==
              Steps.OnVerdict(Context(), old(s.View()), a, call, observation, action, fingerprint, policy, source)
    {
      call := NO_CALL;
      match policy {
        case Deny(reason) => turn := Terminal(s, a, FAILED, reason, None, None);
        case AskApproval(reason, approvalRef) =>
          turn := Terminal(s, a, AWAITING_APPROVAL, reason, Some(approvalRef), None);
        case LookAgain(_) => turn := TryAgain(s, a);
        case Allow(_, authorization, profile) =>
          turn, call := OnAllowed(s, a, prior, observation, action, fingerprint, authorization, profile, source);
      }
    }

    method OnAction(s: RunState, a: Answers, ghost prior: seq<nat>, observation: Observation, action: Action,
                    source: DecisionSource)
      returns (turn: Turn, ghost call: CallAnswer)
      requires RuntimeOk(prior, s.executions)
      modifies s, Footprint()
      ensures Steps.MayAnswer(Context(), call) && RuntimeOk(prior, s.executions)
      ensures Steps.Move(s.View(), turn) ==
              Steps.OnAction(Context(), old(s.View()), a, call, observation, action, source)
    {
      call := NO_CALL;
      var fingerprint := hashes.fingerprint(s.run.taskId, s.run.stepId, action, observation.id);
      if a.policy.None? {
        s.fault := Some(PortRaised(Authorizing));
        turn := Terminal(s, a, FAILED, "POLICY_EVALUATION_FAILED", None, None);
        return;
      }
      var policy := a.policy.value;
      var ok := Emit(s, a, policy.reasonCode, Some(observation.id), Some(fingerprint),
                     PolicyDecided(policy.Disposition()));
      if ok {
        turn, call := OnVerdict(s, a, prior, observation, action, fingerprint, policy, source);
      } else {
        turn := Escaped;
      }
    }

    method OnDecision(s: RunState, a: Answers, ghost prior: seq<nat>, observation: Observation, decision: Decision,
                      source: DecisionSource)
      returns (turn: Turn, ghost call: CallAnswer)
      requires RuntimeOk(prior, s.executions)
      modifies s, Footprint()
      ensures Steps.MayAnswer(Context(), call) && RuntimeOk(prior, s.executions)
      ensures Steps.Move(s.View(), turn) ==
              Steps.OnDecision(Context(), old(s.View()), a, call, observation, decision, source)
    {
      call := NO_CALL;
      var ok := Emit(s, a, decision.reasonCode, Some(observation.id), None, Decided(decision.Kind(), source));
      if !ok {
        turn := Escaped;
      } else if decision.GiveUp? {
        turn := Terminal(s, a, FAILED, decision.reasonCode, None, None);
      } else if decision.Succeed? {
        turn := OnSuccess(s, a, observation);
      } else {
        turn, call := OnAction(s, a, prior, observation, decision.action, source);
      }
    }

    method Iterate(s: RunState, a: Answers, ghost prior: seq<nat>, observation: Observation)
      returns (turn: Turn, ghost call: CallAnswer)
      requires RuntimeOk(prior, s.executions)
      modifies s, Footprint()
      ensures Steps.MayAnswer(Context(), call) && RuntimeOk(prior, s.executions)
      ensures Steps.Move(s.View(), turn) == Steps.Iteration(Context(), old(s.View()), a, call, observation)
    {
      call := NO_CALL;
      var decided := Steps.Decide(Context(), s.run, a, observation);
      if decided.None? {
        s.fault := Some(PortRaised(Deciding));
        turn := Terminal(s, a, FAILED, "DECISION_PROVIDER_FAILED", None, None);
        return;
      }
      var decision, source := decided.value.0, decided.value.1;
      if decision.observationId != observation.id {
        turn := Terminal(s, a, FAILED, "DECISION_OBSERVATION_MISMATCH", None, None);
      } else {
        turn, call := OnDecision(s, a, prior, observation, decision, source);
      }
    }

    // ----- Whole runs ----------------------------------------------------------

    /** The bounded loop; it stops early at a report or an escaping exception. */
    method Iterations(s: RunState, ghost prior: seq<nat>, begun: Turn) returns (turn: Turn, ghost turns: seq<Round>)
      requires s.iterations == 0 && RuntimeOk(prior, s.executions)
      modifies s, Footprint()
      ensures RuntimeOk(prior, s.executions)
      ensures |turns| <= config.maxIterations
              && forall i :: 0 <= i < |turns| ==> Steps.MayAnswer(Context(), turns[i].call)
      ensures Steps.Move(s.View(), turn) == Steps.Iterations(Context(), Steps.Move(old(s.View()), begun), turns)
      ensures turn.Go? ==> |turns| == config.maxIterations
    {
      ghost var first := Steps.Move(s.View(), begun);
      turn, turns := begun, [];
      var iteration := 1;
      while iteration <= config.maxIterations && turn.Go?
        invariant 1 <= iteration <= config.maxIterations + 1 && |turns| <= config.maxIterations
        invariant turn.Go? ==> |turns| == iteration - 1
        invariant forall i :: 0 <= i < |turns| ==> Steps.MayAnswer(Context(), turns[i].call)
        invariant RuntimeOk(prior, s.executions)
        invariant Steps.Move(s.View(), turn) == Steps.Iterations(Context(), first, turns)
      {
        var a: Answers := *;
        ghost var call: CallAnswer;
        s.iterations := iteration;
        turn, call := Iterate(s, a, prior, turn.observation);
        assert (turns + [Round(a, call)])[..|turns|] == turns;
        turns := turns + [Round(a, call)];
        iteration := iteration + 1;
      }
    }

    /** The report of a run, also of one whose iterations are spent, or that an exception has escaped from. */
    method Conclude(s: RunState, last: Answers, turn: Turn) returns (report: Report)
      modifies s
      ensures s.executions == old(s.executions)
      ensures Steps.Move(s.View(), Stop(report)) == Steps.Concluded(Steps.Move(old(s.View()), turn), last)
      ensures turn.Escaped? && TerminalStage !in last.refuses ==>
                report.reasonCode == "EVENT_OR_LOOP_FAILURE"
                    && report.status == (if s.effectMayHaveStarted then UNKNOWN else FAILED)
    {
      var end: Turn;
      match turn {
        case Stop(given) => end := turn;
        case Go(_) => end := Terminal(s, last, FAILED, "ITERATION_BUDGET_EXHAUSTED", None, None);
        case Escaped =>
          end := Terminal(s, last, if s.effectMayHaveStarted then UNKNOWN else FAILED,
                          "EVENT_OR_LOOP_FAILURE", None, None);
      }
      report := end.report;
    }

    /**
      A whole run is the run of the answers its ports happened to give, whatever they do.  It ends within its budgets
      with a report that is true of it.  On the durable executor it reaches the browser with an external write at most
      once, in its last runtime call, and is then reported UNKNOWN, on the checkpoint of that call; FAILED only when
      that call raised, no write before it may have had an effect, and the sink refused the terminal event.
      What it records, calls and reports is what its ports said: a report that awaits an approval names the reference
      and the reason of the policy's last answer.
    */
    method Run(run: RunContext) returns (report: Report, ghost v: Progress, ghost script: Steps.Script)
      requires executor != null ==> executor.Valid()
      modifies Footprint()
      ensures Steps.Plausible(Context(), run, script)
              && Steps.RunOf(Context(), run, script) == Steps.Move(v, Stop(report))
      ensures v.run == run && Finished(Context(), v, report)
      ensures By.WentBy(Context(), run, script, v, report)
      ensures report.status.AWAITING_APPROVAL? ==>
                && 0 < report.iterations <= |script.turns| && report.approvalRef.Some?
                && script.turns[report.iterations - 1].ports.policy
                   == Some(AskApproval(report.reasonCode, report.approvalRef.value))
      ensures executor != null ==>
                executor.Valid() && old(executor.calls) <= executor.calls
                && |executor.calls| == |old(executor.calls)| + ReachedCount(v.executions)
      ensures executor != null && !executor.hookMayReopen && executor.calls != old(executor.calls) ==>
                && v.executions != [] && ReachedCount(v.executions) == 1 && LastCall(v).reached
                && report.status == (if LastCall(v).outcome.Raised? && Reports.LosesItsEnd(v) then FAILED else UNKNOWN)
                && (LastCall(v).outcome.Returned? && Reports.KeepsItsEvents(v) ==>
                    report.checkpoint == LastCall(v).outcome.result.checkpoint)
    {
      hide Finished, Steps.LookOn, Steps.Iterations, Steps.Concluded, By.ToldInRun, By.CallsInOrder, By.FlagSays;
      var s := new RunState(run);
      ghost var prior: seq<nat> := if executor == null then [] else executor.calls;
      var first: Answers := *;
      var turn := LookOn(s, first);
      ghost var turns: seq<Round>;
      turn, turns := Iterations(s, prior, turn);
      var last: Answers := *;
      report := Conclude(s, last, turn);
      v := s.View();
      script := Steps.Script(first, turns, last);
      Safety.RunsAreSafe(Context(), run, script);
      By.RunsGoByTheirAnswers(Context(), run, script);
      Reports.ReachedOnce(Context(), v, report);
    }
  }
}
