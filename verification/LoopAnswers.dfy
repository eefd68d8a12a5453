/** What a run makes of the answers of its ports, told apart from how it is computed. */
module LoopAnswers {
  import opened Outcomes
  import opened AttemptStore
  import opened LoopContracts
  import opened LoopTrace
  import opened LoopProgress
  import opened LoopSafety
  import opened LoopSteps

  // ----- What the ports say in one round -------------------------------------

  /** The domain pack is the one the run is bound to, in its version and for its capability. */
  predicate PackFits(c: Setup, run: RunContext) {
    match (c.domain, run.packId, run.packVersion, run.capabilityId)
    case (Some(pack), Some(id), Some(version), Some(capability)) =>
      pack.packId == id && pack.packVersion == version && capability in pack.capabilityIds
    case _ => false
  }

  /** Whose decision it is: a fitting pack's when it has one, else the model's on input prepared for the observation. */
  function Chosen(c: Setup, run: RunContext, a: Answers, id: string): Option<(Decision, DecisionSource)> {
    match (PackFits(c, run), a.pack)
    case (true, None) => None
    case (true, Some(Some(decision))) => Some((decision, DomainPack))
    case _ => if a.inputFor == Some(id) && a.model.Some? then Some((a.model.value, Model)) else None
  }

  /** The action that was decided on this observation. */
  function ChosenAction(c: Setup, run: RunContext, a: Answers, id: string): Option<(Action, DecisionSource)> {
    match Chosen(c, run, a, id)
    case Some((Act(on, action, _), source)) => if on == id then Some((action, source)) else None
    case _ => None
  }

  /** The claim of success that was made on this observation. */
  predicate ClaimsSuccess(c: Setup, run: RunContext, a: Answers, id: string) {
    match Chosen(c, run, a, id)
    case Some((Succeed(on, _), _)) => on == id
    case _ => false
  }

  function Signature(c: Setup, run: RunContext, action: Action, id: string): string {
    c.hashes.fingerprint(run.taskId, run.stepId, action, id)
  }

  /** The observation is bound to this page. */
  predicate SeenOn(c: Setup, o: Observation, page: RawObservation) {
    && o.id == c.hashes.observation(page.url, page.pageHtml)
    && o.snapshotHash == c.hashes.snapshot(page.url, page.pageHtml)
    && o.capturedAt == page.capturedAt
  }

  predicate IsFresh(c: Setup, o: Observation, now: real) {
    o.capturedAt - 5.0 <= now <= o.capturedAt + c.config.maxObservationAge
  }

  /** Evidence is named, and an external write does not go by a weak fallback. */
  predicate Eligible(effect: Effect, profile: Profile) {
    && profile.evidenceRefs != []
    && (effect.ExternalWrite? ==> profile.mechanism in {Locator, LabelText})
  }

  /** The authorization is complete, and for this action on this observation. */
  predicate Binds(authorization: Authorization, profile: Profile, fingerprint: string, id: string) {
    && authorization.permitId != "" && authorization.idempotencyKey != ""
    && authorization.fingerprint == fingerprint && authorization.observationHash == id
    && Eligible(authorization.effect, profile)
  }

  /** The policy allows the chosen action, under an authorization that binds, and the sink takes it down. */
  predicate Allowed(c: Setup, run: RunContext, a: Answers, o: Observation) {
    && ChosenAction(c, run, a, o.id).Some? && {DecisionStage, PolicyStage} !! a.refuses
    && match a.policy
       case Some(Allow(_, authorization, profile)) =>
         Binds(authorization, profile, Signature(c, run, ChosenAction(c, run, a, o.id).value.0, o.id), o.id)
       case _ => false
  }

  /** And the observation is still fresh, and the sink takes the announcement too. */
  predicate Launches(c: Setup, run: RunContext, a: Answers, o: Observation) {
    Allowed(c, run, a, o) && IsFresh(c, o, a.now) && StartStage !in a.refuses
  }

  /** The ports' page is taken down. */
  predicate PageTaken(a: Answers) {
    a.page.Some? && ObservationStage !in a.refuses
  }

  function PageId(c: Setup, page: RawObservation): string {
    c.hashes.observation(page.url, page.pageHtml)
  }

  /** The verifier's answer; one that raises says that it cannot tell. */
  function Answered(a: Answers): Verification {
    if a.verification.Some? then a.verification.value else Verification(Unclear, "VERIFICATION_FAILED", 0)
  }

  // ----- Events --------------------------------------------------------------

  predicate ToldPage(c: Setup, a: Answers, e: Event) {
    && e.detail.Observed? && e.code == "OBSERVATION_CAPTURED" && e.fingerprint.None?
    && a.page.Some? && e.observationId == Some(PageId(c, a.page.value))
  }

  function KindOf(decision: Decision): DecisionKind {
    match decision
    case Act(_, _, _) => ActionKind
    case Succeed(_, _) => SuccessKind
    case GiveUp(_, _) => FailureKind
  }

  function DispositionOf(policy: Policy): PolicyDisposition {
    match policy
    case Allow(_, _, _) => AllowAction
    case Deny(_) => DenyAction
    case AskApproval(_, _) => RequireApproval
    case LookAgain(_) => Reobserve
  }

  /** The event is about the action chosen on observation `id`. */
  predicate OfAction(c: Setup, run: RunContext, a: Answers, id: string, e: Event) {
    && ChosenAction(c, run, a, id).Some?
    && e.observationId == Some(id) && e.fingerprint == Some(Signature(c, run, ChosenAction(c, run, a, id).value.0, id))
  }

  /** The event says what the round's ports said, about the observation `id` that was in hand when it began. */
  predicate Told(c: Setup, run: RunContext, round: Round, id: string, e: Event) {
    var a := round.ports;
    && e.run == run
    && match e.detail
       case Observed(_) => ToldPage(c, a, e)
       case Decided(kind, source) =>
         && e.observationId == Some(id) && e.fingerprint.None?
         && (match Chosen(c, run, a, id)
             case Some((d, s)) => d.observationId == id && e.code == d.reasonCode && kind == KindOf(d) && source == s
             case None => false)
       case PolicyDecided(disposition) =>
         && OfAction(c, run, a, id, e)
         && a.policy.Some? && e.code == a.policy.value.reasonCode && disposition == DispositionOf(a.policy.value)
       case Started(kind, effect, source) =>
         && OfAction(c, run, a, id, e) && e.code == "ACTION_STARTED"
         && a.policy.Some? && a.policy.value.Allow? && effect == a.policy.value.authorization.effect
         && kind == ChosenAction(c, run, a, id).value.0.kind && source == ChosenAction(c, run, a, id).value.1
       case Completed(completed) =>
         && OfAction(c, run, a, id, e) && round.call.outcome.Returned?
         && e.code == round.call.outcome.result.detailCode && completed == round.call.outcome.result.completed
       case Verified(disposition, evidence) =>
         && Verification(disposition, e.code, evidence) == Answered(a)
         && e.fingerprint == (if ChosenAction(c, run, a, id).Some?
                              then Some(Signature(c, run, ChosenAction(c, run, a, id).value.0, id)) else None)
         && (e.observationId == Some(id) || (a.page.Some? && e.observationId == Some(PageId(c, a.page.value))))
       case Ended(_) => true
  }

  /** The fault is one of this round: a port raised, or the sink refused what another one had said. */
  predicate Fails(c: Setup, run: RunContext, round: Round, id: string, fault: Fault) {
    match fault
    case PortRaised(Observing) => round.ports.page.None?
    case PortRaised(Deciding) => Chosen(c, run, round.ports, id).None?
    case PortRaised(Authorizing) => ChosenAction(c, run, round.ports, id).Some? && round.ports.policy.None?
    case PortRaised(Verifying) => round.ports.verification.None?
    case SinkRefused(e) => StageOf(e.detail) in round.ports.refuses && Told(c, run, round, id, e)
  }

  /** The run has only grown, and all it has recorded since, also as its fault, is what this round's ports said. */
  ghost predicate Grew(c: Setup, round: Round, id: string, v: Progress, v': Progress) {
    && v'.run == v.run && v.events <= v'.events
    && (v'.fault == v.fault || (v'.fault.Some? && Fails(c, v.run, round, id, v'.fault.value)))
    && forall k :: |v.events| <= k < |v'.events| ==> Told(c, v.run, round, id, v'.events[k])
  }

  /** At most this round's page was looked at since, and then it is the last one. */
  predicate Looked(c: Setup, a: Answers, v: Progress, v': Progress) {
    || (v'.observations == v.observations && v'.lastObservationId == v.lastObservationId)
    || (v'.observations == v.observations + 1 && a.page.Some?
        && v'.lastObservationId == Some(PageId(c, a.page.value)))
  }

  /** Where a round leaves off: its own page in hand, or a report that refers to an approval only as the policy did. */
  predicate LeavesOff(c: Setup, a: Answers, turn: Turn) {
    match turn
    case Go(o) => PageTaken(a) && SeenOn(c, o, a.page.value)
    case Stop(r) =>
      && (r.approvalRef.Some? ==> a.policy.Some? && a.policy.value.AskApproval?
                                  && r.approvalRef.value == a.policy.value.approvalRef)
      && (r.status.AWAITING_APPROVAL? ==> r.approvalRef.Some? && r.reasonCode == a.policy.value.reasonCode)
    case Escaped => true
  }

  /** A step that goes by the answers of its round. */
  ghost predicate GoesBy(c: Setup, round: Round, id: string, v: Progress, m: Move) {
    && Grew(c, round, id, v, m.v) && Looked(c, round.ports, v, m.v) && LeavesOff(c, round.ports, m.turn)
    && m.v.iterations == v.iterations
  }

  /** A step that makes no call. */
  ghost predicate Tells(c: Setup, round: Round, id: string, v: Progress, m: Move) {
    GoesBy(c, round, id, v, m) && m.v.executions == v.executions
  }

  /** The runtime's command is for the action chosen in this round. */
  predicate Acting(c: Setup, run: RunContext, round: Round, id: string, command: Command) {
    && ChosenAction(c, run, round.ports, id).Some? && command.observationId == id
    && command.fingerprint == Signature(c, run, ChosenAction(c, run, round.ports, id).value.0, id)
    && command.action == ChosenAction(c, run, round.ports, id).value.0
  }

  /** First nothing but a few events, then a step from there. */
  lemma TellsOn(c: Setup, round: Round, id: string, v: Progress, v1: Progress, m: Move)
    requires Grew(c, round, id, v, v1) && GoesBy(c, round, id, v1, m)
    requires v1.observations == v.observations && v1.lastObservationId == v.lastObservationId
    requires v1.iterations == v.iterations
    ensures GoesBy(c, round, id, v, m)
  {
    forall k | |v.events| <= k < |m.v.events| ensures Told(c, v.run, round, id, m.v.events[k]) {
      if k < |v1.events| {
        assert m.v.events[k] == v1.events[k];
      }
    }
  }

  lemma EmittedGrew(c: Setup, round: Round, id: string, v: Progress, code: string, observationId: Option<string>,
                    fingerprint: Option<string>, detail: Detail)
    requires Told(c, v.run, round, id, NextEvent(v, code, observationId, fingerprint, detail))
    ensures var v' := Emitted(v, round.ports, code, observationId, fingerprint, detail);
            && Grew(c, round, id, v, v') && v' == v.(events := v'.events, fault := v'.fault)
  {
  }

  lemma EndingTells(c: Setup, round: Round, id: string, v: Progress, status: LoopStatus, reason: string,
                    approvalRef: Option<string>, checkpoint: Option<Checkpoint>)
    requires if approvalRef.None? then !status.AWAITING_APPROVAL?
             else round.ports.policy == Some(AskApproval(reason, approvalRef.value))
    ensures Tells(c, round, id, v, Ending(v, round.ports, status, reason, approvalRef, checkpoint))
  {
    EmittedGrew(c, round, id, v, reason, v.lastObservationId, None, Detail.Ended(status));
  }

  // ----- Observing -----------------------------------------------------------

  lemma ObserveTells(c: Setup, round: Round, id: string, v: Progress)
    ensures var (v', o) := Observe(c, v, round.ports);
            && Grew(c, round, id, v, v') && Looked(c, round.ports, v, v')
            && v'.executions == v.executions && v'.iterations == v.iterations && v'.retriesUsed == v.retriesUsed
            && (o.Some? <==> PageTaken(round.ports))
            && (o.Some? ==> SeenOn(c, o.value, round.ports.page.value))
  {
    if round.ports.page.Some? {
      var page := round.ports.page.value;
      var seen := v.(observations := v.observations + 1, lastObservationId := Some(PageId(c, page)));
      EmittedGrew(c, round, id, seen, "OBSERVATION_CAPTURED", Some(PageId(c, page)), None,
                  Observed(v.observations + 1));
    }
  }

  /** A step that has looked, and ends there. */
  lemma LookedThenEnded(c: Setup, round: Round, id: string, v: Progress, v1: Progress, status: LoopStatus,
                        reason: string)
    requires Grew(c, round, id, v, v1) && Looked(c, round.ports, v, v1)
    requires v1.executions == v.executions && v1.iterations == v.iterations && !status.AWAITING_APPROVAL?
    ensures Tells(c, round, id, v, Ending(v1, round.ports, status, reason, None, None))
  {
    EndingTells(c, round, id, v1, status, reason, None, None);
    var m := Ending(v1, round.ports, status, reason, None, None);
    forall k | |v.events| <= k < |m.v.events| ensures Told(c, v.run, round, id, m.v.events[k]) {
      if k < |v1.events| {
        assert m.v.events[k] == v1.events[k];
      }
    }
  }

  lemma TryAgainTells(c: Setup, round: Round, id: string, v: Progress)
    ensures var m := TryAgain(c, v, round.ports);
            && Tells(c, round, id, v, m)
            && m.v.retriesUsed == v.retriesUsed + (if v.retriesUsed < c.config.maxRetries then 1 else 0)
            && (m.turn.Go? <==> v.retriesUsed < c.config.maxRetries && PageTaken(round.ports)) && !m.turn.Escaped?
  {
    hide Ending, Observe, Told;
    if v.retriesUsed >= c.config.maxRetries {
      EndingTells(c, round, id, v, FAILED, "RETRY_BUDGET_EXHAUSTED", None, None);
      EndingKeeps(v, round.ports, FAILED, "RETRY_BUDGET_EXHAUSTED", None, None);
    } else {
      var paid := v.(retriesUsed := v.retriesUsed + 1);
      ObserveTells(c, round, id, paid);
      var (next, page) := Observe(c, paid, round.ports);
      assert Grew(c, round, id, v, next) && Looked(c, round.ports, v, next);
      if page.None? {
        LookedThenEnded(c, round, id, v, next, FAILED, "RETRY_BUDGET_EXHAUSTED");
        EndingKeeps(next, round.ports, FAILED, "RETRY_BUDGET_EXHAUSTED", None, None);
      }
    }
  }

  lemma EndingKeeps(v: Progress, a: Answers, status: LoopStatus, reason: string, approvalRef: Option<string>,
                    checkpoint: Option<Checkpoint>)
    ensures var m := Ending(v, a, status, reason, approvalRef, checkpoint);
            && m.turn.Stop? && m.v == v.(events := m.v.events, fault := m.v.fault)
  {
  }

  lemma LookOnTells(c: Setup, round: Round, id: string, v: Progress)
    ensures var m := LookOn(c, v, round.ports);
            && Tells(c, round, id, v, m) && m.v.retriesUsed == v.retriesUsed
            && (m.turn.Go? <==> PageTaken(round.ports)) && !m.turn.Escaped?
  {
    hide Ending, Observe, Told;
    ObserveTells(c, round, id, v);
    var (next, page) := Observe(c, v, round.ports);
    if page.None? {
      LookedThenEnded(c, round, id, v, next, FAILED, "OBSERVATION_FAILED");
      EndingKeeps(next, round.ports, FAILED, "OBSERVATION_FAILED", None, None);
    }
  }

  // ----- Verifying -----------------------------------------------------------

  lemma VerifyTells(c: Setup, round: Round, id: string, v: Progress, after: string, fingerprint: Option<string>)
    requires after == id || (round.ports.page.Some? && after == PageId(c, round.ports.page.value))
    requires fingerprint == if ChosenAction(c, v.run, round.ports, id).Some?
                            then Some(Signature(c, v.run, ChosenAction(c, v.run, round.ports, id).value.0, id))
                            else None
    ensures var v' := Verify(v, round.ports, after, fingerprint);
            && Grew(c, round, id, v, v') && v' == v.(events := v'.events, fault := v'.fault)
  {
    var j := Judgment(round.ports);
    var asked := if round.ports.verification.None? then v.(fault := Some(PortRaised(Verifying))) else v;
    assert Told(c, v.run, round, id, NextEvent(asked, j.reasonCode, Some(after), fingerprint,
                                               Verified(j.disposition, j.evidenceCount)));
    EmittedGrew(c, round, id, asked, j.reasonCode, Some(after), fingerprint, Verified(j.disposition, j.evidenceCount));
  }

  lemma VerdictTells(c: Setup, round: Round, id: string, v: Progress)
    ensures var r := VerificationTerminal(v, round.ports, Judgment(round.ports));
            && (r.None? <==> Answered(round.ports).disposition in {Continue, Retry})
            && (r.Some? ==> Tells(c, round, id, v, r.value) && r.value.turn.Stop?
                            && r.value.v.retriesUsed == v.retriesUsed)
  {
    hide Ending, Tells;
    var j := Judgment(round.ports);
    EndingTells(c, round, id, v, SUCCEEDED, j.reasonCode, None, None);
    EndingTells(c, round, id, v, FAILED, j.reasonCode, None, None);
    EndingTells(c, round, id, v, UNKNOWN, j.reasonCode, None, None);
    EndingKeeps(v, round.ports, SUCCEEDED, j.reasonCode, None, None);
    EndingKeeps(v, round.ports, FAILED, j.reasonCode, None, None);
    EndingKeeps(v, round.ports, UNKNOWN, j.reasonCode, None, None);
  }

  /** A claim of success goes on after a verdict that asks for it, and costs a retry where the verdict says so. */
  lemma SuccessTells(c: Setup, round: Round, v: Progress, o: Observation)
    requires ClaimsSuccess(c, v.run, round.ports, o.id)
    ensures var m := OnSuccess(c, v, round.ports, o); var said := Answered(round.ports).disposition;
            var heard := VerificationStage !in round.ports.refuses; var left := v.retriesUsed < c.config.maxRetries;
            && Tells(c, round, o.id, v, m)
            && m.v.retriesUsed == v.retriesUsed + (if heard && said.Retry? && left then 1 else 0)
            && (m.turn.Go? <==> heard && PageTaken(round.ports) && (said.Continue? || (said.Retry? && left)))
  {
    hide Ending, Told, TryAgain, LookOn, Verify, VerificationTerminal;
    VerifyTells(c, round, o.id, v, o.id, None);
    var judged := Verify(v, round.ports, o.id, None);
    if VerificationStage !in round.ports.refuses {
      VerdictTells(c, round, o.id, judged);
      if Answered(round.ports).disposition.Retry? {
        TryAgainTells(c, round, o.id, judged);
        TellsOn(c, round, o.id, v, judged, TryAgain(c, judged, round.ports));
      } else if Answered(round.ports).disposition.Continue? {
        LookOnTells(c, round, o.id, judged);
        TellsOn(c, round, o.id, v, judged, LookOn(c, judged, round.ports));
      } else {
        TellsOn(c, round, o.id, v, judged, VerificationTerminal(judged, round.ports, Judgment(round.ports)).value);
      }
    }
  }

  // ----- Acting --------------------------------------------------------------

  predicate Writes(effect: Effect) {
    effect in {InternalWrite, ExternalWrite}
  }

  /** The call returned with nothing left to a probe, and the verifier was heard on the page behind it. */
  predicate VerdictHeard(round: Round) {
    && round.call.outcome.Returned? && round.call.outcome.result.checkpoint.None?
    && PageTaken(round.ports) && {CompletionStage, VerificationStage} !! round.ports.refuses
  }

  /** The call raised a stale page or an error that cannot have touched anything, or the verifier asks for a retry. */
  predicate CallAsksRetry(round: Round, effect: Effect) {
    match round.call.outcome
    case Raised(Stale) => true
    case Raised(Runtime(effectMayHaveStarted)) => !(effectMayHaveStarted && Writes(effect))
    case Raised(Other) => false
    case Returned(_) => VerdictHeard(round) && Answered(round.ports).disposition.Retry? && !Writes(effect)
  }

  lemma SuspendTells(c: Setup, round: Round, id: string, v: Progress, command: Command, result: ActionResult)
    requires Acting(c, v.run, round, id, command)
    ensures var m := Suspend(v, round.ports, command, result);
            Tells(c, round, id, v, m) && m.v.retriesUsed == v.retriesUsed && !m.turn.Go?
  {
    hide Ending, Told, Verify;
    var flagged := v.(effectMayHaveStarted := true);
    VerifyTells(c, round, id, flagged, id, Some(command.fingerprint));
    var judged := Verify(flagged, round.ports, id, Some(command.fingerprint));
    EndingTells(c, round, id, judged, UNKNOWN, "PENDING_RESULT_PROBE", None, result.checkpoint);
    EndingKeeps(judged, round.ports, UNKNOWN, "PENDING_RESULT_PROBE", None, result.checkpoint);
    if VerificationStage !in round.ports.refuses {
      TellsOn(c, round, id, v, judged,
              Ending(judged, round.ports, UNKNOWN, "PENDING_RESULT_PROBE", None, result.checkpoint));
    }
  }

  lemma ReconsiderTells(c: Setup, round: Round, id: string, v: Progress, after: Observation, command: Command)
    requires PageTaken(round.ports) && SeenOn(c, after, round.ports.page.value)
    ensures var m := Reconsider(c, v, round.ports, after, command);
            var again := !Writes(command.authorization.effect) && v.retriesUsed < c.config.maxRetries;
            && Tells(c, round, id, v, m) && m.v.retriesUsed == v.retriesUsed + (if again then 1 else 0)
            && (m.turn.Go? <==> again)
  {
    hide Ending, Told;
    EndingTells(c, round, id, v, UNKNOWN, "WRITE_RETRY_REQUIRES_RECOVERY", None, None);
    EndingKeeps(v, round.ports, UNKNOWN, "WRITE_RETRY_REQUIRES_RECOVERY", None, None);
    EndingTells(c, round, id, v, FAILED, "RETRY_BUDGET_EXHAUSTED", None, None);
    EndingKeeps(v, round.ports, FAILED, "RETRY_BUDGET_EXHAUSTED", None, None);
  }

  /** What a step behind a returned call makes of the verifier's answer. */
  ghost predicate Heeds(c: Setup, round: Round, id: string, v: Progress, command: Command, m: Move, heard: bool) {
    var said, left := Answered(round.ports).disposition, v.retriesUsed < c.config.maxRetries;
    var retry := heard && said.Retry? && !Writes(command.authorization.effect);
    && Tells(c, round, id, v, m) && m.v.retriesUsed == v.retriesUsed + (if retry && left then 1 else 0)
    && (m.turn.Go? <==> heard && (said.Continue? || (retry && left)))
  }

  lemma JudgeTells(c: Setup, round: Round, id: string, v: Progress, after: Observation, command: Command)
    requires Acting(c, v.run, round, id, command)
    requires PageTaken(round.ports) && SeenOn(c, after, round.ports.page.value)
    ensures Heeds(c, round, id, v, command, Judge(c, v, round.ports, after, command),
                  VerificationStage !in round.ports.refuses)
  {
    hide Ending, Told, Verify, VerificationTerminal, Reconsider;
    VerifyTells(c, round, id, v, after.id, Some(command.fingerprint));
    var judged := Verify(v, round.ports, after.id, Some(command.fingerprint));
    if VerificationStage !in round.ports.refuses {
      VerdictTells(c, round, id, judged);
      if Answered(round.ports).disposition.Retry? {
        ReconsiderTells(c, round, id, judged, after, command);
        TellsOn(c, round, id, v, judged, Reconsider(c, judged, round.ports, after, command));
      } else if Answered(round.ports).disposition.Continue? {
        TellsOn(c, round, id, v, judged, Move(judged, Go(after)));
      } else {
        TellsOn(c, round, id, v, judged, VerificationTerminal(judged, round.ports, Judgment(round.ports)).value);
      }
    }
  }

  /** A step that goes on from a page it has just looked at. */
  lemma LookedThenTells(c: Setup, round: Round, id: string, v: Progress, v1: Progress, m: Move)
    requires Grew(c, round, id, v, v1) && Looked(c, round.ports, v, v1) && Tells(c, round, id, v1, m)
    requires m.v.observations == v1.observations && m.v.lastObservationId == v1.lastObservationId
    requires v1.executions == v.executions && v1.iterations == v.iterations
    ensures Tells(c, round, id, v, m)
  {
    forall k | |v.events| <= k < |m.v.events| ensures Told(c, v.run, round, id, m.v.events[k]) {
      if k < |v1.events| {
        assert m.v.events[k] == v1.events[k];
      }
    }
  }

  lemma JudgeLooksNoMore(c: Setup, v: Progress, a: Answers, after: Observation, command: Command)
    ensures var m := Judge(c, v, a, after, command);
            m.v.observations == v.observations && m.v.lastObservationId == v.lastObservationId
  {
  }

  lemma LookAfterTells(c: Setup, round: Round, id: string, v: Progress, command: Command)
    requires Acting(c, v.run, round, id, command)
    ensures Heeds(c, round, id, v, command, LookAfter(c, v, round.ports, command),
                  PageTaken(round.ports) && VerificationStage !in round.ports.refuses)
  {
    hide Ending, Told, Observe, Judge, Acting;
    ObserveTells(c, round, id, v);
    var (next, page) := Observe(c, v, round.ports);
    if page.Some? {
      JudgeTells(c, round, id, next, page.value, command);
      JudgeLooksNoMore(c, next, round.ports, page.value, command);
      LookedThenTells(c, round, id, v, next, Judge(c, next, round.ports, page.value, command));
    } else {
      var status := if IsWrite(command.authorization.effect) then UNKNOWN else FAILED;
      LookedThenEnded(c, round, id, v, next, status, "POST_ACTION_OBSERVATION_FAILED");
      EndingKeeps(next, round.ports, status, "POST_ACTION_OBSERVATION_FAILED", None, None);
    }
  }

  lemma ReturnTells(c: Setup, round: Round, id: string, v: Progress, command: Command, result: ActionResult)
    requires Acting(c, v.run, round, id, command) && round.call.outcome == Returned(result)
    ensures Heeds(c, round, id, v, command, AfterReturn(c, v, round.ports, command, result), VerdictHeard(round))
  {
    hide Ending, Observe, LookAfter, Suspend, Grew, Looked, LeavesOff;
    var recorded := Emitted(v, round.ports, result.detailCode, Some(command.observationId), Some(command.fingerprint),
                            Completed(result.completed));
    EmittedGrew(c, round, id, v, result.detailCode, Some(command.observationId), Some(command.fingerprint),
                Completed(result.completed));
    if CompletionStage in round.ports.refuses {
      NothingMore(c, round, id, v, recorded);
    } else if result.checkpoint.Some? {
      SuspendTells(c, round, id, recorded, command, result);
      TellsOn(c, round, id, v, recorded, Suspend(recorded, round.ports, command, result));
    } else {
      LookAfterTells(c, round, id, recorded, command);
      TellsOn(c, round, id, v, recorded, LookAfter(c, recorded, round.ports, command));
    }
  }

  /** An exception escapes behind a few events. */
  lemma NothingMore(c: Setup, round: Round, id: string, v: Progress, v1: Progress)
    requires Grew(c, round, id, v, v1) && v1 == v.(events := v1.events, fault := v1.fault)
    ensures Tells(c, round, id, v, Move(v1, Escaped))
  {
  }

  lemma AnswerTells(c: Setup, round: Round, id: string, v: Progress, command: Command)
    requires Acting(c, v.run, round, id, command)
    ensures var m := Answer(c, v, round.ports, command, round.call.outcome);
            var left := v.retriesUsed < c.config.maxRetries;
            var asks := CallAsksRetry(round, command.authorization.effect);
            && Tells(c, round, id, v, m)
            && m.v.retriesUsed == v.retriesUsed + (if asks && left then 1 else 0)
            && (m.turn.Go? <==>
                  && PageTaken(round.ports)
                  && if asks then left else VerdictHeard(round) && Answered(round.ports).disposition.Continue?)
  {
    hide Ending, TryAgain, AfterReturn, Grew, Looked, LeavesOff, Acting;
    match round.call.outcome
    case Returned(result) => ReturnTells(c, round, id, v, command, result);
    case Raised(_) =>
      TryAgainTells(c, round, id, v);
      EndingTells(c, round, id, v, UNKNOWN, "ACTION_EFFECT_UNKNOWN", None, None);
      EndingKeeps(v, round.ports, UNKNOWN, "ACTION_EFFECT_UNKNOWN", None, None);
      EndingTells(c, round, id, v, FAILED, "ACTION_EXECUTION_FAILED", None, None);
      EndingKeeps(v, round.ports, FAILED, "ACTION_EXECUTION_FAILED", None, None);
  }

  /** The call is the chosen action under the policy's own authorization, on this very page, while it was fresh. */
  predicate Ordered(c: Setup, run: RunContext, round: Round, o: Observation, x: Execution) {
    && Launches(c, run, round.ports, o) && round.ports.policy.Some? && round.ports.policy.value.Allow?
    && x.command == CommandOf(c, run, round.ports, o)
    && x.outcome == round.call.outcome && x.age == round.ports.now - o.capturedAt
    && (x.reached <==> round.call.reached && x.command.authorization.effect.ExternalWrite?)
  }

  function CommandOf(c: Setup, run: RunContext, a: Answers, o: Observation): Command
    requires ChosenAction(c, run, a, o.id).Some? && a.policy.Some? && a.policy.value.Allow?
  {
    var action := ChosenAction(c, run, a, o.id).value.0;
    Command(action, Signature(c, run, action, o.id), o.id, o.snapshotHash, a.policy.value.authorization,
            a.policy.value.profile)
  }

  /** The answers ask for another look at the price of a retry. */
  predicate AsksRetry(c: Setup, run: RunContext, round: Round, o: Observation) {
    var a := round.ports;
    || (ClaimsSuccess(c, run, a, o.id) && {DecisionStage, VerificationStage} !! a.refuses
        && Answered(a).disposition.Retry?)
    || (ChosenAction(c, run, a, o.id).Some? && {DecisionStage, PolicyStage} !! a.refuses && a.policy.Some?
        && (a.policy.value.LookAgain?
            || (Allowed(c, run, a, o) && !IsFresh(c, o, a.now))
            || (Launches(c, run, a, o) && CallAsksRetry(round, a.policy.value.authorization.effect))))
  }

  /** The verifier says to continue, about a claim of success or about a call. */
  predicate SaysContinue(c: Setup, run: RunContext, round: Round, o: Observation) {
    && Answered(round.ports).disposition.Continue?
    && (|| (ClaimsSuccess(c, run, round.ports, o.id) && {DecisionStage, VerificationStage} !! round.ports.refuses)
        || (Launches(c, run, round.ports, o) && VerdictHeard(round)))
  }

  /** What the round's retry costs. */
  function Price(c: Setup, v: Progress, asks: bool): nat {
    if asks && v.retriesUsed < c.config.maxRetries then 1 else 0
  }

  /** The step uses a retry, and goes on, exactly where the answers ask for it. */
  predicate GoesOnAs(c: Setup, round: Round, v: Progress, m: Move, asks: bool, continues: bool) {
    && m.v.retriesUsed == v.retriesUsed + Price(c, v, asks)
    && (m.turn.Go? <==>
          PageTaken(round.ports) && if asks then v.retriesUsed < c.config.maxRetries else continues)
  }

  lemma PerformGoesBy(c: Setup, round: Round, o: Observation, v: Progress, source: DecisionSource)
    requires var a := round.ports;
             && ChosenAction(c, v.run, a, o.id).Some? && ChosenAction(c, v.run, a, o.id).value.1 == source
             && a.policy.Some? && a.policy.value.Allow?
    ensures var a := round.ports; var command := CommandOf(c, v.run, a, o);
            var m := Perform(c, v, a, round.call, command, source, a.now - o.capturedAt);
            var taken := StartStage !in a.refuses;
            && GoesBy(c, round, o.id, v, m)
            && m.v.executions
                 == (if taken then v.executions + [CallMade(v, round.call, command, a.now - o.capturedAt)]
                     else v.executions)
            && GoesOnAs(c, round, v, m, taken && CallAsksRetry(round, command.authorization.effect),
                        taken && VerdictHeard(round) && Answered(a).disposition.Continue?)
  {
    hide Answer, Grew, Looked, LeavesOff, CallAsksRetry, VerdictHeard;
    var a := round.ports;
    var command := CommandOf(c, v.run, a, o);
    var detail := Started(command.action.kind, command.authorization.effect, source);
    EmittedGrew(c, round, o.id, v, "ACTION_STARTED", Some(command.observationId), Some(command.fingerprint), detail);
    var announced := Emitted(v, a, "ACTION_STARTED", Some(command.observationId), Some(command.fingerprint), detail);
    if StartStage in a.refuses {
      NothingMore(c, round, o.id, v, announced);
    } else {
      var called := Called(announced, CallMade(v, round.call, command, a.now - o.capturedAt));
      CallingGrew(c, round, o.id, v, announced, called);
      AnswerTells(c, round, o.id, called, command);
      TellsOn(c, round, o.id, v, called, Answer(c, called, a, command, round.call.outcome));
    }
  }

  lemma CallingGrew(c: Setup, round: Round, id: string, v: Progress, v1: Progress, v2: Progress)
    requires Grew(c, round, id, v, v1) && v2.run == v1.run && v2.events == v1.events && v2.fault == v1.fault
    ensures Grew(c, round, id, v, v2)
  {
  }

  lemma AllowedGoesBy(c: Setup, round: Round, o: Observation, v: Progress, action: Action, source: DecisionSource,
                      authorization: Authorization, profile: Profile)
    requires ChosenAction(c, v.run, round.ports, o.id) == Some((action, source))
    requires round.ports.policy.Some? && round.ports.policy.value.Allow?
    requires authorization == round.ports.policy.value.authorization && profile == round.ports.policy.value.profile
    requires {DecisionStage, PolicyStage} !! round.ports.refuses
    ensures var a := round.ports;
            var m := OnAllowed(c, v, a, round.call, o, action, Signature(c, v.run, action, o.id), authorization,
                               profile, source);
            && GoesBy(c, round, o.id, v, m) && CallsAs(c, round, o, v, m)
            && GoesOnAs(c, round, v, m,
                        || (Allowed(c, v.run, a, o) && !IsFresh(c, o, a.now))
                        || (Launches(c, v.run, a, o) && CallAsksRetry(round, authorization.effect)),
                        Launches(c, v.run, a, o) && VerdictHeard(round) && Answered(a).disposition.Continue?)
  {
    hide Perform, TryAgain, Ending, Grew, Looked, LeavesOff, CallAsksRetry, VerdictHeard;
    var a := round.ports;
    var signed := Signature(c, v.run, action, o.id);
    EndingTells(c, round, o.id, v, FAILED, "INVALID_EXECUTION_AUTHORIZATION", None, None);
    EndingKeeps(v, a, FAILED, "INVALID_EXECUTION_AUTHORIZATION", None, None);
    TryAgainTells(c, round, o.id, v);
    PerformGoesBy(c, round, o, v, source);
    CommandBinds(o, action, signed, authorization, profile);
    StaleIsNotFresh(c, o, a.now);
  }

  /** The step makes the one call its answers launch, and none where they launch none. */
  predicate CallsAs(c: Setup, round: Round, o: Observation, v: Progress, m: Move) {
    if Launches(c, v.run, round.ports, o)
    then && |m.v.executions| == |v.executions| + 1 && m.v.executions[..|v.executions|] == v.executions
         && Ordered(c, v.run, round, o, m.v.executions[|v.executions|])
    else m.v.executions == v.executions
  }

  lemma CommandBinds(o: Observation, action: Action, fingerprint: string, authorization: Authorization,
                     profile: Profile)
    ensures AuthorizedCommand(o, action, fingerprint, authorization, profile)
              == if Binds(authorization, profile, fingerprint, o.id)
                 then Some(Command(action, fingerprint, o.id, o.snapshotHash, authorization, profile)) else None
  {
  }

  lemma StaleIsNotFresh(c: Setup, o: Observation, now: real)
    ensures IsStale(c, o, now) <==> !IsFresh(c, o, now)
  {
  }

  lemma VerdictGoesBy(c: Setup, round: Round, o: Observation, v: Progress, action: Action, source: DecisionSource)
    requires ChosenAction(c, v.run, round.ports, o.id) == Some((action, source)) && round.ports.policy.Some?
    requires {DecisionStage, PolicyStage} !! round.ports.refuses
    ensures var m := OnVerdict(c, v, round.ports, round.call, o, action, Signature(c, v.run, action, o.id),
                               round.ports.policy.value, source);
            && GoesBy(c, round, o.id, v, m) && CallsAs(c, round, o, v, m)
            && GoesOnAs(c, round, v, m, AsksRetry(c, v.run, round, o), SaysContinue(c, v.run, round, o))
  {
    hide OnAllowed, TryAgain, Ending, Grew, Looked, CallAsksRetry, VerdictHeard, IsFresh, Binds;
    match round.ports.policy.value
    case Deny(reason) =>
      EndingTells(c, round, o.id, v, FAILED, reason, None, None);
      EndingKeeps(v, round.ports, FAILED, reason, None, None);
    case AskApproval(reason, approvalRef) =>
      EndingTells(c, round, o.id, v, AWAITING_APPROVAL, reason, Some(approvalRef), None);
      EndingKeeps(v, round.ports, AWAITING_APPROVAL, reason, Some(approvalRef), None);
    case LookAgain(_) => TryAgainTells(c, round, o.id, v);
    case Allow(_, authorization, profile) => AllowedGoesBy(c, round, o, v, action, source, authorization, profile);
  }

  lemma ActionGoesBy(c: Setup, round: Round, o: Observation, v: Progress, action: Action, source: DecisionSource)
    requires ChosenAction(c, v.run, round.ports, o.id) == Some((action, source))
    requires DecisionStage !in round.ports.refuses
    ensures var m := OnAction(c, v, round.ports, round.call, o, action, source);
            && GoesBy(c, round, o.id, v, m) && CallsAs(c, round, o, v, m)
            && GoesOnAs(c, round, v, m, AsksRetry(c, v.run, round, o), SaysContinue(c, v.run, round, o))
  {
    hide OnVerdict, Ending, Grew, Looked, LeavesOff, CallAsksRetry, VerdictHeard, IsFresh, Binds, Chosen;
    var a := round.ports;
    if a.policy.None? {
      var failed := v.(fault := Some(PortRaised(Authorizing)));
      EndingTells(c, round, o.id, failed, FAILED, "POLICY_EVALUATION_FAILED", None, None);
      EndingKeeps(failed, a, FAILED, "POLICY_EVALUATION_FAILED", None, None);
      FaultsTell(c, round, o.id, v, failed, Ending(failed, a, FAILED, "POLICY_EVALUATION_FAILED", None, None));
    } else {
      var signed := Signature(c, v.run, action, o.id);
      var detail := PolicyDecided(a.policy.value.Disposition());
      EmittedGrew(c, round, o.id, v, a.policy.value.reasonCode, Some(o.id), Some(signed), detail);
      var recorded := Emitted(v, a, a.policy.value.reasonCode, Some(o.id), Some(signed), detail);
      if PolicyStage in a.refuses {
        NothingMore(c, round, o.id, v, recorded);
      } else {
        VerdictGoesBy(c, round, o, recorded, action, source);
        TellsOn(c, round, o.id, v, recorded,
                OnVerdict(c, recorded, a, round.call, o, action, signed, a.policy.value, source));
      }
    }
  }

  /** A fault of the round recorded before a step changes nothing of what it tells. */
  lemma FaultsTell(c: Setup, round: Round, id: string, v: Progress, v1: Progress, m: Move)
    requires v1 == v.(fault := v1.fault) && Tells(c, round, id, v1, m)
    requires v1.fault.Some? && Fails(c, v.run, round, id, v1.fault.value)
    ensures Tells(c, round, id, v, m)
  {
  }

  lemma DecisionGoesBy(c: Setup, round: Round, o: Observation, v: Progress, d: Decision, source: DecisionSource)
    requires Chosen(c, v.run, round.ports, o.id) == Some((d, source)) && d.observationId == o.id
    ensures var m := OnDecision(c, v, round.ports, round.call, o, d, source);
            && GoesBy(c, round, o.id, v, m) && CallsAs(c, round, o, v, m)
            && GoesOnAs(c, round, v, m, AsksRetry(c, v.run, round, o), SaysContinue(c, v.run, round, o))
  {
    hide OnAction, OnSuccess, Ending, Grew, Looked, LeavesOff, CallAsksRetry, VerdictHeard, IsFresh, Binds;
    var a := round.ports;
    EmittedGrew(c, round, o.id, v, d.reasonCode, Some(o.id), None, Decided(d.Kind(), source));
    var recorded := Emitted(v, a, d.reasonCode, Some(o.id), None, Decided(d.Kind(), source));
    if DecisionStage in a.refuses {
      NothingMore(c, round, o.id, v, recorded);
    } else {
      match d
      case GiveUp(_, reason) =>
        EndingTells(c, round, o.id, recorded, FAILED, reason, None, None);
        EndingKeeps(recorded, a, FAILED, reason, None, None);
        TellsOn(c, round, o.id, v, recorded, Ending(recorded, a, FAILED, reason, None, None));
      case Succeed(_, _) =>
        SuccessTells(c, round, recorded, o);
        TellsOn(c, round, o.id, v, recorded, OnSuccess(c, recorded, a, o));
      case Act(_, action, _) =>
        ActionGoesBy(c, round, o, recorded, action, source);
        TellsOn(c, round, o.id, v, recorded, OnAction(c, recorded, a, round.call, o, action, source));
    }
  }

  /**
    What an iteration does is what its answers say: it records nothing else, makes exactly the call they launch, uses a
    retry exactly where they ask for one, and goes on exactly where they let it, with the page they showed.
  */
  lemma IterationGoesBy(c: Setup, v: Progress, a: Answers, call: CallAnswer, o: Observation)
    ensures var m, round := Iteration(c, v, a, call, o), Round(a, call);
            && GoesBy(c, round, o.id, v, m) && CallsAs(c, round, o, v, m)
            && GoesOnAs(c, round, v, m, AsksRetry(c, v.run, round, o), SaysContinue(c, v.run, round, o))
  {
    hide OnDecision, Ending, Grew, Looked, LeavesOff, CallAsksRetry, VerdictHeard, IsFresh, Binds, Decide;
    var round := Round(a, call);
    DecideIsChosen(c, v.run, a, o);
    match Decide(c, v.run, a, o)
    case None =>
      var failed := v.(fault := Some(PortRaised(Deciding)));
      EndingTells(c, round, o.id, failed, FAILED, "DECISION_PROVIDER_FAILED", None, None);
      EndingKeeps(failed, a, FAILED, "DECISION_PROVIDER_FAILED", None, None);
      FaultsTell(c, round, o.id, v, failed, Ending(failed, a, FAILED, "DECISION_PROVIDER_FAILED", None, None));
    case Some((d, source)) =>
      if d.observationId != o.id {
        EndingTells(c, round, o.id, v, FAILED, "DECISION_OBSERVATION_MISMATCH", None, None);
        EndingKeeps(v, a, FAILED, "DECISION_OBSERVATION_MISMATCH", None, None);
      } else {
        DecisionGoesBy(c, round, o, v, d, source);
      }
  }

  lemma DecideIsChosen(c: Setup, run: RunContext, a: Answers, o: Observation)
    ensures Decide(c, run, a, o) == Chosen(c, run, a, o.id)
  {
  }

  // ----- Whole runs ----------------------------------------------------------

  /** The `j`-th round of a script; the first look comes before them all. */
  function RoundAt(script: Script, j: nat): Round
    requires j <= |script.turns|
  {
    if j == 0 then Round(script.first, CallAnswer(Raised(Raise.Other), false)) else script.turns[j - 1]
  }

  /** Round `j`, on the page shown in round `i`, says what the event says. */
  predicate ToldAt(c: Setup, run: RunContext, script: Script, i: int, j: int, e: Event) {
    && 0 <= i < j <= |script.turns| && RoundAt(script, i).ports.page.Some?
    && Told(c, run, RoundAt(script, j), PageId(c, RoundAt(script, i).ports.page.value), e)
  }

  /** The event is the end of the run, the page of some round, or what some round said on the page of an earlier one. */
  predicate ToldInRun(c: Setup, run: RunContext, script: Script, e: Event) {
    || e.detail.Ended?
    || (exists j :: 0 <= j <= |script.turns| && ToldPage(c, RoundAt(script, j).ports, e))
    || (exists i, j :: 0 <= i < j <= |script.turns| && ToldAt(c, run, script, i, j, e))
  }

  /** The observation was bound to the page of round `i`. */
  predicate InHand(c: Setup, script: Script, i: int, o: Observation) {
    && 0 <= i <= |script.turns| && RoundAt(script, i).ports.page.Some?
    && SeenOn(c, o, RoundAt(script, i).ports.page.value)
  }

  /** Round `j` ordered the call, on an observation of an earlier round's page. */
  ghost predicate OrderedAt(c: Setup, run: RunContext, script: Script, j: nat, x: Execution) {
    && 0 < j <= |script.turns|
    && exists i, o :: 0 <= i < j && InHand(c, script, i, o) && Ordered(c, run, RoundAt(script, j), o, x)
  }

  /** Each call was ordered by a later round than the one before. */
  ghost predicate CallsInOrder(c: Setup, run: RunContext, script: Script, executions: seq<Execution>,
                               rounds: seq<nat>) {
    && |rounds| == |executions|
    && (forall k :: 0 <= k < |rounds| ==> OrderedAt(c, run, script, rounds[k], executions[k]))
    && (forall k, l :: 0 <= k < l < |rounds| ==> rounds[k] < rounds[l])
  }

  /** The policy asked for an approval in the round the run ended in, by this reference and for this reason. */
  predicate AskedAt(script: Script, j: nat, approvalRef: string) {
    && 0 < j <= |script.turns| && script.turns[j - 1].ports.policy.Some?
    && script.turns[j - 1].ports.policy.value.AskApproval?
    && script.turns[j - 1].ports.policy.value.approvalRef == approvalRef
  }

  /** Round `j` failed the run, on the page of an earlier round. */
  predicate FailsAt(c: Setup, run: RunContext, script: Script, i: int, j: nat, fault: Fault) {
    && j <= |script.turns|
    && (if j == 0 then Fails(c, run, RoundAt(script, 0), "", fault)
        else
          && 0 <= i < j && RoundAt(script, i).ports.page.Some?
          && Fails(c, run, RoundAt(script, j), PageId(c, RoundAt(script, i).ports.page.value), fault))
  }

  /** What failed the run: its last round, or the sink that refused its terminal event behind the rounds. */
  predicate FailsIn(c: Setup, run: RunContext, script: Script, iterations: nat, fault: Fault) {
    || (fault.SinkRefused? && fault.event.detail.Ended? && TerminalStage in script.last.refuses)
    || (iterations <= |script.turns|
        && exists i :: 0 <= i <= iterations && FailsAt(c, run, script, i, iterations, fault))
  }

  /** A run that has come so far by the answers of its script. */
  ghost predicate CameBy(c: Setup, run: RunContext, script: Script, m: Move) {
    && m.v.run == run && m.v.iterations <= |script.turns|
    && (m.v.fault.Some? ==> FailsIn(c, run, script, m.v.iterations, m.v.fault.value))
    && (forall k :: 0 <= k < |m.v.events| ==> ToldInRun(c, run, script, m.v.events[k]))
    && (exists rounds :: CallsInOrder(c, run, script, m.v.executions, rounds))
    && (m.turn.Go? ==> exists i :: InHand(c, script, i, m.turn.observation))
    && (m.turn.Stop? ==> Refers(script, m.v.iterations, m.turn.report))
  }

  /** What the report says of an approval is what the policy asked for in the last round. */
  predicate Refers(script: Script, iterations: nat, r: Report) {
    && (r.approvalRef.Some? ==> AskedAt(script, iterations, r.approvalRef.value))
    && (r.status.AWAITING_APPROVAL? ==>
          && r.approvalRef.Some? && AskedAt(script, iterations, r.approvalRef.value)
          && r.reasonCode == script.turns[iterations - 1].ports.policy.value.reasonCode)
  }

  lemma LongerScriptsTell(c: Setup, run: RunContext, script: Script, round: Round, e: Event)
    requires ToldInRun(c, run, script, e)
    ensures ToldInRun(c, run, script.(turns := script.turns + [round]), e)
  {
    var longer := script.(turns := script.turns + [round]);
    assert forall j :: 0 <= j <= |script.turns| ==> RoundAt(longer, j) == RoundAt(script, j);
    if j :| 0 <= j <= |script.turns| && ToldPage(c, RoundAt(script, j).ports, e) {
      assert ToldPage(c, RoundAt(longer, j).ports, e);
    } else if i, j :| 0 <= i < j <= |script.turns| && ToldAt(c, run, script, i, j, e) {
      assert ToldAt(c, run, longer, i, j, e);
    }
  }

  lemma LongerScriptsOrder(c: Setup, run: RunContext, script: Script, round: Round, j: nat, x: Execution)
    requires OrderedAt(c, run, script, j, x)
    ensures OrderedAt(c, run, script.(turns := script.turns + [round]), j, x)
  {
    var longer := script.(turns := script.turns + [round]);
    assert forall k :: 0 <= k <= |script.turns| ==> RoundAt(longer, k) == RoundAt(script, k);
    var i, o :| 0 <= i < j && InHand(c, script, i, o) && Ordered(c, run, RoundAt(script, j), o, x);
    assert InHand(c, longer, i, o);
  }

  lemma NewCallIsOrdered(c: Setup, run: RunContext, script: Script, round: Round, v: Progress, v': Progress, i: int,
                         o: Observation, rounds: seq<nat>)
    requires CallsInOrder(c, run, script, v.executions, rounds) && InHand(c, script, i, o) && v.run == run
    requires CallsAs(c, round, o, v, Move(v', Escaped))
    ensures exists rounds' :: CallsInOrder(c, run, script.(turns := script.turns + [round]), v'.executions, rounds')
  {
    hide Ordered, Launches, OrderedAt;
    var longer := script.(turns := script.turns + [round]);
    var n := |script.turns| + 1;
    forall k | 0 <= k < |rounds| ensures OrderedAt(c, run, longer, rounds[k], v.executions[k]) && rounds[k] < n {
      assert OrderedAt(c, run, script, rounds[k], v.executions[k]);
      RoundsAreWithin(c, run, script, rounds[k], v.executions[k]);
      LongerScriptsOrder(c, run, script, round, rounds[k], v.executions[k]);
    }
    if Launches(c, v.run, round.ports, o) {
      var x := v'.executions[|v.executions|];
      StillInHand(c, script, round, i, o);
      OrderedNow(c, run, longer, n, i, o, x);
      assert v'.executions == v.executions + [x];
      assert CallsInOrder(c, run, longer, v'.executions, rounds + [n]);
    } else {
      assert CallsInOrder(c, run, longer, v'.executions, rounds);
    }
  }

  lemma RoundsAreWithin(c: Setup, run: RunContext, script: Script, j: nat, x: Execution)
    requires OrderedAt(c, run, script, j, x)
    ensures 0 < j <= |script.turns|
  {
  }

  lemma StillInHand(c: Setup, script: Script, round: Round, i: int, o: Observation)
    requires InHand(c, script, i, o)
    ensures InHand(c, script.(turns := script.turns + [round]), i, o)
  {
    assert RoundAt(script.(turns := script.turns + [round]), i) == RoundAt(script, i);
  }

  lemma OrderedNow(c: Setup, run: RunContext, script: Script, j: nat, i: int, o: Observation, x: Execution)
    requires 0 < j <= |script.turns| && 0 <= i < j && InHand(c, script, i, o)
    requires Ordered(c, run, RoundAt(script, j), o, x)
    ensures OrderedAt(c, run, script, j, x)
  {
  }

  /** One round more. */
  lemma RoundComesBy(c: Setup, run: RunContext, script: Script, round: Round, before: Move)
    requires CameBy(c, run, script, before) && before.turn.Go? && before.v.fault.None?
    ensures CameBy(c, run, script.(turns := script.turns + [round]),
                   Iteration(c, before.v.(iterations := |script.turns| + 1), round.ports, round.call,
                             before.turn.observation))
  {
    hide Iteration, ToldInRun, CallsAs, AsksRetry, SaysContinue, Told, CallsInOrder, SeenOn, Fails;
    var longer, n := script.(turns := script.turns + [round]), |script.turns| + 1;
    var v, o := before.v.(iterations := n), before.turn.observation;
    var m := Iteration(c, v, round.ports, round.call, o);
    IterationGoesBy(c, v, round.ports, round.call, o);
    assert round == Round(round.ports, round.call);
    var i :| InHand(c, script, i, o);
    forall k | 0 <= k < |m.v.events| ensures ToldInRun(c, run, longer, m.v.events[k]) {
      if k < |v.events| {
        assert m.v.events[k] == v.events[k];
        LongerScriptsTell(c, run, script, round, v.events[k]);
      } else {
        NewEventIsTold(c, run, script, round, i, o, m.v.events[k]);
      }
    }
    var rounds :| CallsInOrder(c, run, script, v.executions, rounds);
    SameCalls(c, round, o, v, m);
    NewCallIsOrdered(c, run, script, round, v, m.v, i, o, rounds);
    if m.turn.Go? {
      assert InHand(c, longer, n, m.turn.observation);
    }
    if m.v.fault.Some? {
      NewFaultFails(c, run, script, round, i, o, m.v.fault.value);
    }
  }

  lemma NewFaultFails(c: Setup, run: RunContext, script: Script, round: Round, i: int, o: Observation, fault: Fault)
    requires InHand(c, script, i, o) && Fails(c, run, round, o.id, fault)
    ensures FailsAt(c, run, script.(turns := script.turns + [round]), i, |script.turns| + 1, fault)
  {
    hide Fails;
    StillInHand(c, script, round, i, o);
    assert RoundAt(script.(turns := script.turns + [round]), |script.turns| + 1) == round;
  }

  lemma SameCalls(c: Setup, round: Round, o: Observation, v: Progress, m: Move)
    requires CallsAs(c, round, o, v, m)
    ensures CallsAs(c, round, o, v, Move(m.v, Escaped))
  {
  }

  lemma NewEventIsTold(c: Setup, run: RunContext, script: Script, round: Round, i: int, o: Observation, e: Event)
    requires InHand(c, script, i, o) && Told(c, run, round, o.id, e)
    ensures ToldInRun(c, run, script.(turns := script.turns + [round]), e)
  {
    hide Told;
    var longer, n := script.(turns := script.turns + [round]), |script.turns| + 1;
    StillInHand(c, script, round, i, o);
    assert RoundAt(longer, n) == round;
    assert ToldAt(c, run, longer, i, n, e);
  }

  lemma GoingOnIsFaultless(c: Setup, run: RunContext, first: Answers, turns: seq<Round>)
    requires |turns| <= c.config.maxIterations && forall i :: 0 <= i < |turns| ==> MayAnswer(c, turns[i].call)
    ensures var m := Iterations(c, LookOn(c, LoopSteps.Fresh(run), first), turns);
            m.turn.Go? ==> m.v.fault.None?
  {
    hide Iterations, LookOn;
    LookIsSafe(c, LoopSteps.Fresh(run), first);
    IterationsAreSafe(c, LookOn(c, LoopSteps.Fresh(run), first), turns);
  }

  lemma {:induction false} IterationsComeBy(c: Setup, run: RunContext, first: Answers, last: Answers, turns: seq<Round>)
    requires |turns| <= c.config.maxIterations && forall i :: 0 <= i < |turns| ==> MayAnswer(c, turns[i].call)
    ensures CameBy(c, run, Script(first, turns, last), Iterations(c, LookOn(c, LoopSteps.Fresh(run), first), turns))
  {
    hide Iteration, CameBy;
    var begun := LookOn(c, LoopSteps.Fresh(run), first);
    if turns == [] {
      FirstLookComesBy(c, run, first, last);
    } else {
      var n := |turns| - 1;
      IterationsComeBy(c, run, first, last, turns[..n]);
      var before := Iterations(c, begun, turns[..n]);
      var script := Script(first, turns[..n], last);
      assert turns == turns[..n] + [turns[n]];
      assert Script(first, turns, last) == script.(turns := script.turns + [turns[n]]);
      GoingOnIsFaultless(c, run, first, turns[..n]);
      if before.turn.Go? {
        RoundComesBy(c, run, script, turns[n], before);
      } else {
        LongerScriptsComeBy(c, run, script, turns[n], before);
      }
    }
  }

  lemma FirstLookComesBy(c: Setup, run: RunContext, first: Answers, last: Answers)
    ensures CameBy(c, run, Script(first, [], last), LookOn(c, LoopSteps.Fresh(run), first))
  {
    hide Told;
    var script := Script(first, [], last);
    var round := RoundAt(script, 0);
    var v := LoopSteps.Fresh(run);
    var m := LookOn(c, v, first);
    LookOnTells(c, round, "", v);
    FirstEventsArePages(c, v, first);
    assert CallsInOrder(c, run, script, [], []);
    forall k | 0 <= k < |m.v.events| ensures ToldInRun(c, run, script, m.v.events[k]) {
      assert ToldPage(c, RoundAt(script, 0).ports, m.v.events[k]) || m.v.events[k].detail.Ended?;
    }
    assert m.v.fault.Some? ==> FailsAt(c, run, script, 0, 0, m.v.fault.value);
    if m.turn.Go? {
      assert InHand(c, script, 0, m.turn.observation);
    } else {
      FirstLooksReferToNothing(c, v, first);
    }
  }

  lemma FirstEventsArePages(c: Setup, v: Progress, a: Answers)
    requires v.events == []
    ensures var m := LookOn(c, v, a);
            forall k :: 0 <= k < |m.v.events| ==> ToldPage(c, a, m.v.events[k]) || m.v.events[k].detail.Ended?
  {
  }

  lemma FirstLooksReferToNothing(c: Setup, v: Progress, a: Answers)
    ensures var m := LookOn(c, v, a);
            m.turn.Stop? ==> m.turn.report.approvalRef.None? && !m.turn.report.status.AWAITING_APPROVAL?
  {
  }

  lemma LongerScriptsComeBy(c: Setup, run: RunContext, script: Script, round: Round, m: Move)
    requires CameBy(c, run, script, m) && !m.turn.Go?
    ensures CameBy(c, run, script.(turns := script.turns + [round]), m)
  {
    hide ToldInRun, OrderedAt, Fails;
    var longer := script.(turns := script.turns + [round]);
    assert forall j :: 0 <= j <= |script.turns| ==> RoundAt(longer, j) == RoundAt(script, j);
    if m.v.fault.Some? && !(m.v.fault.value.SinkRefused? && m.v.fault.value.event.detail.Ended?
                            && TerminalStage in script.last.refuses) {
      var i :| 0 <= i <= m.v.iterations && FailsAt(c, run, script, i, m.v.iterations, m.v.fault.value);
      assert FailsAt(c, run, longer, i, m.v.iterations, m.v.fault.value);
    }
    forall k | 0 <= k < |m.v.events| ensures ToldInRun(c, run, longer, m.v.events[k]) {
      LongerScriptsTell(c, run, script, round, m.v.events[k]);
    }
    var rounds :| CallsInOrder(c, run, script, m.v.executions, rounds);
    forall k | 0 <= k < |rounds| ensures OrderedAt(c, run, longer, rounds[k], m.v.executions[k]) {
      LongerScriptsOrder(c, run, script, round, rounds[k], m.v.executions[k]);
    }
    assert CallsInOrder(c, run, longer, m.v.executions, rounds);
  }

  /** The write came back saying that it may have had its effect. */
  predicate MayHaveHadEffect(x: Execution) {
    && x.outcome.Returned? && x.outcome.result.effectMayHaveStarted
    && x.command.authorization.effect in {InternalWrite, ExternalWrite}
  }

  /** The flag is up behind every such write, and only behind one, or behind a result that is left to a probe. */
  predicate FlagSays(flag: bool, executions: seq<Execution>) {
    && (forall i :: 0 <= i < |executions| && MayHaveHadEffect(executions[i]) ==> flag)
    && (flag ==> exists i :: 0 <= i < |executions|
                             && (MayHaveHadEffect(executions[i])
                                 || (executions[i].outcome.Returned? && executions[i].outcome.result.checkpoint.Some?)))
  }

  lemma FlagsSaySo(c: Setup, v: Progress, r: Report)
    requires Finished(c, v, r)
    ensures FlagSays(v.effectMayHaveStarted, v.executions)
  {
    assert FlagOk(v.effectMayHaveStarted, v.executions);
    forall i | 0 <= i < |v.executions| ensures ShowsEffect(v.executions[i]) <==> MayHaveHadEffect(v.executions[i]) {
    }
  }

  /**
    A whole run goes by the answers of its ports: every event but the last is what some round's ports said; the calls
    are those that its rounds ordered, one after the other; the effect flag is up as they left it; what failed it failed
    in its last round; and a report that awaits an approval names the reference and the reason the policy gave then.
  */
  ghost predicate WentBy(c: Setup, run: RunContext, script: Script, v: Progress, r: Report) {
    && (forall k :: 0 <= k < |r.events| ==> ToldInRun(c, run, script, r.events[k]))
    && (exists rounds :: CallsInOrder(c, run, script, v.executions, rounds))
    && Refers(script, r.iterations, r) && FlagSays(v.effectMayHaveStarted, v.executions)
    && (v.fault.Some? ==> FailsIn(c, run, script, r.iterations, v.fault.value))
  }

  lemma RunsGoByTheirAnswers(c: Setup, run: RunContext, script: Script)
    requires Plausible(c, run, script)
    ensures var m := RunOf(c, run, script); m.turn.Stop? && WentBy(c, run, script, m.v, m.turn.report)
  {
    hide Iterations, ToldInRun, Finished, OrderedAt, FlagSays;
    IterationsComeBy(c, run, script.first, script.last, script.turns);
    assert Script(script.first, script.turns, script.last) == script;
    RunsAreSafe(c, run, script);
    var m := Iterations(c, LookOn(c, LoopSteps.Fresh(run), script.first), script.turns);
    ConclusionsComeBy(c, run, script, m);
    ReportsRepeat(c, RunOf(c, run, script).v, RunOf(c, run, script).turn.report);
    FlagsSaySo(c, RunOf(c, run, script).v, RunOf(c, run, script).turn.report);
  }

  lemma ReportsRepeat(c: Setup, v: Progress, r: Report)
    requires Finished(c, v, r)
    ensures r.events == v.events && r.iterations == v.iterations
  {
  }

  lemma ConclusionsComeBy(c: Setup, run: RunContext, script: Script, m: Move)
    requires CameBy(c, run, script, m)
    ensures CameBy(c, run, script, Concluded(m, script.last))
  {
    hide ToldInRun, CallsInOrder;
    var r := Concluded(m, script.last);
    forall k | 0 <= k < |r.v.events| ensures ToldInRun(c, run, script, r.v.events[k]) {
      if k < |m.v.events| {
        assert r.v.events[k] == m.v.events[k];
      } else {
        EndsAreTold(c, run, script, r.v.events[k]);
      }
    }
  }

  lemma EndsAreTold(c: Setup, run: RunContext, script: Script, e: Event)
    requires e.detail.Ended?
    ensures ToldInRun(c, run, script, e)
  {
  }
}
