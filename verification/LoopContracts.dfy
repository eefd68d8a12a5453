/** Typed contracts of the browser operation boundary: what the ports may answer and what the loop reports. */
module LoopContracts {
  import opened Outcomes
  import opened AttemptStore

  /** How a runtime call can raise: the two browser-runtime errors the loop tells apart, and anything else. */
  datatype Raise = Stale | Runtime(effectMayHaveStarted: bool) | Other

  /** The loop answers exactly these by observing again and trying once more. */
  predicate Retryable(r: Raise) {
    r.Stale? || r == Runtime(false)
  }

  predicate IsWrite(effect: Effect) {
    effect.InternalWrite? || effect.ExternalWrite?
  }

  datatype RunContext = RunContext(runId: string, taskId: string, stepId: string, packId: Option<string>,
                                   packVersion: Option<string>, capabilityId: Option<string>)

  datatype RawObservation = RawObservation(url: string, pageHtml: string, capturedAt: real)

  datatype Observation = Observation(id: string, snapshotHash: string, sequence: nat, capturedAt: real)

  datatype Action = Action(kind: string, operation: string, payload: string)

  datatype DecisionKind = ActionKind | SuccessKind | FailureKind

  datatype DecisionSource = DomainPack | Model

  /** Only an action decision carries an action. */
  datatype Decision =
    | Act(observationId: string, action: Action, reasonCode: string)
    | Succeed(observationId: string, reasonCode: string)
    | GiveUp(observationId: string, reasonCode: string)
  {
    function Kind(): DecisionKind {
      match this
      case Act(_, _, _) => ActionKind
      case Succeed(_, _) => SuccessKind
      case GiveUp(_, _) => FailureKind
    }
  }

  datatype Authorization = Authorization(permitId: string, fingerprint: string, observationHash: string,
                                         idempotencyKey: string, effect: Effect)

  datatype PolicyDisposition = AllowAction | DenyAction | RequireApproval | Reobserve

  /** Only an allowed action carries authority, and only an approval pause carries an approval reference. */
  datatype Policy =
    | Allow(reasonCode: string, authorization: Authorization, profile: Profile)
    | Deny(reasonCode: string)
    | AskApproval(reasonCode: string, approvalRef: string)
    | LookAgain(reasonCode: string)
  {
    function Disposition(): PolicyDisposition {
      match this
      case Allow(_, _, _) => AllowAction
      case Deny(_) => DenyAction
      case AskApproval(_, _) => RequireApproval
      case LookAgain(_) => Reobserve
    }
  }

  datatype Command = Command(action: Action, fingerprint: string, observationId: string, expectedSnapshotHash: string,
                             authorization: Authorization, profile: Profile)

  /** A result is pending a probe exactly when it carries an execution checkpoint. */
  datatype ActionResult = ActionResult(completed: bool, effectMayHaveStarted: bool, detailCode: string,
                                       checkpoint: Option<Checkpoint>)

  datatype ExecuteOutcome = Returned(result: ActionResult) | Raised(error: Raise)

  datatype VerifyDisposition = Succeeded | Continue | Retry | Disproved | Unclear

  datatype Verification = Verification(disposition: VerifyDisposition, reasonCode: string, evidenceCount: nat)

  datatype LoopStatus = SUCCEEDED | FAILED | UNKNOWN | AWAITING_APPROVAL

  datatype LoopConfig = LoopConfig(maxIterations: nat, maxRetries: nat, maxObservationAge: real)

  /** Keyed hashes the loop binds observations and actions with. */
  datatype LoopHashes = LoopHashes(observation: (string, string) -> string, snapshot: (string, string) -> string,
                                   fingerprint: (string, string, Action, string) -> string)

  datatype PackBinding = PackBinding(packId: string, packVersion: string, capabilityIds: set<string>)

  /**
    What a loop is built with; `reopen` says whether the executor's fault hook may raise the errors the loop retries.
  */
  datatype Setup = Setup(config: LoopConfig, hashes: LoopHashes, domain: Option<PackBinding>, reopen: bool)

  /** What an event says, by stage. */
  datatype Detail =
    | Observed(sequence: nat)
    | Decided(kind: DecisionKind, source: DecisionSource)
    | PolicyDecided(disposition: PolicyDisposition)
    | Started(actionKind: string, effect: Effect, source: DecisionSource)
    | Completed(completed: bool)
    | Verified(outcome: VerifyDisposition, evidenceCount: nat)
    | Ended(status: LoopStatus)

  datatype Stage =
    | ObservationStage | DecisionStage | PolicyStage | StartStage
    | CompletionStage | VerificationStage | TerminalStage

  function StageOf(detail: Detail): Stage {
    match detail
    case Observed(_) => ObservationStage
    case Decided(_, _) => DecisionStage
    case PolicyDecided(_) => PolicyStage
    case Started(_, _, _) => StartStage
    case Completed(_) => CompletionStage
    case Verified(_, _) => VerificationStage
    case Ended(_) => TerminalStage
  }

  datatype Event = Event(sequence: nat, run: RunContext, code: string, observationId: Option<string>,
                         fingerprint: Option<string>, detail: Detail)

  datatype Report = Report(run: RunContext, status: LoopStatus, reasonCode: string, iterations: nat, retriesUsed: nat,
                           observations: nat, actionsExecuted: nat, lastObservationId: Option<string>,
                           approvalRef: Option<string>, checkpoint: Option<Checkpoint>, events: seq<Event>)

  /**
    What the ports other than the runtime's `execute` answer in one iteration, where each is asked at most once.
    `None` is an exception, and the sink refuses the events of the stages in `refuses`.
  */
  datatype Answers = Answers(pack: Option<Option<Decision>>, inputFor: Option<string>, model: Option<Decision>,
                             policy: Option<Policy>,
                             now: real, page: Option<RawObservation>, verification: Option<Verification>,
                             refuses: set<Stage>)
  {
    predicate Accepts(detail: Detail) {
      StageOf(detail) !in refuses
    }
  }

  /** What comes of the runtime call of an iteration; `reached` says whether the durable executor called the browser. */
  datatype CallAnswer = CallAnswer(outcome: ExecuteOutcome, reached: bool)

  datatype Round = Round(ports: Answers, call: CallAnswer)

  /**
    The executor's promise: a call that reached the browser returns awaiting its probe, or raises what only its hook may
    make retryable.
  */
  predicate Promised(reopen: bool, outcome: ExecuteOutcome) {
    match outcome
    case Returned(result) => result.checkpoint.Some? && result.effectMayHaveStarted
    case Raised(error) => Retryable(error) ==> reopen
  }
}
