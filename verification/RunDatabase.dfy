/** The rows an Agent Run command reads and writes, and the public projection computed from them. */
module RunDatabase {
  import opened Outcomes
  import opened PlanJournal

  /** Native task and step statuses, as far as commands tell them apart. */
  datatype NativeStatus =
    | NativeCreated | NativeRunning | NativeResuming | NativePendingApproval | NativePendingProbe | NativeCompleted
    | NativeCanceled | NativeOther

  datatype NativeStep = NativeStep(taskId: string, status: NativeStatus)

  datatype PendingStatus = PendingDecision | PendingApproved | PendingRejected | PendingExpired | PendingInvalidated

  datatype PendingRow = PendingRow(taskId: string, stepId: string, status: PendingStatus, approvalId: Option<string>,
                                   rowVersion: nat, expiresAt: int)

  datatype ApprovalStatus = Undecided | ApprovalGranted | ApprovalDenied | ApprovalOther

  datatype ApprovalRow = ApprovalRow(taskId: string, status: ApprovalStatus, requester: Option<string>)

  datatype AttemptRowStatus = AttemptUnknown | AttemptConfirmed | AttemptOther

  datatype AttemptRow = AttemptRow(taskId: string, stepId: string, contractId: string, fingerprint: string,
                                   observationHash: string, status: AttemptRowStatus)

  datatype PermitRow = PermitRow(taskId: string, stepId: string, contractId: string, fingerprint: string,
                                 observationHash: string, consumed: bool)

  /** What loading the run's root and admission finds. */
  datatype RootRow = NoRoot | UntrustedRoot | NoAdmission | MismatchedAdmission | TrustedRoot

  /** One run's rows; pending actions are named by their position. */
  datatype Db = Db(root: RootRow, tasks: map<string, NativeStatus>, steps: map<string, NativeStep>,
                   pendings: seq<PendingRow>,
                   approvals: map<string, ApprovalRow>, attempts: map<string, AttemptRow>,
                   permits: map<string, PermitRow>, journal: seq<Event>)

  datatype ServiceError =
    | RunNotFound | StateConflict | IllegalAction | EffectBoundaryCrossed
    | ApprovalRefused | PauseRefused | AppendRefused
                        | CoordinationRefused | AdapterUnavailable

  datatype PublicState = PLANNING | AWAITING_APPROVAL | RUNNING | UNKNOWN | SUCCEEDED | REJECTED | CANCELLED | FAILED

  datatype PublicAction = Approve | Reject | Probe | Cancel

  datatype RunProjection = RunProjection(state: PublicState, actions: seq<PublicAction>, completed: nat, total: nat,
                                         reason: Option<string>)

  /** An approval request belongs to at most one pending action. */
  ghost predicate UniqueApprovals(db: Db) {
    forall i, j :: 0 <= i < j < |db.pendings| && db.pendings[i].approvalId.Some? ==>
      db.pendings[i].approvalId != db.pendings[j].approvalId
  }

  /** The rows every command starts from; loading them fails closed. */
  function Load(h: Hashes, db: Db): Result<Checkpoint, ServiceError> {
    match db.root
    case NoRoot => Refused(RunNotFound)
    case UntrustedRoot => Refused(StateConflict)
    case NoAdmission => Refused(RunNotFound)
    case MismatchedAdmission => Refused(StateConflict)
    case TrustedRoot => if Accepts(h, db.journal) then Ok(Restored(db.journal)) else Refused(StateConflict)
  }

  /** Both native rows of a step, neither, or an inconsistent half. */
  function NativePair(db: Db, s: StepRef): Result<Option<(NativeStatus, NativeStatus)>, ServiceError> {
    var task := s.nativeTaskId in db.tasks;
    var step := s.nativeStepId in db.steps && db.steps[s.nativeStepId].taskId == s.nativeTaskId;
    if task != step then Refused(StateConflict)
    else if task then Ok(Some((db.tasks[s.nativeTaskId], db.steps[s.nativeStepId].status)))
    else Ok(None)
  }

  predicate PairIs(db: Db, s: StepRef, status: NativeStatus) {
    NativePair(db, s) == Ok(Some((status, status)))
  }

  function RowsOf(rows: seq<PendingRow>, taskId: string, stepId: string): seq<nat> {
    if rows == [] then []
    else
      var n := |rows| - 1;
      RowsOf(rows[..n], taskId, stepId) + if rows[n].taskId == taskId && rows[n].stepId == stepId then [n] else []
  }

  lemma {:induction false} RowsOfAreRows(rows: seq<PendingRow>, taskId: string, stepId: string)
    ensures forall i :: i in RowsOf(rows, taskId, stepId) <==>
        0 <= i < |rows| && rows[i].taskId == taskId && rows[i].stepId == stepId
  {
    if rows != [] {
      RowsOfAreRows(rows[..|rows| - 1], taskId, stepId);
    }
  }

  /** Only the task and step of a row decide where it is found. */
  lemma {:induction false} RowsOfIgnoresDecisions(rows: seq<PendingRow>, rows': seq<PendingRow>, taskId: string,
                                                  stepId: string)
    requires |rows| == |rows'|
             && forall i :: 0 <= i < |rows| ==> rows[i].taskId == rows'[i].taskId && rows[i].stepId == rows'[i].stepId
    ensures RowsOf(rows, taskId, stepId) == RowsOf(rows', taskId, stepId)
  {
    if rows != [] {
      RowsOfIgnoresDecisions(rows[..|rows| - 1], rows'[..|rows| - 1], taskId, stepId);
    }
  }

  datatype PendingApproval = PendingApproval(row: nat, approvalId: string)

  /** The one pending action of the active step with its approval request, if it ever had one. */
  function FindPending(db: Db, c: Checkpoint): Result<Option<PendingApproval>, ServiceError> {
    if c.activeStep.None? then Ok(None)
    else
      var s := c.activeStep.value;
      var rows := RowsOf(db.pendings, s.nativeTaskId, s.nativeStepId);
      if rows == [] then Ok(None)
      else
        RowsOfAreRows(db.pendings, s.nativeTaskId, s.nativeStepId);
        var i := rows[0];
        assert i in rows;
        if |rows| != 1 || !db.pendings[i].approvalId.Some? || db.pendings[i].approvalId.value == ""
        then Refused(StateConflict)
        else
          var a := db.pendings[i].approvalId.value;
          if a !in db.approvals || db.approvals[a].taskId != db.pendings[i].taskId then Refused(StateConflict)
          else Ok(Some(PendingApproval(i, a)))
  }

  predicate HasAttempts(db: Db, taskId: string) {
    exists a :: a in db.attempts && db.attempts[a].taskId == taskId
  }

  predicate HasPermits(db: Db, taskId: string) {
    exists p :: p in db.permits && db.permits[p].taskId == taskId
  }

  predicate HasConsumedPermit(db: Db, taskId: string) {
    exists p :: p in db.permits && db.permits[p].taskId == taskId && db.permits[p].consumed
  }

  /** Nothing was ever attempted on the task: no attempt of any status and no consumed permit. */
  predicate NoEffectStarted(db: Db, taskId: string) {
    !HasAttempts(db, taskId) && !HasConsumedPermit(db, taskId)
  }

  predicate EffectMayHaveStarted(db: Db, c: Checkpoint) {
    c.activeStep.Some? && !NoEffectStarted(db, c.activeStep.value.nativeTaskId)
  }

  /** The blocked step's own attempt is UNKNOWN and its permit consumed, on the same action and observation. */
  predicate ExactBlock(db: Db, s: StepRef) {
    && s.attemptId.Some? && s.attemptId.value in db.attempts && s.permitId.Some? && s.permitId.value in db.permits
    && db.attempts[s.attemptId.value].taskId == s.nativeTaskId && db.attempts[s.attemptId.value].status.AttemptUnknown?
    && db.permits[s.permitId.value].taskId == s.nativeTaskId && db.permits[s.permitId.value].consumed
    && db.attempts[s.attemptId.value].fingerprint == db.permits[s.permitId.value].fingerprint
    && db.attempts[s.attemptId.value].observationHash == db.permits[s.permitId.value].observationHash
  }

  function StepCount(c: Checkpoint): nat {
    |c.completedPrefix| + (if c.activeStep.Some? then 1 else 0) + |c.remainingSuffix|
  }

  /** A projection of the run's progress with the given state and offers. */
  function Shown(c: Checkpoint, state: PublicState, actions: seq<PublicAction>, reason: Option<string>): RunProjection {
    RunProjection(state, actions, |c.completedPrefix|, StepCount(c), reason)
  }

  function Conflict(c: Checkpoint): RunProjection {
    Shown(c, PublicState.FAILED, [], Some("STATE_CONFLICT"))
  }

  predicate DecidedAs(db: Db, found: Option<PendingApproval>, pending: PendingStatus, approval: ApprovalStatus) {
    found.Some? && found.value.row < |db.pendings| && found.value.approvalId in db.approvals
    && db.pendings[found.value.row].status == pending && db.approvals[found.value.approvalId].status == approval
  }

  predicate Working(status: NativeStatus) {
    status.NativeCreated? || status.NativeRunning? || status.NativeResuming?
  }

  /**
    What the public may see of a run whose active step is `s`, from its native rows, its pending action and its effects.
  */
  function ProjectActive(db: Db, c: Checkpoint, s: StepRef, latest: Transition,
                         pair: Option<(NativeStatus, NativeStatus)>,
                         found: Option<PendingApproval>): RunProjection {
    if c.state.PROBE_BLOCKED? then
      if pair == Some((NativePendingProbe, NativePendingProbe)) && ExactBlock(db, s)
      then Shown(c, UNKNOWN, [Probe], Some("RESULT_UNCERTAIN")) else Conflict(c)
    else if latest.ApprovalRejected? then
      if c.state.REJECTED? && pair == Some((NativeCanceled, NativeCanceled))
         && DecidedAs(db, found, PendingRejected, ApprovalDenied)
         && NoEffectStarted(db, s.nativeTaskId)
      then Shown(c, PublicState.REJECTED, [], Some("APPROVAL_REJECTED")) else Conflict(c)
    else if latest.RunCancelled? then
      if c.state.CANCELLED? && pair == Some((NativeCanceled, NativeCanceled)) && NoEffectStarted(db, s.nativeTaskId)
      then Shown(c, PublicState.CANCELLED, [], Some("RUN_CANCELLED")) else Conflict(c)
    else if c.state.APPROVAL_REQUIRED? then
      if pair == Some((NativePendingApproval, NativePendingApproval))
         && DecidedAs(db, found, PendingDecision, Undecided)
         && !HasAttempts(db, s.nativeTaskId) && !HasPermits(db, s.nativeTaskId)
      then Shown(c, AWAITING_APPROVAL, [Approve, Reject], None)
      else if found.Some? && found.value.row < |db.pendings| && db.pendings[found.value.row].status.PendingApproved?
      then Shown(c, RUNNING, [], Some("APPROVAL_RECORDED"))
      else Conflict(c)
    else if c.state.ACTIVE? then
      if pair.None? && latest.Admitted? then Shown(c, PLANNING, [Cancel], None)
      else if pair.Some? && Working(pair.value.0) && Working(pair.value.1) && NoEffectStarted(db, s.nativeTaskId)
      then Shown(c, RUNNING, if pair.value.0.NativeResuming? then [] else [Cancel], None)
      else Conflict(c)
    else Conflict(c)
  }

  /** The public projection of a run at checkpoint `c`; it may itself be refused. */
  function ProjectFrom(db: Db, c: Checkpoint, latest: Transition): Result<RunProjection, ServiceError> {
    if c.state.COMPLETED? && c.activeStep.None? then Ok(Shown(c, SUCCEEDED, [], None))
    else if c.activeStep.None? then Ok(Conflict(c))
    else match NativePair(db, c.activeStep.value)
      case Refused(error) => Refused(error)
      case Ok(pair) =>
        match FindPending(db, c)
        case Refused(error) => Refused(error)
        case Ok(found) => Ok(ProjectActive(db, c, c.activeStep.value, latest, pair, found))
  }

  /** The public projection of a run without a pause record. */
  function Project(h: Hashes, db: Db): Result<RunProjection, ServiceError> {
    match Load(h, db)
    case Refused(error) => Refused(error)
    case Ok(c) => ProjectFrom(db, c, Last(db.journal).transition)
  }

  // ----- What the native store demands of a checkpoint before it is journaled --

  predicate AttemptIdentityOk(db: Db, s: StepRef, status: AttemptRowStatus) {
    (s.attemptId.None? && s.permitId.None?)
    || (s.attemptId.Some? && s.permitId.Some? && s.attemptId.value in db.attempts && s.permitId.value in db.permits
        && var attempt, permit := db.attempts[s.attemptId.value], db.permits[s.permitId.value];
           && (attempt.taskId, attempt.stepId, attempt.contractId)
                == (s.nativeTaskId, s.nativeStepId, s.nativeContractId)
           && attempt.status == status
           && (permit.taskId, permit.stepId, permit.contractId) == (s.nativeTaskId, s.nativeStepId, s.nativeContractId)
           && permit.consumed)
  }

  /** What a transition demands of the active step's native rows. */
  predicate ActiveNativeOk(db: Db, s: StepRef, t: Transition) {
    && NativePair(db, s).Ok? && NativePair(db, s).value.Some?
    && match t
       case ProbeBlocked =>
         && PairIs(db, s, NativePendingProbe)
         && s.attemptId.Some? && s.attemptId.value != "" && s.permitId.Some? && s.permitId.value != ""
         && AttemptIdentityOk(db, s, AttemptUnknown)
       case ApprovalRequired => PairIs(db, s, NativePendingApproval)
       case ApprovalResumed => PairIs(db, s, NativeResuming)
       case ApprovalRejected => PairIs(db, s, NativeCanceled)
       case RunCancelled => PairIs(db, s, NativeCanceled)
       case _ => true
  }

  /** What the native store demands of every step but the active one, whatever the transition. */
  predicate OthersOk(db: Db, c: Checkpoint) {
    && (forall i :: 0 <= i < |c.completedPrefix| ==>
          PairIs(db, c.completedPrefix[i], NativeCompleted)
              && AttemptIdentityOk(db, c.completedPrefix[i], AttemptConfirmed))
    && (forall i :: 0 <= i < |c.remainingSuffix| ==> NativePair(db, c.remainingSuffix[i]) == Ok(None))
    && (forall i :: 0 <= i < |c.supersededSuffix| ==>
          NativePair(db, c.supersededSuffix[i]) == Ok(None) || PairIs(db, c.supersededSuffix[i], NativeCanceled))
  }

  predicate NativeOk(db: Db, c: Checkpoint, t: Transition) {
    OthersOk(db, c) && (c.activeStep.Some? ==> ActiveNativeOk(db, c.activeStep.value, t))
  }

  // ----- What the public projection guarantees -------------------------------

  /** The four possible offers, each with the states it goes with. */
  predicate OfferFits(p: RunProjection) {
    match p.state
    case AWAITING_APPROVAL => p.actions == [Approve, Reject]
    case UNKNOWN => p.actions == [Probe]
    case PLANNING => p.actions == [Cancel]
    case RUNNING => p.actions == [Cancel] || p.actions == []
    case _ => p.actions == []
  }

  /**
    What is offered is exactly one of the four sets, decided by the state but for a running task that may be resuming.
  */
  lemma OffersFollowTheState(db: Db, c: Checkpoint, latest: Transition)
    requires ProjectFrom(db, c, latest).Ok?
    ensures OfferFits(ProjectFrom(db, c, latest).value)
    ensures ProjectFrom(db, c, latest).value.completed <= ProjectFrom(db, c, latest).value.total
  {
    if c.activeStep.Some? {
      OffersOfActive(db, c, c.activeStep.value, latest, NativePair(db, c.activeStep.value).value,
                     FindPending(db, c).value);
    }
  }

  lemma OffersOfActive(db: Db, c: Checkpoint, s: StepRef, latest: Transition,
                       pair: Option<(NativeStatus, NativeStatus)>, found: Option<PendingApproval>)
    ensures OfferFits(ProjectActive(db, c, s, latest, pair, found))
    ensures ProjectActive(db, c, s, latest, pair, found).completed <= ProjectActive(db, c, s, latest, pair, found).total
  {
  }

  /** The run waits for a decision on `f`, and nothing was authorized for its step yet. */
  predicate AwaitsDecision(db: Db, c: Checkpoint, f: PendingApproval) {
    && c.state.APPROVAL_REQUIRED? && c.activeStep.Some? && PairIs(db, c.activeStep.value, NativePendingApproval)
    && FindPending(db, c) == Ok(Some(f)) && DecidedAs(db, Some(f), PendingDecision, Undecided)
    && !HasAttempts(db, c.activeStep.value.nativeTaskId) && !HasPermits(db, c.activeStep.value.nativeTaskId)
  }

  /** The last event's transition and the restored checkpoint always fit. */
  lemma HeadFits(h: Hashes, db: Db)
    requires Load(h, db).Ok?
    ensures TransitionOk(Last(db.journal).transition, Restored(db.journal))
  {
    assert TransitionOk(Last(db.journal).transition, Last(db.journal).checkpoint);
  }

  lemma ActiveOffersDecision(db: Db, c: Checkpoint, s: StepRef, latest: Transition,
                             pair: Option<(NativeStatus, NativeStatus)>, found: Option<PendingApproval>)
    requires TransitionOk(latest, c)
    ensures var p := ProjectActive(db, c, s, latest, pair, found);
            && (Reject in p.actions <==> p.state.AWAITING_APPROVAL?)
            && (p.state.AWAITING_APPROVAL? <==>
                  c.state.APPROVAL_REQUIRED? && pair == Some((NativePendingApproval, NativePendingApproval))
                      && DecidedAs(db, found, PendingDecision, Undecided)
                  && !HasAttempts(db, s.nativeTaskId) && !HasPermits(db, s.nativeTaskId))
  {
  }

  /** Approval and rejection are offered exactly while the run waits for a decision. */
  lemma ApprovalIsOfferedWhileAwaited(db: Db, c: Checkpoint, latest: Transition)
    requires TransitionOk(latest, c)
    ensures var p := ProjectFrom(db, c, latest);
            && ((p.Ok? && p.value.state.AWAITING_APPROVAL?) <==>
                (FindPending(db, c).Ok? && FindPending(db, c).value.Some?
                 && AwaitsDecision(db, c, FindPending(db, c).value.value)))
            && (p.Ok? ==> (Reject in p.value.actions <==> p.value.state.AWAITING_APPROVAL?))
  {
    if c.activeStep.Some? && NativePair(db, c.activeStep.value).Ok? && FindPending(db, c).Ok? {
      ActiveOffersDecision(db, c, c.activeStep.value, latest, NativePair(db, c.activeStep.value).value,
                           FindPending(db, c).value);
    }
  }

  /** A working run with no effect behind it, not just resumed after an approval. */
  predicate MayStop(db: Db, c: Checkpoint) {
    && c.state.ACTIVE? && c.activeStep.Some? && FindPending(db, c).Ok?
    && NativePair(db, c.activeStep.value).Ok? && NativePair(db, c.activeStep.value).value.Some?
    && Working(NativePair(db, c.activeStep.value).value.value.0)
    && Working(NativePair(db, c.activeStep.value).value.value.1)
    && !NativePair(db, c.activeStep.value).value.value.0.NativeResuming?
    && NoEffectStarted(db, c.activeStep.value.nativeTaskId)
  }

  predicate StillPlanning(db: Db, c: Checkpoint, latest: Transition) {
    c.state.ACTIVE? && c.activeStep.Some? && FindPending(db, c).Ok? && NativePair(db, c.activeStep.value) == Ok(None)
        && latest.Admitted?
  }

  lemma ActiveOffersCancellation(db: Db, c: Checkpoint, s: StepRef, latest: Transition,
                                 pair: Option<(NativeStatus, NativeStatus)>, found: Option<PendingApproval>)
    requires TransitionOk(latest, c)
    ensures var p := ProjectActive(db, c, s, latest, pair, found);
            && (p.state.PLANNING? <==> c.state.ACTIVE? && pair.None? && latest.Admitted?)
            && (Cancel in p.actions <==>
                  && c.state.ACTIVE?
                  && (if pair.None? then latest.Admitted?
                      else
                        && Working(pair.value.0) && Working(pair.value.1) && !pair.value.0.NativeResuming?
                        && NoEffectStarted(db, s.nativeTaskId)))
  {
  }

  /**
    Cancellation is offered exactly to a working run with no effect behind it, and while the run is still being planned.
  */
  lemma CancellationIsOfferedBeforeEffects(db: Db, c: Checkpoint, latest: Transition)
    requires TransitionOk(latest, c)
    ensures var p := ProjectFrom(db, c, latest);
            && ((p.Ok? && p.value.state.PLANNING?) <==> StillPlanning(db, c, latest))
            && ((p.Ok? && Cancel in p.value.actions) <==> MayStop(db, c) || StillPlanning(db, c, latest))
  {
    if c.activeStep.Some? && NativePair(db, c.activeStep.value).Ok? && FindPending(db, c).Ok? {
      ActiveOffersCancellation(db, c, c.activeStep.value, latest, NativePair(db, c.activeStep.value).value,
                               FindPending(db, c).value);
    }
  }

  /** Once an effect may have started, a run that has left planning offers nothing but the probe. */
  lemma EffectsLeaveOnlyTheProbe(db: Db, c: Checkpoint, latest: Transition)
    requires TransitionOk(latest, c) && ProjectFrom(db, c, latest).Ok? && EffectMayHaveStarted(db, c)
    ensures var p := ProjectFrom(db, c, latest).value; p.actions == [] || p.actions == [Probe] || p.state.PLANNING?
  {
    ApprovalIsOfferedWhileAwaited(db, c, latest);
    CancellationIsOfferedBeforeEffects(db, c, latest);
    OffersFollowTheState(db, c, latest);
    var task := c.activeStep.value.nativeTaskId;
    if HasConsumedPermit(db, task) {
      assert HasPermits(db, task);
    }
  }

  /** The canceled rows and the record that a closed run shows. */
  lemma ClosedRunsShow(db: Db, c: Checkpoint, latest: Transition)
    requires TransitionOk(latest, c) && c.activeStep.Some? && PairIs(db, c.activeStep.value, NativeCanceled)
    requires FindPending(db, c).Ok? && !EffectMayHaveStarted(db, c)
    ensures latest.RunCancelled? ==> ProjectFrom(db, c, latest).Ok? && ProjectFrom(db, c, latest).value.state.CANCELLED?
    ensures latest.ApprovalRejected? && DecidedAs(db, FindPending(db, c).value, PendingRejected, ApprovalDenied) ==>
              ProjectFrom(db, c, latest).Ok? && ProjectFrom(db, c, latest).value.state.REJECTED?
  {
  }
}
