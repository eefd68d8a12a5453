/** Each command of an Agent Run as a function from the committed rows to the rows after commit, and where it leads. */
module RunTransactions {
  import opened Outcomes
  import opened PlanJournal
  import opened Coordinator
  import opened RunDatabase
  import opened RunLifecycle

  // ----- Row changes ---------------------------------------------------------

  function WithNative(db: Db, s: StepRef, status: NativeStatus): Db {
    db.(tasks := db.tasks[s.nativeTaskId := status],
        steps := db.steps[s.nativeStepId := NativeStep(s.nativeTaskId, status)])
  }

  function Decided(db: Db, f: PendingApproval, granted: bool): Db
    requires f.row < |db.pendings| && f.approvalId in db.approvals
  {
    var pending := db.pendings[f.row].(status := if granted then PendingApproved else PendingRejected,
                                       rowVersion := db.pendings[f.row].rowVersion + 1);
    var approval := db.approvals[f.approvalId].(status := if granted then ApprovalGranted else ApprovalDenied);
    db.(pendings := db.pendings[f.row := pending], approvals := db.approvals[f.approvalId := approval])
  }

  /**
    A decision on an undecided request by someone other than its requester, while its pending action is open and not
    expired.
  */
  predicate MayDecide(db: Db, f: PendingApproval, approver: string, now: int) {
    && f.approvalId in db.approvals && f.row < |db.pendings|
    && db.approvals[f.approvalId].status.Undecided? && db.approvals[f.approvalId].requester != Some(approver)
    && db.pendings[f.row].status.PendingDecision? && now <= db.pendings[f.row].expiresAt
  }

  /** An approved action is spent and its step may be resumed; the stored action itself never runs. */
  function Resumed(db: Db, f: PendingApproval, s: StepRef): Db
    requires f.row < |db.pendings|
  {
    var spent := db.pendings[f.row].(status := PendingInvalidated, rowVersion := db.pendings[f.row].rowVersion + 1);
    WithNative(db.(pendings := db.pendings[f.row := spent]), s, NativeResuming)
  }

  /** A request to pause for approval; `correlated` says whether its references agree with the admitted run. */
  datatype PauseRequest = PauseRequest(taskId: string, stepId: string, contractId: string, approvalId: string,
                                       requester: Option<string>,
                                       expiresAt: int, correlated: bool)

  function Paused(db: Db, p: PauseRequest, s: StepRef): Db {
    var row := PendingRow(p.taskId, p.stepId, PendingDecision, Some(p.approvalId), 2, p.expiresAt);
    WithNative(db.(pendings := db.pendings + [row],
                   approvals := db.approvals[p.approvalId := ApprovalRow(p.taskId, Undecided, p.requester)]),
               s, NativePendingApproval)
  }

  // ----- The transactions ----------------------------------------------------

  /** The step every command ends with: the native store checks the checkpoint, and the event joins the rows. */
  function JournalTx(h: Hashes, rows: Db, c: Checkpoint, t: Transition, key: string, now: int): Option<Db> {
    if rows.journal != [] && NativeOk(rows, c, t) then Some(Journaled(h, rows, RequestFrom(rows, c, t, key), now))
      else None
  }

  /** Stops a working run with no effect behind it. */
  function CancelTx(h: Hashes, db: Db, key: string, now: int): Option<Db> {
    if Load(h, db).Refused? then None
    else
      var c := Restored(db.journal);
      if !MayStop(db, c) then None
      else JournalTx(h, WithNative(db, c.activeStep.value, NativeCanceled), Closing(c, RunState.CANCELLED),
                     RunCancelled, key, now)
  }

  /** The pending action and approval request of the active step, when there is exactly one and it is linked. */
  function ApprovalOf(db: Db, c: Checkpoint): Option<PendingApproval> {
    match FindPending(db, c)
    case Ok(f) => f
    case Refused(_) => None
  }

  /** Denies the awaited request and stops the run. */
  function RejectTx(h: Hashes, db: Db, approver: string, key: string, now: int): Option<Db> {
    if Load(h, db).Refused? || ApprovalOf(db, Restored(db.journal)).None? then None
    else
      var c := Restored(db.journal);
      var f := ApprovalOf(db, c).value;
      if !AwaitsDecision(db, c, f) || !MayDecide(db, f, approver, now) then None
      else JournalTx(h, WithNative(Decided(db, f, false), c.activeStep.value, NativeCanceled),
                     Closing(c, RunState.REJECTED), ApprovalRejected, key, now)
  }

  /** The rows an approval resumes from: decided by this command, or already approved when it came. */
  function StandingApproval(h: Hashes, db: Db, approver: string, now: int): Option<Db>
    requires Load(h, db).Ok? && ApprovalOf(db, Restored(db.journal)).Some?
  {
    var c := Restored(db.journal);
    var f := ApprovalOf(db, c).value;
    if AwaitsDecision(db, c, f) then (if MayDecide(db, f, approver, now) then Some(Decided(db, f, true)) else None)
    else if Project(h, db).Ok? && DecidedAs(db, Some(f), PendingApproved, ApprovalGranted) then Some(db)
    else None
  }

  /** Spends the approval and makes the step resumable. */
  function ApproveTx(h: Hashes, db: Db, approver: string, key: string, now: int): Option<Db> {
    if Load(h, db).Refused? || ApprovalOf(db, Restored(db.journal)).None? then None
    else
      var c := Restored(db.journal);
      var rows := StandingApproval(h, db, approver, now);
      if rows.None? || c.activeStep.None? || !PairIs(db, c.activeStep.value, NativePendingApproval) then None
      else
        ApprovalNamesARow(db, c);
        JournalTx(h, Resumed(rows.value, ApprovalOf(db, c).value, c.activeStep.value), c.(state := ACTIVE),
                  ApprovalResumed, key, now)
  }

  lemma ApprovalNamesARow(db: Db, c: Checkpoint)
    ensures ApprovalOf(db, c).Some? ==>
              var f := ApprovalOf(db, c).value;
              c.activeStep.Some? && f.row < |db.pendings| && f.approvalId in db.approvals
                  && db.pendings[f.row].approvalId == Some(f.approvalId)
  {
    if c.activeStep.Some? {
      RowsOfAreRows(db.pendings, c.activeStep.value.nativeTaskId, c.activeStep.value.nativeStepId);
    }
  }

  predicate PauseMatches(s: StepRef, p: PauseRequest) {
    (s.nativeTaskId, s.nativeStepId, s.nativeContractId) == (p.taskId, p.stepId, p.contractId) && p.correlated
  }

  /** An unresolved pending action blocks another pause on the same step. */
  predicate HasOpenPending(db: Db, taskId: string, stepId: string) {
    exists i :: 0 <= i < |db.pendings| && db.pendings[i].taskId == taskId && db.pendings[i].stepId == stepId
                && (db.pendings[i].status.PendingDecision? || db.pendings[i].status.PendingApproved?)
  }

  predicate ApprovalIdFresh(db: Db, approvalId: string) {
    approvalId != "" && approvalId !in db.approvals
    && forall i :: 0 <= i < |db.pendings| ==> db.pendings[i].approvalId != Some(approvalId)
  }

  function PauseTx(h: Hashes, db: Db, p: PauseRequest, key: string, now: int): Option<Db> {
    if Load(h, db).Refused? || Restored(db.journal).activeStep.None? then None
    else
      var c := Restored(db.journal);
      var s := c.activeStep.value;
      if !PauseMatches(s, p) || HasOpenPending(db, p.taskId, p.stepId) || !ApprovalIdFresh(db, p.approvalId)
        || !PairIs(db, s, NativeRunning) then None
      else JournalTx(h, Paused(db, p, s), c.(state := APPROVAL_REQUIRED), ApprovalRequired, key, now)
  }

  /** A result is reflected when the coordinator moves the run on it and the native rows already show it. */
  function ReflectTx(h: Hashes, db: Db, input: Input, key: string, now: int): Option<Db> {
    if Load(h, db).Refused? then None
    else
      var c := Restored(db.journal);
      if !Moves(c, input) then None
      else JournalTx(h, db, Translate(c, input).value.value.0, Translate(c, input).value.value.1, key, now)
  }

  datatype Command =
    | CancelCommand(key: string)
    | RejectCommand(approver: string, key: string)
    | ApproveCommand(approver: string, key: string)
    | PauseCommand(pause: PauseRequest, key: string)
    | ReflectCommand(input: Input, key: string)

  function Tx(h: Hashes, db: Db, command: Command, now: int): Option<Db> {
    match command
    case CancelCommand(key) => CancelTx(h, db, key, now)
    case RejectCommand(approver, key) => RejectTx(h, db, approver, key, now)
    case ApproveCommand(approver, key) => ApproveTx(h, db, approver, key, now)
    case PauseCommand(p, key) => PauseTx(h, db, p, key, now)
    case ReflectCommand(input, key) => ReflectTx(h, db, input, key, now)
  }

  /** The journal request a command makes of a run at checkpoint `c`. */
  function RequestOf(db: Db, command: Command): Request
    requires db.journal != []
  {
    var c := Restored(db.journal);
    match command
    case CancelCommand(key) =>
      RequestFrom(db, if c.activeStep.Some? then Closing(c, RunState.CANCELLED) else c, RunCancelled, key)
    case RejectCommand(_, key) =>
      RequestFrom(db, if c.activeStep.Some? then Closing(c, RunState.REJECTED) else c, ApprovalRejected, key)
    case ApproveCommand(_, key) => RequestFrom(db, c.(state := ACTIVE), ApprovalResumed, key)
    case PauseCommand(_, key) => RequestFrom(db, c.(state := APPROVAL_REQUIRED), ApprovalRequired, key)
    case ReflectCommand(input, key) =>
      if Moves(c, input) then RequestFrom(db, Translate(c, input).value.value.0, Translate(c, input).value.value.1, key)
      else RequestFrom(db, c, ChildCompleted, key)
  }

  // ----- Every command is a committed step -----------------------------------

  /** What journaling adds to the rows: one event, checked against rows it does not change. */
  lemma JournalingAddsOneEvent(h: Hashes, rows: Db, db': Db, r: Request, now: int)
    requires rows.journal != [] && r.authorityDigests == Last(rows.journal).authorityDigests
    requires JournalTx(h, rows, r.checkpoint, r.transition, r.operationKey, now) == Some(db')
    ensures db' == Journaled(h, rows, r, now) && NativeOk(db', r.checkpoint, r.transition)
    ensures UniqueApprovals(rows) ==> UniqueApprovals(db')
  {
    var c := r.checkpoint;
    assert forall s: StepRef :: NativePair(db', s) == NativePair(rows, s);
    forall i | 0 <= i < |c.completedPrefix|
      ensures PairIs(db', c.completedPrefix[i], NativeCompleted)
      ensures AttemptIdentityOk(db', c.completedPrefix[i], AttemptConfirmed)
    {
      assert PairIs(rows, c.completedPrefix[i], NativeCompleted)
          && AttemptIdentityOk(rows, c.completedPrefix[i], AttemptConfirmed);
    }
  }

  lemma CancelCommits(h: Hashes, db: Db, db': Db, key: string, now: int)
    requires UniqueApprovals(db) && CancelTx(h, db, key, now) == Some(db')
    ensures Committed(h, db, db', RequestOf(db, CancelCommand(key)), now)
  {
    var c := Restored(db.journal);
    HeadFits(h, db);
    CancellationIsOfferedBeforeEffects(db, c, Last(db.journal).transition);
    JournalingAddsOneEvent(h, WithNative(db, c.activeStep.value, NativeCanceled), db',
                           RequestOf(db, CancelCommand(key)), now);
  }

  lemma RejectCommits(h: Hashes, db: Db, db': Db, approver: string, key: string, now: int)
    requires UniqueApprovals(db) && RejectTx(h, db, approver, key, now) == Some(db')
    ensures Committed(h, db, db', RequestOf(db, RejectCommand(approver, key)), now)
  {
    var c := Restored(db.journal);
    HeadFits(h, db);
    ApprovalIsOfferedWhileAwaited(db, c, Last(db.journal).transition);
    JournalingAddsOneEvent(h, WithNative(Decided(db, ApprovalOf(db, c).value, false), c.activeStep.value,
                                         NativeCanceled), db',
                           RequestOf(db, RejectCommand(approver, key)), now);
  }

  lemma ApproveCommits(h: Hashes, db: Db, db': Db, approver: string, key: string, now: int)
    requires UniqueApprovals(db) && ApproveTx(h, db, approver, key, now) == Some(db')
    ensures Committed(h, db, db', RequestOf(db, ApproveCommand(approver, key)), now)
  {
    hide Accepts, ProjectFrom, EventFor, NativePair;
    var c := Restored(db.journal);
    ApprovalNamesARow(db, c);
    var rows := Resumed(StandingApproval(h, db, approver, now).value, ApprovalOf(db, c).value, c.activeStep.value);
    JournalingAddsOneEvent(h, rows, db', RequestOf(db, ApproveCommand(approver, key)), now);
  }

  lemma PauseCommits(h: Hashes, db: Db, db': Db, p: PauseRequest, key: string, now: int)
    requires UniqueApprovals(db) && PauseTx(h, db, p, key, now) == Some(db')
    ensures Committed(h, db, db', RequestOf(db, PauseCommand(p, key)), now)
  {
    JournalingAddsOneEvent(h, Paused(db, p, Restored(db.journal).activeStep.value), db',
                           RequestOf(db, PauseCommand(p, key)), now);
  }

  lemma ReflectCommits(h: Hashes, db: Db, db': Db, input: Input, key: string, now: int)
    requires UniqueApprovals(db) && ReflectTx(h, db, input, key, now) == Some(db')
    ensures Committed(h, db, db', RequestOf(db, ReflectCommand(input, key)), now)
  {
    var c := Restored(db.journal);
    TranslationFitsItsTransition(c, input);
    JournalingAddsOneEvent(h, db, db', RequestOf(db, ReflectCommand(input, key)), now);
    assert Enabled(h, db, RequestOf(db, ReflectCommand(input, key))) by {
      assert Translate(c, input) == Ok(Some((Translate(c, input).value.value.0, Translate(c, input).value.value.1)));
    }
  }

  lemma EveryCommandCommits(h: Hashes, db: Db, db': Db, command: Command, now: int)
    requires UniqueApprovals(db) && Tx(h, db, command, now) == Some(db')
    ensures Committed(h, db, db', RequestOf(db, command), now)
  {
    match command
    case CancelCommand(key) => CancelCommits(h, db, db', key, now);
    case RejectCommand(approver, key) => RejectCommits(h, db, db', approver, key, now);
    case ApproveCommand(approver, key) => ApproveCommits(h, db, db', approver, key, now);
    case PauseCommand(p, key) => PauseCommits(h, db, db', p, key, now);
    case ReflectCommand(input, key) => ReflectCommits(h, db, db', input, key, now);
  }

  /**
    Whatever command appends: the journal it leaves is one event longer, can be replayed exactly when the run was not
    over and the clock had not gone back, and replays to the checkpoint the command asked for.
  */
  lemma EveryAppendReplays(h: Hashes, db: Db, db': Db, command: Command, now: int)
    requires UniqueApprovals(db) && Tx(h, db, command, now) == Some(db')
    ensures |db'.journal| == |db.journal| + 1 && db.journal <= db'.journal
            && (Load(h, db').Ok? <==> !Terminal(Last(db.journal).transition) && Last(db.journal).createdAt <= now)
            && Restored(db'.journal) ==
               RequestOf(db, command).checkpoint.(journalSequence := |db'.journal|,
                                                  journalDigest := Last(db'.journal).digest)
  {
    EveryCommandCommits(h, db, db', command, now);
    CommittedEventReplays(h, db, db', RequestOf(db, command), now);
  }

  predicate Final(h: Hashes, db: Db) {
    Project(h, db).Ok? && (Project(h, db).value.state.SUCCEEDED? || Project(h, db).value.state.REJECTED?
                           || Project(h, db).value.state.CANCELLED?)
  }

  /**
    A run seen as SUCCEEDED, REJECTED or CANCELLED takes no further event, whatever is asked and whatever result still
    arrives.
  */
  lemma FinalRunsTakeNoCommand(h: Hashes, db: Db, command: Command, now: int)
    requires Final(h, db) && UniqueApprovals(db)
    ensures Tx(h, db, command, now).None?
  {
    var tx := Tx(h, db, command, now);
    if tx.Some? {
      EveryCommandCommits(h, db, tx.value, command, now);
      if Project(h, db).value.state.SUCCEEDED? {
        NothingFollowsSuccess(h, db, tx.value, RequestOf(db, command), now);
      } else {
        ClosedStatesAreShutDown(h, db);
        NothingFollowsShutdown(h, db, tx.value, RequestOf(db, command), now);
      }
      assert false;
    }
  }

  // ----- Where each command leads --------------------------------------------

  /** The pending action of a run is found the same way whatever was decided about it. */
  lemma FoundAgain(db: Db, db': Db, c: Checkpoint, c': Checkpoint)
    requires FindPending(db, c).Ok? && c.activeStep.Some? && c'.activeStep.Some?
    requires StepIdentity(c'.activeStep.value) == StepIdentity(c.activeStep.value)
    requires |db'.pendings| == |db.pendings|
    requires forall i :: 0 <= i < |db.pendings| ==>
               (db'.pendings[i].taskId, db'.pendings[i].stepId, db'.pendings[i].approvalId)
                   == (db.pendings[i].taskId, db.pendings[i].stepId, db.pendings[i].approvalId)
    requires forall a :: a in db.approvals ==> a in db'.approvals && db'.approvals[a].taskId == db.approvals[a].taskId
    ensures FindPending(db', c') == FindPending(db, c)
  {
    var s, s' := c.activeStep.value, c'.activeStep.value;
    assert StepIdentity(s).nativeTaskId == s.nativeTaskId == s'.nativeTaskId
        && StepIdentity(s).nativeStepId == s.nativeStepId == s'.nativeStepId;
    RowsOfIgnoresDecisions(db.pendings, db'.pendings, s.nativeTaskId, s.nativeStepId);
    RowsOfAreRows(db.pendings, s.nativeTaskId, s.nativeStepId);
  }

  lemma NoPermitsNoEffect(db: Db, taskId: string)
    requires !HasAttempts(db, taskId) && !HasPermits(db, taskId)
    ensures NoEffectStarted(db, taskId)
  {
  }

  lemma CanceledPairIsThere(db: Db, c: Checkpoint)
    requires MayStop(db, c)
    ensures var rows := WithNative(db, c.activeStep.value, NativeCanceled);
            NativeOk(rows, Closing(c, RunState.CANCELLED), RunCancelled) <==> OthersOk(rows, c)
  {
    var rows, closing := WithNative(db, c.activeStep.value, NativeCanceled), Closing(c, RunState.CANCELLED);
    assert PairIs(rows, closing.activeStep.value, NativeCanceled);
    assert OthersOk(rows, closing) <==> OthersOk(rows, c);
  }

  /**
    A cancellation that is offered goes through exactly when the run has left planning and the native store still
    vouches for every other step of it: completed ones with their confirmed attempts, remaining ones untouched,
    superseded ones untouched or canceled.
  */
  lemma WhenOfferedCancellationsCommit(h: Hashes, db: Db, key: string, now: int)
    requires Project(h, db).Ok? && Cancel in Project(h, db).value.actions
    ensures CancelTx(h, db, key, now).Some? <==>
              && !Project(h, db).value.state.PLANNING?
              && var c := Restored(db.journal);
                 c.activeStep.Some? && OthersOk(WithNative(db, c.activeStep.value, NativeCanceled), c)
  {
    var c := Restored(db.journal);
    HeadFits(h, db);
    CancellationIsOfferedBeforeEffects(db, c, Last(db.journal).transition);
    if MayStop(db, c) {
      CanceledPairIsThere(db, c);
    }
  }

  /**
    While a run is still being planned it offers cancellation, and cancelling it always fails: it has no native rows
    yet.
  */
  lemma PlanningRunsCannotBeCancelled(h: Hashes, db: Db, key: string, now: int)
    requires Project(h, db).Ok? && Project(h, db).value.state.PLANNING?
    ensures Project(h, db).value.actions == [Cancel] && CancelTx(h, db, key, now).None?
  {
    HeadFits(h, db);
    OffersFollowTheState(db, Restored(db.journal), Last(db.journal).transition);
    WhenOfferedCancellationsCommit(h, db, key, now);
  }

  lemma CancelledRowsShow(db: Db, c: Checkpoint, c': Checkpoint, db': Db)
    requires MayStop(db, c) && db'.(journal := db.journal) == WithNative(db, c.activeStep.value, NativeCanceled)
    requires c'.state.CANCELLED? && c'.activeStep == Closing(c, RunState.CANCELLED).activeStep
    ensures ProjectFrom(db', c', RunCancelled).Ok? && ProjectFrom(db', c', RunCancelled).value.state.CANCELLED?
  {
    FoundAgain(db, db', c, c');
    ClosedRunsShow(db', c', RunCancelled);
  }

  /** A cancelled run projects to CANCELLED as long as the clock did not go back; else it can no longer be read. */
  lemma CancelledRunsProjectSo(h: Hashes, db: Db, db': Db, key: string, now: int)
    requires UniqueApprovals(db) && CancelTx(h, db, key, now) == Some(db')
    ensures (Project(h, db').Ok? <==> Last(db.journal).createdAt <= now)
            && (Project(h, db').Ok? ==> Project(h, db').value.state.CANCELLED?)
  {
    hide NativeOk, ProjectFrom;
    assert !Terminal(Last(db.journal).transition) by { HeadFits(h, db); }
    EveryAppendReplays(h, db, db', CancelCommand(key), now);
    CancelledRowsShow(db, Restored(db.journal), Restored(db'.journal), db');
  }

  lemma RejectedRowsShow(db: Db, c: Checkpoint, f: PendingApproval, c': Checkpoint, db': Db)
    requires AwaitsDecision(db, c, f)
    requires db'.(journal := db.journal) == WithNative(Decided(db, f, false), c.activeStep.value, NativeCanceled)
    requires c'.state.REJECTED? && c'.activeStep == Closing(c, RunState.REJECTED).activeStep
    ensures ProjectFrom(db', c', ApprovalRejected).Ok? && ProjectFrom(db', c', ApprovalRejected).value.state.REJECTED?
  {
    FoundAgain(db, db', c, c');
    NoPermitsNoEffect(db, c.activeStep.value.nativeTaskId);
    ClosedRunsShow(db', c', ApprovalRejected);
  }

  /** A rejected run projects to REJECTED as long as the clock did not go back; else it can no longer be read. */
  lemma RejectedRunsProjectSo(h: Hashes, db: Db, db': Db, approver: string, key: string, now: int)
    requires UniqueApprovals(db) && RejectTx(h, db, approver, key, now) == Some(db')
    ensures (Project(h, db').Ok? <==> Last(db.journal).createdAt <= now)
            && (Project(h, db').Ok? ==> Project(h, db').value.state.REJECTED?)
  {
    hide ProjectFrom;
    var c := Restored(db.journal);
    assert !Terminal(Last(db.journal).transition) by { HeadFits(h, db); }
    EveryAppendReplays(h, db, db', RejectCommand(approver, key), now);
    RejectedRowsShow(db, c, ApprovalOf(db, c).value, Restored(db'.journal), db');
  }

  lemma ApprovedRowsShow(db: Db, rows: Db, c: Checkpoint, f: PendingApproval, c': Checkpoint, db': Db)
    requires FindPending(db, c) == Ok(Some(f)) && c.activeStep.Some? && f.row < |db.pendings|
             && f.approvalId in db.approvals
    requires rows == db || rows == Decided(db, f, true)
    requires db'.(journal := db.journal) == Resumed(rows, f, c.activeStep.value) && c'.state.ACTIVE?
             && c'.activeStep == c.activeStep
    ensures var p := ProjectFrom(db', c', ApprovalResumed);
            p.Ok? && p.value.actions == [] &&
            p.value.state == if NoEffectStarted(db, c.activeStep.value.nativeTaskId) then RUNNING
                             else PublicState.FAILED
  {
    FoundAgain(db, db', c, c');
    assert NoEffectStarted(db', c.activeStep.value.nativeTaskId) <==>
        NoEffectStarted(db, c.activeStep.value.nativeTaskId);
  }

  /**
    Whether the decision is made by this command or was on record already: the approved run can be read exactly when it
    was not over and the clock did not go back.  It then offers nothing, and is RUNNING exactly when nothing was ever
    attempted on its task, so only a fresh observation may act and it can no longer be cancelled.
  */
  lemma ApprovedRunsProjectSo(h: Hashes, db: Db, db': Db, approver: string, key: string, now: int)
    requires UniqueApprovals(db) && ApproveTx(h, db, approver, key, now) == Some(db')
    ensures var c, f := Restored(db.journal), ApprovalOf(db, Restored(db.journal)).value;
            && c.activeStep.Some? && f.row < |db'.pendings| && db'.pendings[f.row].status.PendingInvalidated?
            && (Project(h, db').Ok? <==> !Terminal(Last(db.journal).transition) && Last(db.journal).createdAt <= now)
            && (Project(h, db').Ok? ==>
                  Project(h, db').value.actions == []
                  && Project(h, db').value.state == if NoEffectStarted(db, c.activeStep.value.nativeTaskId)
                       then RUNNING else PublicState.FAILED)
  {
    var c := Restored(db.journal);
    ApprovalNamesARow(db, c);
    EveryAppendReplays(h, db, db', ApproveCommand(approver, key), now);
    ApprovedRowsShow(db, StandingApproval(h, db, approver, now).value, c, ApprovalOf(db, c).value,
                     Restored(db'.journal), db');
  }

  /** A decision made by the command itself finds nothing attempted: the run is RUNNING. */
  lemma FreshApprovalsRun(h: Hashes, db: Db, db': Db, approver: string, key: string, now: int)
    requires UniqueApprovals(db) && ApproveTx(h, db, approver, key, now) == Some(db')
    requires AwaitsDecision(db, Restored(db.journal), ApprovalOf(db, Restored(db.journal)).value)
    ensures Project(h, db').Ok? <==> Last(db.journal).createdAt <= now
    ensures Project(h, db').Ok? ==> Project(h, db').value.state.RUNNING? && Project(h, db').value.actions == []
  {
    assert !Terminal(Last(db.journal).transition) by { HeadFits(h, db); }
    ApprovedRunsProjectSo(h, db, db', approver, key, now);
    NoPermitsNoEffect(db, Restored(db.journal).activeStep.value.nativeTaskId);
  }

  lemma PausedRowsShow(db: Db, p: PauseRequest, s: StepRef, c': Checkpoint, db': Db)
    requires PauseMatches(s, p) && p.approvalId != "" && db'.(journal := db.journal) == Paused(db, p, s)
    requires c'.state.APPROVAL_REQUIRED? && c'.activeStep == Some(s)
    ensures RowsOf(db.pendings, p.taskId, p.stepId) != [] ==>
        ProjectFrom(db', c', ApprovalRequired) == Refused(StateConflict)
    ensures RowsOf(db.pendings, p.taskId, p.stepId) == [] ==>
              && ProjectFrom(db', c', ApprovalRequired).Ok?
              && ProjectFrom(db', c', ApprovalRequired).value.state ==
                 if !HasAttempts(db, p.taskId) && !HasPermits(db, p.taskId) then AWAITING_APPROVAL
                 else PublicState.FAILED
  {
    assert db'.pendings[..|db.pendings|] == db.pendings;
    assert RowsOf(db'.pendings, p.taskId, p.stepId) == RowsOf(db.pendings, p.taskId, p.stepId) + [|db.pendings|];
    ApprovalIsOfferedWhileAwaited(db', c', ApprovalRequired);
  }

  /**
    A pause leaves a run with a projection exactly when it is the step's first pause, the run was not over and the clock
    did not go back; it then awaits approval exactly when nothing was authorized for the step yet.  A second pause
    leaves two pending actions, and then the run has no projection at all.
  */
  lemma PausedRunsProjectSo(h: Hashes, db: Db, db': Db, p: PauseRequest, key: string, now: int)
    requires UniqueApprovals(db) && PauseTx(h, db, p, key, now) == Some(db')
    ensures Project(h, db').Ok? <==>
              RowsOf(db.pendings, p.taskId, p.stepId) == [] && !Terminal(Last(db.journal).transition)
                  && Last(db.journal).createdAt <= now
    ensures Project(h, db').Refused? ==> Project(h, db').error == StateConflict
    ensures Project(h, db').Ok? ==>
              Project(h, db').value.state ==
              if !HasAttempts(db, p.taskId) && !HasPermits(db, p.taskId) then AWAITING_APPROVAL
              else PublicState.FAILED
  {
    EveryCommandCommits(h, db, db', PauseCommand(p, key), now);
    EveryAppendReplays(h, db, db', PauseCommand(p, key), now);
    PausedRowsShow(db, p, Restored(db.journal).activeStep.value, Restored(db'.journal), db');
  }
}
