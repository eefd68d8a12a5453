/** What the public sees of a run, row by row: which rows make which state, and what the native store vouches for. */
module RunProjections {
  import opened Outcomes
  import opened PlanJournal
  import opened Coordinator
  import opened RunDatabase
  import opened RunLifecycle
  import opened RunTransactions

  // ----- Rows ----------------------------------------------------------------

  /** The step's task and step rows are both there. */
  predicate HasRows(db: Db, s: StepRef) {
    && s.nativeTaskId in db.tasks && s.nativeStepId in db.steps && db.steps[s.nativeStepId].taskId == s.nativeTaskId
  }

  predicate NoRows(db: Db, s: StepRef) {
    && s.nativeTaskId !in db.tasks
    && (s.nativeStepId in db.steps ==> db.steps[s.nativeStepId].taskId != s.nativeTaskId)
  }

  predicate BothAre(db: Db, s: StepRef, status: NativeStatus) {
    HasRows(db, s) && db.tasks[s.nativeTaskId] == status && db.steps[s.nativeStepId].status == status
  }

  /** Pending action `i` is one of the step's. */
  predicate OfStep(db: Db, s: StepRef, i: int) {
    0 <= i < |db.pendings| && db.pendings[i].taskId == s.nativeTaskId && db.pendings[i].stepId == s.nativeStepId
  }

  /** Its approval request exists and is about the same task. */
  predicate Linked(db: Db, i: int)
    requires 0 <= i < |db.pendings|
  {
    && db.pendings[i].approvalId.Some? && db.pendings[i].approvalId.value != ""
    && db.pendings[i].approvalId.value in db.approvals
    && db.approvals[db.pendings[i].approvalId.value].taskId == db.pendings[i].taskId
  }

  /** The step has at most one pending action, and that one is linked. */
  ghost predicate PendingsOk(db: Db, s: StepRef) {
    && (forall i :: OfStep(db, s, i) ==> Linked(db, i))
    && (forall i, j :: OfStep(db, s, i) && OfStep(db, s, j) ==> i == j)
  }

  /** The step has a pending action that stands like this, with a request that stands like that. */
  ghost predicate Stands(db: Db, s: StepRef, action: PendingStatus, request: ApprovalStatus) {
    exists i :: OfStep(db, s, i) && Linked(db, i) && db.pendings[i].status == action
                && db.approvals[db.pendings[i].approvalId.value].status == request
  }

  ghost predicate HasApproved(db: Db, s: StepRef) {
    exists i :: OfStep(db, s, i) && db.pendings[i].status.PendingApproved?
  }

  predicate NothingAttempted(db: Db, taskId: string) {
    && (forall a :: a in db.attempts ==> db.attempts[a].taskId != taskId)
    && (forall p :: p in db.permits && db.permits[p].consumed ==> db.permits[p].taskId != taskId)
  }

  predicate NothingAuthorized(db: Db, taskId: string) {
    && (forall a :: a in db.attempts ==> db.attempts[a].taskId != taskId)
    && (forall p :: p in db.permits ==> db.permits[p].taskId != taskId)
  }

  /** The attempt and permit the step names are of its task, UNKNOWN and consumed, for one action and observation. */
  predicate Uncertain(db: Db, s: StepRef) {
    match (s.attemptId, s.permitId)
    case (Some(a), Some(p)) =>
      && a in db.attempts && db.attempts[a].taskId == s.nativeTaskId && db.attempts[a].status.AttemptUnknown?
      && p in db.permits && db.permits[p].taskId == s.nativeTaskId && db.permits[p].consumed
      && db.attempts[a].fingerprint == db.permits[p].fingerprint
      && db.attempts[a].observationHash == db.permits[p].observationHash
    case _ => false
  }

  // ----- The public state ----------------------------------------------------

  lemma PairsAreRows(db: Db, s: StepRef)
    ensures NativePair(db, s).Ok? <==> HasRows(db, s) || NoRows(db, s)
    ensures NativePair(db, s) == Ok(None) <==> NoRows(db, s)
    ensures HasRows(db, s) ==>
              NativePair(db, s) == Ok(Some((db.tasks[s.nativeTaskId], db.steps[s.nativeStepId].status)))
    ensures NativePair(db, s).Refused? ==> NativePair(db, s).error == StateConflict
    ensures forall status :: PairIs(db, s, status) <==> BothAre(db, s, status)
  {
  }

  lemma FindingIsUnique(db: Db, c: Checkpoint)
    requires c.activeStep.Some?
    ensures var s := c.activeStep.value;
            && (FindPending(db, c).Ok? <==> PendingsOk(db, s))
            && (FindPending(db, c).Refused? ==> FindPending(db, c).error == StateConflict)
            && (FindPending(db, c) == Ok(None) <==> forall i :: !OfStep(db, s, i))
            && (FindPending(db, c).Ok? && FindPending(db, c).value.Some? ==>
                  var f := FindPending(db, c).value.value;
                  OfStep(db, s, f.row) && Linked(db, f.row) && db.pendings[f.row].approvalId == Some(f.approvalId))
  {
    hide RowsOf;
    RowsOfStep(db, c.activeStep.value);
  }

  lemma RowsOfStep(db: Db, s: StepRef)
    ensures var rows := RowsOf(db.pendings, s.nativeTaskId, s.nativeStepId);
            && (forall i :: OfStep(db, s, i) <==> i in rows)
            && (rows == [] <==> forall i :: !OfStep(db, s, i))
            && (rows != [] ==> OfStep(db, s, rows[0]))
            && (|rows| <= 1 <==> forall i, j :: OfStep(db, s, i) && OfStep(db, s, j) ==> i == j)
  {
    hide RowsOf;
    var rows := RowsOf(db.pendings, s.nativeTaskId, s.nativeStepId);
    RowsOfAreRows(db.pendings, s.nativeTaskId, s.nativeStepId);
    RowsAreIncreasing(db.pendings, s.nativeTaskId, s.nativeStepId);
    assert forall i :: OfStep(db, s, i) <==> i in rows;
    if rows != [] {
      assert rows[0] in rows;
    }
    if |rows| > 1 {
      assert rows[1] in rows && rows[0] < rows[1];
      assert OfStep(db, s, rows[0]) && OfStep(db, s, rows[1]);
    }
  }

  ghost predicate Increasing(xs: seq<nat>, bound: nat) {
    && (forall i :: 0 <= i < |xs| ==> xs[i] < bound)
    && (forall i, j :: 0 <= i < j < |xs| ==> xs[i] < xs[j])
  }

  lemma OneMoreIncreasing(xs: seq<nat>, n: nat)
    requires Increasing(xs, n)
    ensures Increasing(xs, n + 1) && Increasing(xs + [n], n + 1)
  {
  }

  lemma {:induction false} RowsAreIncreasing(rows: seq<PendingRow>, taskId: string, stepId: string)
    ensures Increasing(RowsOf(rows, taskId, stepId), |rows|)
  {
    if rows != [] {
      var n := |rows| - 1;
      RowsAreIncreasing(rows[..n], taskId, stepId);
      OneMoreIncreasing(RowsOf(rows[..n], taskId, stepId), n);
    }
  }

  /** What was decided about the one pending action. */
  lemma DecisionsStand(db: Db, c: Checkpoint, action: PendingStatus, request: ApprovalStatus)
    requires c.activeStep.Some? && FindPending(db, c).Ok?
    ensures DecidedAs(db, FindPending(db, c).value, action, request) <==>
              Stands(db, c.activeStep.value, action, request)
  {
    FindingIsUnique(db, c);
    var s, found := c.activeStep.value, FindPending(db, c).value;
    if Stands(db, s, action, request) {
      var i :| OfStep(db, s, i) && Linked(db, i) && db.pendings[i].status == action
               && db.approvals[db.pendings[i].approvalId.value].status == request;
      assert OfStep(db, s, found.value.row);
    }
  }

  lemma ApprovalsStand(db: Db, c: Checkpoint)
    requires c.activeStep.Some? && FindPending(db, c).Ok?
    ensures var found := FindPending(db, c).value;
            (found.Some? && found.value.row < |db.pendings| && db.pendings[found.value.row].status.PendingApproved?)
            <==> HasApproved(db, c.activeStep.value)
  {
    FindingIsUnique(db, c);
    var s, found := c.activeStep.value, FindPending(db, c).value;
    if i :| OfStep(db, s, i) && db.pendings[i].status.PendingApproved? {
      assert OfStep(db, s, found.value.row);
    }
  }

  /**
    There is nothing to show exactly when the active step has half of its native rows, or more than one pending action,
    or one without a request of its own.
  */
  lemma WhenNothingIsShown(db: Db, c: Checkpoint, latest: Transition)
    ensures ProjectFrom(db, c, latest).Refused? <==>
              && c.activeStep.Some?
              && var s := c.activeStep.value; !(HasRows(db, s) || NoRows(db, s)) || !PendingsOk(db, s)
    ensures ProjectFrom(db, c, latest).Refused? ==> ProjectFrom(db, c, latest).error == StateConflict
  {
    if c.activeStep.Some? {
      PairsAreRows(db, c.activeStep.value);
      FindingIsUnique(db, c);
    }
  }

  lemma EffectsAreRows(db: Db, taskId: string)
    ensures NoEffectStarted(db, taskId) <==> NothingAttempted(db, taskId)
    ensures !HasAttempts(db, taskId) && !HasPermits(db, taskId) <==> NothingAuthorized(db, taskId)
  {
  }

  /** What makes each public state but FAILED, which is shown for everything else. */
  ghost predicate Shows(db: Db, c: Checkpoint, latest: Transition, state: PublicState) {
    if c.activeStep.None? then (state.SUCCEEDED? && c.state.COMPLETED?)
    else
      var s := c.activeStep.value;
      match state
      case SUCCEEDED => false
      case UNKNOWN => c.state.PROBE_BLOCKED? && BothAre(db, s, NativePendingProbe) && Uncertain(db, s)
      case REJECTED =>
        && latest.ApprovalRejected? && BothAre(db, s, NativeCanceled) && NothingAttempted(db, s.nativeTaskId)
        && Stands(db, s, PendingRejected, ApprovalDenied)
      case CANCELLED =>
        latest.RunCancelled? && BothAre(db, s, NativeCanceled) && NothingAttempted(db, s.nativeTaskId)
      case AWAITING_APPROVAL =>
        && c.state.APPROVAL_REQUIRED? && BothAre(db, s, NativePendingApproval) && NothingAuthorized(db, s.nativeTaskId)
        && Stands(db, s, PendingDecision, Undecided)
      case PLANNING => c.state.ACTIVE? && latest.Admitted? && NoRows(db, s)
      case RUNNING =>
        || (c.state.APPROVAL_REQUIRED? && HasApproved(db, s))
        || (c.state.ACTIVE? && HasRows(db, s) && NothingAttempted(db, s.nativeTaskId)
            && {db.tasks[s.nativeTaskId], db.steps[s.nativeStepId].status}
                 <= {NativeCreated, NativeRunning, NativeResuming})
      case FAILED => false
  }

  /** The reason that goes with a state. */
  function ReasonOf(c: Checkpoint, state: PublicState): Option<string> {
    match state
    case UNKNOWN => Some("RESULT_UNCERTAIN")
    case REJECTED => Some("APPROVAL_REJECTED")
    case CANCELLED => Some("RUN_CANCELLED")
    case FAILED => Some("STATE_CONFLICT")
    case RUNNING => if c.state.APPROVAL_REQUIRED? then Some("APPROVAL_RECORDED") else None
    case _ => None
  }

  /** What goes with a state: the offers, the reason and the counts. */
  predicate Complete(db: Db, c: Checkpoint, p: RunProjection) {
    && p.reason == ReasonOf(c, p.state)
    && p.completed == |c.completedPrefix|
    && p.total == |c.completedPrefix| + |ActiveSteps(c)| + |c.remainingSuffix|
    && match p.state
       case UNKNOWN => p.actions == [Probe]
       case AWAITING_APPROVAL => p.actions == [Approve, Reject]
       case PLANNING => p.actions == [Cancel]
       case RUNNING =>
         && c.activeStep.Some?
         && (p.actions == if c.state.ACTIVE? && c.activeStep.value.nativeTaskId in db.tasks
                             && !db.tasks[c.activeStep.value.nativeTaskId].NativeResuming? then [Cancel] else [])
       case _ => p.actions == []
  }

  lemma ActiveShows(db: Db, c: Checkpoint, latest: Transition)
    requires TransitionOk(latest, c) && c.activeStep.Some? && NativePair(db, c.activeStep.value).Ok?
    requires FindPending(db, c).Ok?
    ensures var p := ProjectActive(db, c, c.activeStep.value, latest, NativePair(db, c.activeStep.value).value,
                                   FindPending(db, c).value);
            && Complete(db, c, p)
            && (!p.state.FAILED? ==> Shows(db, c, latest, p.state))
            && (forall state: PublicState :: Shows(db, c, latest, state) ==> p.state == state)
  {
    hide FindPending, NativePair, Stands, HasApproved, NothingAttempted, NothingAuthorized, NoEffectStarted,
      HasAttempts, HasPermits, DecidedAs;
    var s := c.activeStep.value;
    PairsAreRows(db, s);
    EffectsAreRows(db, s.nativeTaskId);
    DecisionsStand(db, c, PendingRejected, ApprovalDenied);
    DecisionsStand(db, c, PendingDecision, Undecided);
    ApprovalsStand(db, c);
    FindingIsUnique(db, c);
    DecidedOnce(db, s);
    BlocksAreUncertain(db, s);
  }

  lemma BlocksAreUncertain(db: Db, s: StepRef)
    ensures ExactBlock(db, s) <==> Uncertain(db, s)
  {
  }

  lemma DecidedOnce(db: Db, s: StepRef)
    requires PendingsOk(db, s)
    ensures !(Stands(db, s, PendingDecision, Undecided) && HasApproved(db, s))
  {
  }

  /**
    Where there is something to show, each state but FAILED is shown exactly for its own rows, no two of them for the
    same, and FAILED for all others; with each go its own offers, reason and counts.
  */
  lemma WhatIsShown(db: Db, c: Checkpoint, latest: Transition)
    requires TransitionOk(latest, c) && ProjectFrom(db, c, latest).Ok?
    ensures var p := ProjectFrom(db, c, latest).value;
            && Complete(db, c, p)
            && (forall state: PublicState :: !state.FAILED? ==> (p.state == state <==> Shows(db, c, latest, state)))
  {
    if c.activeStep.Some? {
      ActiveShows(db, c, latest);
    }
  }
}
