/** When each command of a run goes through, and what exactly it changes in the rows. */
module RunEffects {
  import opened Outcomes
  import opened PlanJournal
  import opened Coordinator
  import opened RunDatabase
  import opened RunLifecycle
  import opened RunTransactions
  import opened RunProjections

  // ----- What the native store vouches for -----------------------------------

  /** The step names no attempt and no permit, or one of each: of this step and its contract, consumed, so settled. */
  predicate AttemptVouched(db: Db, s: StepRef, status: AttemptRowStatus) {
    match (s.attemptId, s.permitId)
    case (None, None) => true
    case (Some(a), Some(p)) =>
      && a in db.attempts && p in db.permits && db.permits[p].consumed && db.attempts[a].status == status
      && db.attempts[a].taskId == db.permits[p].taskId == s.nativeTaskId
      && db.attempts[a].stepId == db.permits[p].stepId == s.nativeStepId
      && db.attempts[a].contractId == db.permits[p].contractId == s.nativeContractId
    case _ => false
  }

  /** Completed steps are completed and confirmed, remaining ones untouched, superseded ones untouched or canceled. */
  predicate OthersVouched(db: Db, c: Checkpoint) {
    && (forall i :: 0 <= i < |c.completedPrefix| ==>
          BothAre(db, c.completedPrefix[i], NativeCompleted)
          && AttemptVouched(db, c.completedPrefix[i], AttemptConfirmed))
    && (forall i :: 0 <= i < |c.remainingSuffix| ==> NoRows(db, c.remainingSuffix[i]))
    && (forall i :: 0 <= i < |c.supersededSuffix| ==>
          NoRows(db, c.supersededSuffix[i]) || BothAre(db, c.supersededSuffix[i], NativeCanceled))
  }

  /** The status a transition leaves the active step's rows in, where it says. */
  function StatusAfter(t: Transition): Option<NativeStatus> {
    match t
    case ProbeBlocked => Some(NativePendingProbe)
    case ApprovalRequired => Some(NativePendingApproval)
    case ApprovalResumed => Some(NativeResuming)
    case ApprovalRejected => Some(NativeCanceled)
    case RunCancelled => Some(NativeCanceled)
    case _ => None
  }

  predicate ActiveVouched(db: Db, s: StepRef, t: Transition) {
    && HasRows(db, s)
    && (StatusAfter(t).Some? ==> BothAre(db, s, StatusAfter(t).value))
    && (t.ProbeBlocked? ==>
          && s.attemptId.Some? && s.attemptId.value != "" && s.permitId.Some? && s.permitId.value != ""
          && AttemptVouched(db, s, AttemptUnknown))
  }

  lemma AttemptsAreVouched(db: Db, s: StepRef, status: AttemptRowStatus)
    ensures AttemptIdentityOk(db, s, status) <==> AttemptVouched(db, s, status)
  {
  }

  /** The native store lets a checkpoint be journaled exactly when its rows vouch for every step of it. */
  lemma WhatTheNativeStoreChecks(db: Db, c: Checkpoint, t: Transition)
    ensures OthersOk(db, c) <==> OthersVouched(db, c)
    ensures NativeOk(db, c, t) <==>
              OthersVouched(db, c) && (c.activeStep.Some? ==> ActiveVouched(db, c.activeStep.value, t))
  {
    hide AttemptIdentityOk, AttemptVouched;
    forall i | 0 <= i < |c.completedPrefix|
      ensures AttemptIdentityOk(db, c.completedPrefix[i], AttemptConfirmed)
              <==> AttemptVouched(db, c.completedPrefix[i], AttemptConfirmed)
    {
      AttemptsAreVouched(db, c.completedPrefix[i], AttemptConfirmed);
    }
    if c.activeStep.Some? {
      AttemptsAreVouched(db, c.activeStep.value, AttemptUnknown);
    }
  }

  // ----- Loading -------------------------------------------------------------

  /** A run is loaded when its root is trusted, its admission there and its journal whole; else it says why not. */
  lemma WhatIsLoaded(h: Hashes, db: Db)
    ensures Load(h, db) == Refused(RunNotFound) <==> db.root in {NoRoot, NoAdmission}
    ensures Load(h, db).Ok? <==> db.root.TrustedRoot? && Accepts(h, db.journal)
    ensures Load(h, db).Refused? ==> Load(h, db).error in {RunNotFound, StateConflict}
    ensures Load(h, db).Ok? ==>
              var c, e := Load(h, db).value, Last(db.journal);
              c == e.checkpoint.(journalSequence := e.sequence, journalDigest := e.digest)
  {
  }

  // ----- What a command changes ----------------------------------------------

  /** The journal has one event more, which says this, under the authority of the event before. */
  predicate Journals(db: Db, db': Db, t: Transition, c: Checkpoint, key: string, now: int) {
    && db.journal != [] && |db'.journal| == |db.journal| + 1 && db'.journal[..|db.journal|] == db.journal
    && var before, e := Last(db.journal), Last(db'.journal);
       && e.transition == t && e.reason == Some(key) && e.createdAt == now && e.recoveryLevel.None?
       && e.authorityDigests == before.authorityDigests && e.previousDigest == before.digest
       && e.sequence == before.sequence + 1
       && e.checkpoint == c.(journalSequence := before.sequence + 1, journalDigest := before.digest)
  }

  /** Both native rows of the step have this status, and no other native row changes. */
  predicate MovesRows(db: Db, db': Db, s: StepRef, status: NativeStatus) {
    && db'.tasks == db.tasks[s.nativeTaskId := status]
    && db'.steps == db.steps[s.nativeStepId := NativeStep(s.nativeTaskId, status)]
  }

  /** No attempt and no permit changes, nor where the run was admitted. */
  predicate EffectsStay(db: Db, db': Db) {
    db'.attempts == db.attempts && db'.permits == db.permits && db'.root == db.root
  }

  lemma EventsSay(h: Hashes, db: Db, rows: Db, c: Checkpoint, t: Transition, key: string, now: int)
    requires Load(h, db).Ok? && rows.journal == db.journal && JournalTx(h, rows, c, t, key, now).Some?
    requires AtHead(db.journal, c)
    ensures Journals(db, JournalTx(h, rows, c, t, key, now).value, t, c, key, now)
    ensures JournalTx(h, rows, c, t, key, now).value.(journal := db.journal) == rows
  {
    var e := EventFor(h, RequestFrom(rows, c, t, key), now);
    assert Last(db.journal + [e]) == e;
    assert rows.(journal := rows.journal + [e]).(journal := db.journal) == rows;
  }

  /** The checkpoint of a run that ends with its active step. */
  function Ended(c: Checkpoint, state: RunState): Checkpoint
    requires c.activeStep.Some?
  {
    c.(state := state, activeStep := Some(c.activeStep.value.(state := FailedStep)))
  }

  // ----- Cancelling ----------------------------------------------------------

  predicate MayCancel(db: Db, c: Checkpoint, s: StepRef) {
    && c.state.ACTIVE? && HasRows(db, s)
    && db.tasks[s.nativeTaskId] in {NativeCreated, NativeRunning}
    && db.steps[s.nativeStepId].status in {NativeCreated, NativeRunning, NativeResuming}
    && (forall a :: a in db.attempts ==> db.attempts[a].taskId != s.nativeTaskId)
    && (forall p :: p in db.permits && db.permits[p].consumed ==> db.permits[p].taskId != s.nativeTaskId)
  }

  /** The rows with the step's native rows moved. */
  function WithRows(db: Db, s: StepRef, status: NativeStatus): Db {
    db.(tasks := db.tasks[s.nativeTaskId := status],
        steps := db.steps[s.nativeStepId := NativeStep(s.nativeTaskId, status)])
  }

  lemma StoppingIsCancelling(db: Db, c: Checkpoint)
    ensures MayStop(db, c) <==>
              c.activeStep.Some? && MayCancel(db, c, c.activeStep.value) && PendingsOk(db, c.activeStep.value)
  {
    if c.activeStep.Some? {
      PairsAreRows(db, c.activeStep.value);
      FindingIsUnique(db, c);
      EffectsAreRows(db, c.activeStep.value.nativeTaskId);
    }
  }

  /** Exactly when a cancellation goes through, and all it changes. */
  lemma WhatCancellingDoes(h: Hashes, db: Db, key: string, now: int)
    requires Load(h, db).Ok?
    ensures var c := Restored(db.journal); var tx := CancelTx(h, db, key, now);
            && (tx.Some? <==>
                  && c.activeStep.Some? && MayCancel(db, c, c.activeStep.value) && PendingsOk(db, c.activeStep.value)
                  && OthersVouched(WithRows(db, c.activeStep.value, NativeCanceled), c))
            && (tx.Some? ==>
                  && MovesRows(db, tx.value, c.activeStep.value, NativeCanceled) && EffectsStay(db, tx.value)
                  && tx.value.pendings == db.pendings && tx.value.approvals == db.approvals
                  && Journals(db, tx.value, RunCancelled, Ended(c, RunState.CANCELLED), key, now))
  {
    hide NativeOk, MayStop, OthersVouched, MayCancel, PendingsOk, OthersOk, Journals;
    var c := Restored(db.journal);
    StoppingIsCancelling(db, c);
    if MayStop(db, c) {
      assert c.activeStep.Some?;
      var s := c.activeStep.value;
      var rows := WithNative(db, s, NativeCanceled);
      assert rows == WithRows(db, s, NativeCanceled);
      CanceledPairIsThere(db, c);
      WhatTheNativeStoreChecks(rows, c, RunCancelled);
      if CancelTx(h, db, key, now).Some? {
        EventsSay(h, db, rows, Closing(c, RunState.CANCELLED), RunCancelled, key, now);
      }
    }
  }

  // ----- Deciding ------------------------------------------------------------

  /** Pending action `i` of the step waits for a decision, and nothing was authorized for the step yet. */
  predicate Awaits(db: Db, c: Checkpoint, s: StepRef, i: int) {
    && OfStep(db, s, i) && Linked(db, i)
    && c.state.APPROVAL_REQUIRED? && BothAre(db, s, NativePendingApproval) && NothingAuthorized(db, s.nativeTaskId)
    && db.pendings[i].status.PendingDecision? && db.approvals[db.pendings[i].approvalId.value].status.Undecided?
  }

  /** Somebody else than the requester may decide on it, until it expires. */
  predicate Decidable(db: Db, i: int, approver: string, now: int)
    requires 0 <= i < |db.pendings| && Linked(db, i)
  {
    && db.approvals[db.pendings[i].approvalId.value].requester != Some(approver) && now <= db.pendings[i].expiresAt
  }

  /** Pending action `i` moves on by this many versions, and its request to this status; no other one changes. */
  predicate Decides(db: Db, db': Db, i: int, action: PendingStatus, versions: nat, request: ApprovalStatus)
    requires 0 <= i < |db.pendings| && Linked(db, i)
  {
    var row, id := db.pendings[i], db.pendings[i].approvalId.value;
    && db'.pendings == db.pendings[i := row.(status := action, rowVersion := row.rowVersion + versions)]
    && db'.approvals == db.approvals[id := db.approvals[id].(status := request)]
  }

  lemma FoundIsTheOne(db: Db, c: Checkpoint, i: int)
    requires c.activeStep.Some? && OfStep(db, c.activeStep.value, i)
    ensures PendingsOk(db, c.activeStep.value) <==> ApprovalOf(db, c).Some?
    ensures PendingsOk(db, c.activeStep.value) ==>
              Linked(db, i) && ApprovalOf(db, c) == Some(PendingApproval(i, db.pendings[i].approvalId.value))
  {
    FindingIsUnique(db, c);
  }

  lemma AwaitingIsAwaited(db: Db, c: Checkpoint, i: int)
    requires c.activeStep.Some? && OfStep(db, c.activeStep.value, i) && PendingsOk(db, c.activeStep.value)
    ensures ApprovalOf(db, c).Some?
    ensures AwaitsDecision(db, c, ApprovalOf(db, c).value) <==> Awaits(db, c, c.activeStep.value, i)
  {
    FoundIsTheOne(db, c, i);
    PairsAreRows(db, c.activeStep.value);
    EffectsAreRows(db, c.activeStep.value.nativeTaskId);
  }

  /** Only the native rows of a run decide what the native store vouches for. */
  lemma OnlyRowsVouch(db: Db, rows: Db, c: Checkpoint)
    requires rows.tasks == db.tasks && rows.steps == db.steps
    requires rows.attempts == db.attempts && rows.permits == db.permits
    ensures OthersVouched(rows, c) <==> OthersVouched(db, c)
  {
    forall i | 0 <= i < |c.completedPrefix|
      ensures BothAre(rows, c.completedPrefix[i], NativeCompleted) <==>
                BothAre(db, c.completedPrefix[i], NativeCompleted)
      ensures AttemptVouched(rows, c.completedPrefix[i], AttemptConfirmed)
              <==> AttemptVouched(db, c.completedPrefix[i], AttemptConfirmed)
    {
    }
    forall i | 0 <= i < |c.supersededSuffix|
      ensures NoRows(rows, c.supersededSuffix[i]) <==> NoRows(db, c.supersededSuffix[i])
      ensures BothAre(rows, c.supersededSuffix[i], NativeCanceled) <==>
                BothAre(db, c.supersededSuffix[i], NativeCanceled)
    {
    }
  }

  /** A checkpoint that moves its active step's rows is journaled exactly when the other steps are vouched for. */
  lemma MovedRowsAreVouched(db: Db, rows: Db, c: Checkpoint, c': Checkpoint, t: Transition)
    requires c.activeStep.Some? && c'.activeStep.Some? && StatusAfter(t).Some? && !t.ProbeBlocked?
    requires StepIdentity(c'.activeStep.value) == StepIdentity(c.activeStep.value)
    requires c' == c.(state := c'.state, activeStep := c'.activeStep)
    requires rows.(pendings := db.pendings, approvals := db.approvals)
               == WithRows(db, c.activeStep.value, StatusAfter(t).value)
    ensures NativeOk(rows, c', t) <==> OthersVouched(WithRows(db, c.activeStep.value, StatusAfter(t).value), c)
  {
    hide OthersVouched;
    var s, s' := c.activeStep.value, c'.activeStep.value;
    assert s'.nativeTaskId == StepIdentity(s').nativeTaskId == s.nativeTaskId;
    assert s'.nativeStepId == StepIdentity(s').nativeStepId == s.nativeStepId;
    WhatTheNativeStoreChecks(rows, c', t);
    OnlyRowsVouch(WithRows(db, s, StatusAfter(t).value), rows, c);
    OthersOfSameSteps(rows, c, c');
  }

  lemma OthersOfSameSteps(db: Db, c: Checkpoint, c': Checkpoint)
    requires c' == c.(state := c'.state, activeStep := c'.activeStep)
    ensures OthersVouched(db, c') <==> OthersVouched(db, c)
  {
    assert c'.completedPrefix == c.completedPrefix && c'.remainingSuffix == c.remainingSuffix;
    assert c'.supersededSuffix == c.supersededSuffix;
  }

  /** Exactly when a rejection goes through, and all it changes; `i` is the step's pending action. */
  lemma WhatRejectingDoes(h: Hashes, db: Db, approver: string, key: string, now: int, i: int)
    requires Load(h, db).Ok? && Restored(db.journal).activeStep.Some?
    requires OfStep(db, Restored(db.journal).activeStep.value, i)
    ensures var c := Restored(db.journal); var s := c.activeStep.value; var tx := RejectTx(h, db, approver, key, now);
            && (tx.Some? <==> PendingsOk(db, s) && Awaits(db, c, s, i) && Decidable(db, i, approver, now)
                              && OthersVouched(WithRows(db, s, NativeCanceled), c))
            && (tx.Some? ==>
                  && Decides(db, tx.value, i, PendingRejected, 1, ApprovalDenied)
                  && MovesRows(db, tx.value, s, NativeCanceled) && EffectsStay(db, tx.value)
                  && Journals(db, tx.value, ApprovalRejected, Ended(c, RunState.REJECTED), key, now))
  {
    hide NativeOk, OthersVouched, PendingsOk, AwaitsDecision, Awaits, Journals;
    var c := Restored(db.journal);
    var s := c.activeStep.value;
    FoundIsTheOne(db, c, i);
    if PendingsOk(db, s) {
      AwaitingIsAwaited(db, c, i);
      var f := ApprovalOf(db, c).value;
      AwaitedAction(db, c, s, i);
      if AwaitsDecision(db, c, f) && MayDecide(db, f, approver, now) {
        var rows := WithNative(Decided(db, f, false), s, NativeCanceled);
        assert rows.(pendings := db.pendings, approvals := db.approvals) == WithRows(db, s, NativeCanceled);
        MovedRowsAreVouched(db, rows, c, Closing(c, RunState.REJECTED), ApprovalRejected);
        if RejectTx(h, db, approver, key, now).Some? {
          EventsSay(h, db, rows, Closing(c, RunState.REJECTED), ApprovalRejected, key, now);
        }
      }
    }
  }

  lemma AwaitedAction(db: Db, c: Checkpoint, s: StepRef, i: int)
    ensures Awaits(db, c, s, i) ==>
              && 0 <= i < |db.pendings| && Linked(db, i) && db.pendings[i].status.PendingDecision?
              && db.approvals[db.pendings[i].approvalId.value].status.Undecided?
  {
  }

  /** The action was approved before and not acted on. */
  predicate StandsApproved(db: Db, i: int)
    requires 0 <= i < |db.pendings| && Linked(db, i)
  {
    db.pendings[i].status.PendingApproved? && db.approvals[db.pendings[i].approvalId.value].status.ApprovalGranted?
  }

  lemma ReadableWhilePaused(h: Hashes, db: Db)
    requires Load(h, db).Ok? && Restored(db.journal).activeStep.Some?
    requires BothAre(db, Restored(db.journal).activeStep.value, NativePendingApproval)
    requires PendingsOk(db, Restored(db.journal).activeStep.value)
    ensures Project(h, db).Ok?
  {
    WhenNothingIsShown(db, Restored(db.journal), Last(db.journal).transition);
  }

  lemma StandingApprovalIs(h: Hashes, db: Db, approver: string, now: int, i: int)
    requires Load(h, db).Ok? && Restored(db.journal).activeStep.Some?
    requires OfStep(db, Restored(db.journal).activeStep.value, i)
    requires PendingsOk(db, Restored(db.journal).activeStep.value)
    requires BothAre(db, Restored(db.journal).activeStep.value, NativePendingApproval)
    ensures var c := Restored(db.journal); var awaits := Awaits(db, c, c.activeStep.value, i);
            && ApprovalOf(db, c) == Some(PendingApproval(i, db.pendings[i].approvalId.value)) && Linked(db, i)
            && StandingApproval(h, db, approver, now)
                 == if awaits && Decidable(db, i, approver, now) then Some(Decided(db, ApprovalOf(db, c).value, true))
                    else if StandsApproved(db, i) then Some(db) else None
  {
    hide PendingsOk, AwaitsDecision, Awaits, ProjectFrom;
    var c := Restored(db.journal);
    FoundIsTheOne(db, c, i);
    AwaitingIsAwaited(db, c, i);
    AwaitedAction(db, c, c.activeStep.value, i);
    ReadableWhilePaused(h, db);
  }

  /** Exactly when an approval goes through, and all it changes; `i` is the step's pending action. */
  lemma WhatApprovingDoes(h: Hashes, db: Db, approver: string, key: string, now: int, i: int)
    requires Load(h, db).Ok? && Restored(db.journal).activeStep.Some?
    requires OfStep(db, Restored(db.journal).activeStep.value, i)
    ensures var c := Restored(db.journal); var s := c.activeStep.value; var tx := ApproveTx(h, db, approver, key, now);
            && (tx.Some? <==> PendingsOk(db, s) && Linked(db, i) && BothAre(db, s, NativePendingApproval)
                              && ((Awaits(db, c, s, i) && Decidable(db, i, approver, now)) || StandsApproved(db, i))
                              && OthersVouched(WithRows(db, s, NativeResuming), c))
            && (tx.Some? ==>
                  && Decides(db, tx.value, i, PendingInvalidated, if Awaits(db, c, s, i) then 2 else 1, ApprovalGranted)
                  && MovesRows(db, tx.value, s, NativeResuming) && EffectsStay(db, tx.value)
                  && Journals(db, tx.value, ApprovalResumed, c.(state := ACTIVE), key, now))
  {
    hide NativeOk, OthersVouched, PendingsOk, AwaitsDecision, Awaits, Journals, StandingApproval, BothAre, NativePair;
    var c := Restored(db.journal);
    var s := c.activeStep.value;
    FoundIsTheOne(db, c, i);
    PairsAreRows(db, s);
    AwaitedAction(db, c, s, i);
    assert Awaits(db, c, s, i) ==> BothAre(db, s, NativePendingApproval) by { AwaitsBoth(db, c, s, i); }
    if PendingsOk(db, s) && BothAre(db, s, NativePendingApproval) {
      StandingApprovalIs(h, db, approver, now, i);
      if StandingApproval(h, db, approver, now).Some? {
        ApprovedRows(db, StandingApproval(h, db, approver, now).value, c, i);
        var rows := Resumed(StandingApproval(h, db, approver, now).value, ApprovalOf(db, c).value, s);
        MovedRowsAreVouched(db, rows, c, c.(state := ACTIVE), ApprovalResumed);
        if ApproveTx(h, db, approver, key, now).Some? {
          EventsSay(h, db, rows, c.(state := ACTIVE), ApprovalResumed, key, now);
        }
      }
    }
  }

  lemma AwaitsBoth(db: Db, c: Checkpoint, s: StepRef, i: int)
    ensures Awaits(db, c, s, i) ==> BothAre(db, s, NativePendingApproval)
  {
  }

  /** The rows an approval resumes from, with its action spent. */
  lemma ApprovedRows(db: Db, rows: Db, c: Checkpoint, i: int)
    requires c.activeStep.Some? && OfStep(db, c.activeStep.value, i) && Linked(db, i)
    requires var f := PendingApproval(i, db.pendings[i].approvalId.value);
             rows == Decided(db, f, true) || (rows == db && StandsApproved(db, i))
    ensures |rows.pendings| == |db.pendings|
    ensures var s, f := c.activeStep.value, PendingApproval(i, db.pendings[i].approvalId.value);
            var after := Resumed(rows, f, s);
            && after.(pendings := db.pendings, approvals := db.approvals) == WithRows(db, s, NativeResuming)
            && Decides(db, after, i, PendingInvalidated, if rows == db then 1 else 2, ApprovalGranted)
            && MovesRows(db, after, s, NativeResuming) && EffectsStay(db, after) && after.journal == db.journal
            && (db.pendings[i].status.PendingDecision? ==> rows != db)
  {
    var id := db.pendings[i].approvalId.value;
    if rows == db {
      assert db.approvals[id := db.approvals[id].(status := ApprovalGranted)] == db.approvals;
    } else {
      assert rows.pendings[i].rowVersion == db.pendings[i].rowVersion + 1;
    }
  }

  /** Without a pending action there is nothing to approve or reject. */
  lemma NothingToDecide(h: Hashes, db: Db, approver: string, key: string, now: int)
    requires Load(h, db).Ok?
    requires var c := Restored(db.journal); c.activeStep.Some? ==> forall i :: !OfStep(db, c.activeStep.value, i)
    ensures RejectTx(h, db, approver, key, now).None? && ApproveTx(h, db, approver, key, now).None?
  {
    var c := Restored(db.journal);
    if c.activeStep.Some? {
      FindingIsUnique(db, c);
    }
  }

  // ----- Pausing -------------------------------------------------------------

  /** A pause of exactly this step, which runs and has no open action, under a request id nobody uses. */
  predicate MayPause(db: Db, s: StepRef, p: PauseRequest) {
    && p.correlated && p.taskId == s.nativeTaskId && p.stepId == s.nativeStepId && p.contractId == s.nativeContractId
    && (forall i :: 0 <= i < |db.pendings| && OfStep(db, s, i) ==>
          db.pendings[i].status !in {PendingDecision, PendingApproved})
    && p.approvalId != "" && p.approvalId !in db.approvals
    && (forall i :: 0 <= i < |db.pendings| ==> db.pendings[i].approvalId != Some(p.approvalId))
    && BothAre(db, s, NativeRunning)
  }

  /** Exactly when a pause goes through, and all it changes. */
  lemma WhatPausingDoes(h: Hashes, db: Db, p: PauseRequest, key: string, now: int)
    requires Load(h, db).Ok? && Restored(db.journal).activeStep.Some?
    ensures var c := Restored(db.journal); var s := c.activeStep.value; var tx := PauseTx(h, db, p, key, now);
            && (tx.Some? <==> MayPause(db, s, p) && OthersVouched(WithRows(db, s, NativePendingApproval), c))
            && (tx.Some? ==>
                  && tx.value.pendings == db.pendings
                       + [PendingRow(p.taskId, p.stepId, PendingDecision, Some(p.approvalId), 2, p.expiresAt)]
                  && tx.value.approvals
                       == db.approvals[p.approvalId := ApprovalRow(p.taskId, Undecided, p.requester)]
                  && MovesRows(db, tx.value, s, NativePendingApproval) && EffectsStay(db, tx.value)
                  && Journals(db, tx.value, ApprovalRequired, c.(state := APPROVAL_REQUIRED), key, now))
  {
    hide NativeOk, OthersVouched, Journals, BothAre, NativePair;
    var c := Restored(db.journal);
    var s := c.activeStep.value;
    PairsAreRows(db, s);
    if MayPause(db, s, p) {
      var rows := Paused(db, p, s);
      assert rows.(pendings := db.pendings, approvals := db.approvals) == WithRows(db, s, NativePendingApproval);
      MovedRowsAreVouched(db, rows, c, c.(state := APPROVAL_REQUIRED), ApprovalRequired);
      if PauseTx(h, db, p, key, now).Some? {
        EventsSay(h, db, rows, c.(state := APPROVAL_REQUIRED), ApprovalRequired, key, now);
      }
    }
  }

  // ----- Reflecting results --------------------------------------------------

  /** Exactly when a pack result is reflected; it changes nothing but the journal. */
  lemma WhatReflectingDoes(h: Hashes, db: Db, input: Input, key: string, now: int)
    requires Load(h, db).Ok?
    ensures var c := Restored(db.journal); var tx := ReflectTx(h, db, input, key, now);
            && (tx.Some? <==>
                  && Coordinator.Moves(c, input)
                  && var (c', t) := Translate(c, input).value.value;
                     && OthersVouched(db, c')
                     && (c'.activeStep.Some? ==> ActiveVouched(db, c'.activeStep.value, t)))
            && (tx.Some? ==>
                  && tx.value == db.(journal := tx.value.journal)
                  && Journals(db, tx.value, Translate(c, input).value.value.1, Translate(c, input).value.value.0, key,
                              now))
  {
    hide NativeOk, OthersVouched, ActiveVouched, Journals, Translate;
    var c := Restored(db.journal);
    if Coordinator.Moves(c, input) {
      var (c', t) := Translate(c, input).value.value;
      assert SameRun(c, c') by { TranslationFitsItsTransition(c, input); }
      WhatTheNativeStoreChecks(db, c', t);
      if ReflectTx(h, db, input, key, now).Some? {
        EventsSay(h, db, db, c', t, key, now);
      }
    }
  }

  /**
    A pending result that was reflected leaves a run with a projection exactly when the run was not over, the clock did
    not go back and its step's pending actions are in order; it then is UNKNOWN, offering its probe, exactly when its
    attempt and its permit are for the same action on the same observation.
  */
  lemma BlockedRunsProjectSo(h: Hashes, db: Db, db': Db, e: ExecutionRef, key: string, now: int)
    requires UniqueApprovals(db) && Load(h, db).Ok?
    requires ReflectTx(h, db, Advanced(PendingResultProbe(Restored(db.journal).rootTaskId, e)), key, now) == Some(db')
    ensures Restored(db.journal).activeStep.Some?
    ensures Project(h, db').Ok? <==>
              !Terminal(Last(db.journal).transition) && Last(db.journal).createdAt <= now
                && PendingsOk(db, Restored(db.journal).activeStep.value)
    ensures e.attemptId in db.attempts && e.permitId in db.permits
    ensures Project(h, db').Ok? ==>
              var p, attempt, permit := Project(h, db').value, db.attempts[e.attemptId], db.permits[e.permitId];
              if attempt.fingerprint == permit.fingerprint && attempt.observationHash == permit.observationHash
              then p.state.UNKNOWN? && p.actions == [Probe]
              else p.state == PublicState.FAILED && p.actions == []
  {
    var input := Advanced(PendingResultProbe(Restored(db.journal).rootTaskId, e));
    EveryAppendReplays(h, db, db', ReflectCommand(input, key), now);
    WhatReflectingDoes(h, db, input, key, now);
    BlockedRowsShow(db, db', Restored(db.journal), Restored(db'.journal), e);
  }

  lemma BlockedRowsShow(db: Db, db': Db, c: Checkpoint, c': Checkpoint, e: ExecutionRef)
    requires c.activeStep.Some? && c'.state.PROBE_BLOCKED? && c'.activeStep == Blocked(c, e).activeStep
    requires db' == db.(journal := db'.journal) && ActiveVouched(db, c'.activeStep.value, ProbeBlocked)
    ensures var p := ProjectFrom(db', c', ProbeBlocked);
            && (p.Ok? <==> PendingsOk(db, c.activeStep.value))
            && e.attemptId in db.attempts && e.permitId in db.permits
            && (p.Ok? ==>
                  if db.attempts[e.attemptId].fingerprint == db.permits[e.permitId].fingerprint
                     && db.attempts[e.attemptId].observationHash == db.permits[e.permitId].observationHash
                  then p.value.state.UNKNOWN? && p.value.actions == [Probe]
                  else p.value.state == PublicState.FAILED && p.value.actions == [])
  {
    hide ProjectFrom, FindPending, NativePair;
    WhenNothingIsShown(db', c', ProbeBlocked);
    assert PendingsOk(db', c'.activeStep.value) <==> PendingsOk(db, c.activeStep.value) by {
      assert forall i :: OfStep(db', c'.activeStep.value, i) <==> OfStep(db, c.activeStep.value, i);
    }
    if ProjectFrom(db', c', ProbeBlocked).Ok? {
      WhatIsShown(db', c', ProbeBlocked);
      assert Shows(db', c', ProbeBlocked, UNKNOWN) <==> Uncertain(db', c'.activeStep.value);
    }
  }
}
