/**
  The commands of an Agent Run on its rows.  Each is one database transaction: it works on a draft and commits it
  with its last step, so a command that raises leaves the rows as they were.
*/
module RunService {
  import opened Outcomes
  import opened PlanJournal
  import opened Coordinator
  import opened RunDatabase
  import opened RunLifecycle
  import opened RunTransactions

  /** The first pending action linked to an approval request. */
  function LinkedTo(rows: seq<PendingRow>, approvalId: string): (r: Option<nat>)
    ensures r.Some? ==> r.value < |rows| && rows[r.value].approvalId == Some(approvalId)
    ensures r.None? ==> forall i :: 0 <= i < |rows| ==> rows[i].approvalId != Some(approvalId)
  {
    if rows == [] then None
    else
      var front := LinkedTo(rows[..|rows| - 1], approvalId);
      if front.Some? then front else if rows[|rows| - 1].approvalId == Some(approvalId) then Some(|rows| - 1) else None
  }

  /**
    Records a decision on the request and on the pending action linked to it, or raises; `f` is where that action is.
  */
  method Decide(draft: Db, approvalId: string, approver: string, granted: bool, now: int,
                ghost f: PendingApproval) returns (r: Option<Db>)
    requires UniqueApprovals(draft) && f.approvalId == approvalId && f.row < |draft.pendings|
             && draft.pendings[f.row].approvalId == Some(approvalId)
    ensures r == if MayDecide(draft, f, approver, now) then Some(Decided(draft, f, granted)) else None
  {
    if approvalId !in draft.approvals { return None; }
    var approval := draft.approvals[approvalId];
    if !approval.status.Undecided? { return None; }
    if approval.requester.Some? && approval.requester.value == approver { return None; }
    var row := LinkedTo(draft.pendings, approvalId);
    if row.None? {
      return Some(draft.(approvals := draft.approvals[approvalId :=
        approval.(status := if granted then ApprovalGranted else ApprovalDenied)]));
    }
    var pending := draft.pendings[row.value];
    if !pending.status.PendingDecision? || now > pending.expiresAt { return None; }
    pending := pending.(status := if granted then PendingApproved else PendingRejected,
                        rowVersion := pending.rowVersion + 1);
    approval := approval.(status := if granted then ApprovalGranted else ApprovalDenied);
    return Some(draft.(pendings := draft.pendings[row.value := pending],
                       approvals := draft.approvals[approvalId := approval]));
  }

  function AfterTx(before: Db, tx: Option<Db>): Db {
    if tx.Some? then tx.value else before
  }

  class AgentRunService {
    const h: Hashes
    /** The journal's operation key for a command, the caller's key and the digest the command builds on. */
    const operationKey: (string, string, string) -> string
    var db: Db

    constructor (h: Hashes, operationKey: (string, string, string) -> string, db: Db)
      ensures this.h == h && this.operationKey == operationKey && this.db == db
    {
      this.h, this.operationKey, this.db := h, operationKey, db;
    }

    function Key(command: string, callerKey: string, rows: Db): string {
      if rows.journal == [] then "" else operationKey(command, callerKey, Last(rows.journal).digest)
    }

    /** The journal's append on a draft; it returns the checkpoint that replaying the longer journal gives. */
    method AppendTo(draft: Db, c: Checkpoint, t: Transition, key: string,
                    now: int) returns (r: Option<(Db, Checkpoint)>)
      requires Load(h, draft).Ok? && AtHead(draft.journal, c) && Appendable(t)
      ensures r.Some? <==> JournalTx(h, draft, c, t, key, now).Some?
      ensures r.Some? ==> r.value.0 == JournalTx(h, draft, c, t, key, now).value
      ensures r.Some? ==> r.value.1 == Restored(r.value.0.journal)
    {
      var request := RequestFrom(draft, c, t, key);
      var tx := AppendTx(h, draft.journal, true, request, NativeOk(draft, c, t), now);
      if tx.None? { return None; }
      FreshAppendReplays(h, draft.journal, request, now);
      return Some((draft.(journal := tx.value.0), tx.value.1));
    }

    method CancelRun(callerKey: string, now: int) returns (r: Result<Option<Checkpoint>, ServiceError>)
      modifies this
      ensures var tx := CancelTx(h, old(db), Key("cancel", callerKey, old(db)), now);
              db == AfterTx(old(db), tx) && (tx.Some? <==> r.Ok? && r.value.Some?)
                  && (tx.Some? ==> r.value.value == Restored(db.journal))
      ensures r == Ok(None) <==> Project(h, old(db)).Ok? && Project(h, old(db)).value.state.CANCELLED?
      ensures r.Refused? ==>
                var p := Project(h, old(db));
                r.error == if p.Refused? then p.error
                           else if Cancel !in p.value.actions then IllegalAction
                           else if !p.value.state.PLANNING? then AppendRefused
                           else if EffectMayHaveStarted(db, Restored(db.journal)) then EffectBoundaryCrossed
                           else StateConflict
    {
      hide JournalTx;
      var projection := Project(h, db);
      if projection.Refused? { return Refused(projection.error); }
      var c := Restored(db.journal);
      HeadFits(h, db);
      CancellationIsOfferedBeforeEffects(db, c, Last(db.journal).transition);
      if projection.value.state.CANCELLED? { return Ok(None); }
      if Cancel !in projection.value.actions { return Refused(IllegalAction); }
      if EffectMayHaveStarted(db, c) { return Refused(EffectBoundaryCrossed); }
      if c.activeStep.None? { return Refused(StateConflict); }
      var pair := NativePair(db, c.activeStep.value);
      if pair.Refused? || pair.value.None? { return Refused(StateConflict); }
      r := CommitClosing(WithNative(db, c.activeStep.value, NativeCanceled), Closing(c, RunState.CANCELLED),
                         RunCancelled, Key("cancel", callerKey, db), now);
    }

    /** Appends to a draft of the rows and commits it. */
    method CommitClosing(draft: Db, c: Checkpoint, t: Transition, key: string,
                         now: int) returns (r: Result<Option<Checkpoint>, ServiceError>)
      requires Load(h, draft).Ok? && AtHead(draft.journal, c) && Appendable(t)
      modifies this
      ensures var tx := JournalTx(h, draft, c, t, key, now);
              db == AfterTx(old(db), tx) && r == (if tx.Some? then Ok(Some(Restored(db.journal)))
                                                  else Refused(AppendRefused))
    {
      var appended := AppendTo(draft, c, t, key, now);
      if appended.None? { return Refused(AppendRefused); }
      db := appended.value.0;
      return Ok(Some(appended.value.1));
    }

    method RejectRun(callerKey: string, approver: string, now: int)
      returns (r: Result<Option<Checkpoint>, ServiceError>)
      requires UniqueApprovals(db)
      modifies this
      ensures var tx := RejectTx(h, old(db), approver, Key("reject", callerKey, old(db)), now);
              db == AfterTx(old(db), tx) && (tx.Some? <==> r.Ok? && r.value.Some?)
                  && (tx.Some? ==> r.value.value == Restored(db.journal))
      ensures r == Ok(None) <==> Project(h, old(db)).Ok? && Project(h, old(db)).value.state.REJECTED?
      ensures r.Refused? ==>
                var p := Project(h, old(db));
                r.error == if p.Refused? then p.error
                           else if Reject !in p.value.actions then IllegalAction
                           else if MayDecide(db, ApprovalOf(db, Restored(db.journal)).value, approver, now)
                           then AppendRefused else ApprovalRefused
    {
      var projection := Project(h, db);
      if projection.Refused? { return Refused(projection.error); }
      var c := Restored(db.journal);
      HeadFits(h, db);
      ApprovalIsOfferedWhileAwaited(db, c, Last(db.journal).transition);
      if projection.value.state.REJECTED? { return Ok(None); }
      if Reject !in projection.value.actions { return Refused(IllegalAction); }
      var found := FindPending(db, c);
      if found.Refused? || found.value.None? { return Refused(StateConflict); }
      ApprovalNamesARow(db, c);
      var decided := Decide(db, found.value.value.approvalId, approver, false, now, found.value.value);
      if decided.None? { return Refused(ApprovalRefused); }
      r := CommitClosing(WithNative(decided.value, c.activeStep.value, NativeCanceled), Closing(c, RunState.REJECTED),
                         ApprovalRejected,
                         Key("reject", callerKey, db), now);
    }

    /** The approving transaction; `adapterOk` says whether the pack adapter can still restore the run. */
    method ApproveRun(callerKey: string, approver: string, now: int,
                      adapterOk: bool) returns (r: Result<Option<Checkpoint>, ServiceError>)
      requires UniqueApprovals(db)
      modifies this
      ensures var tx :=
                if adapterOk then ApproveTx(h, old(db), approver, Key("approve", callerKey, old(db)), now) else None;
              db == AfterTx(old(db), tx) && (tx.Some? <==> r.Ok? && r.value.Some?)
                  && (tx.Some? ==> r.value.value == Restored(db.journal))
      ensures r == Ok(None) <==>
                && Project(h, old(db)).Ok? && !Project(h, old(db)).value.state.AWAITING_APPROVAL?
                && var f := ApprovalOf(old(db), Restored(old(db).journal));
                   f.Some? ==> !WasGranted(old(db), f.value) || (adapterOk && IsSpent(old(db), f.value))
      ensures r.Refused? && Project(h, old(db)).Refused? ==> r.error == Project(h, old(db)).error
      ensures r.Refused? && Project(h, old(db)).Ok? ==>
                && var c := Restored(old(db).journal); var f := ApprovalOf(old(db), c);
                   f.Some? && r.error == NoApproval(old(db), c, f.value,
                                                    Project(h, old(db)).value.state.AWAITING_APPROVAL?,
                                                    Key("approve", callerKey, old(db)), approver, now)
    {
      var projection := Project(h, db);
      if projection.Refused? { return Refused(projection.error); }
      var c := Restored(db.journal);
      HeadFits(h, db);
      ApprovalIsOfferedWhileAwaited(db, c, Last(db.journal).transition);
      var found := FindPending(db, c);
      if found.Refused? { return Refused(StateConflict); }
      if found.value.None? {
        return if projection.value.state.AWAITING_APPROVAL? then Refused(IllegalAction) else Ok(None);
      }
      r := ApproveFound(c, found.value.value, projection.value.state.AWAITING_APPROVAL?, Key("approve", callerKey, db),
                        approver, now, adapterOk);
    }

    /** The request was approved before. */
    predicate WasGranted(rows: Db, f: PendingApproval) {
      f.approvalId in rows.approvals && rows.approvals[f.approvalId].status.ApprovalGranted?
    }

    /** The action is not, or no longer, there to be resumed. */
    predicate IsSpent(rows: Db, f: PendingApproval) {
      f.row < |rows.pendings| && !rows.pendings[f.row].status.PendingApproved?
    }

    /** Why an approval does not go through: by the first check that fails, and by the adapter last of all. */
    function NoApproval(rows: Db, c: Checkpoint, f: PendingApproval, awaiting: bool, key: string, approver: string,
                        now: int): ServiceError {
      if awaiting && !MayDecide(rows, f, approver, now) then ApprovalRefused
      else if !awaiting && IsSpent(rows, f) then AdapterUnavailable
      else if c.activeStep.None? || !PairIs(rows, c.activeStep.value, NativePendingApproval) then ApprovalRefused
      else if ApproveTx(h, rows, approver, key, now).None? then AppendRefused
      else AdapterUnavailable
    }

    /** The approval of the one pending action, asked for while it was awaited or found when it was not. */
    method ApproveFound(c: Checkpoint, f: PendingApproval, awaiting: bool, key: string, approver: string, now: int,
                        adapterOk: bool)
      returns (r: Result<Option<Checkpoint>, ServiceError>)
      requires UniqueApprovals(db) && Load(h, db) == Ok(c) && Project(h, db).Ok? && ApprovalOf(db, c) == Some(f)
      requires awaiting <==> AwaitsDecision(db, c, f)
      modifies this
      ensures var tx := if adapterOk then ApproveTx(h, old(db), approver, key, now) else None;
              db == AfterTx(old(db), tx) && (tx.Some? <==> r.Ok? && r.value.Some?)
                  && (tx.Some? ==> r.value.value == Restored(db.journal))
      ensures r == Ok(None) <==> !awaiting && (!WasGranted(old(db), f) || (adapterOk && IsSpent(old(db), f)))
      ensures r.Refused? ==> r.error == NoApproval(old(db), c, f, awaiting, key, approver, now)
    {
      hide Accepts, NativeOk, EventFor;
      ApprovalNamesARow(db, c);
      var draft := Stand(c, f, awaiting, approver, now);
      if draft.Refused? { return Refused(draft.error); }
      if draft.value.None? { return Ok(None); }
      r := Resume(draft.value.value, c, f, key, now, adapterOk);
    }

    /** The rows with the approval in place: given now, or found given; `None` when there is no approval to act on. */
    method Stand(c: Checkpoint, f: PendingApproval, awaiting: bool, approver: string,
                 now: int) returns (r: Result<Option<Db>, ServiceError>)
      requires UniqueApprovals(db) && f.row < |db.pendings| && f.approvalId in db.approvals
               && db.pendings[f.row].approvalId == Some(f.approvalId)
      requires awaiting <==> AwaitsDecision(db, c, f)
      ensures awaiting ==>
                r == if MayDecide(db, f, approver, now) then Ok(Some(Decided(db, f, true)))
                     else Refused(ApprovalRefused)
      ensures !awaiting ==> r == Ok(if db.approvals[f.approvalId].status.ApprovalGranted? then Some(db) else None)
    {
      if awaiting {
        var decided := Decide(db, f.approvalId, approver, true, now, f);
        return if decided.None? then Refused(ApprovalRefused) else Ok(decided);
      }
      return Ok(if db.approvals[f.approvalId].status.ApprovalGranted? then Some(db) else None);
    }

    /** Spends an approved action, resumes its step and journals the resumption; anything else is left alone. */
    method Resume(draft: Db, c: Checkpoint, f: PendingApproval, key: string, now: int,
                  adapterOk: bool) returns (r: Result<Option<Checkpoint>, ServiceError>)
      requires Load(h, draft) == Ok(c) && c.activeStep.Some? && f.row < |draft.pendings|
      modifies this
      ensures var tx :=
                if adapterOk && draft.pendings[f.row].status.PendingApproved?
                   && PairIs(draft, c.activeStep.value, NativePendingApproval)
                then JournalTx(h, Resumed(draft, f, c.activeStep.value), c.(state := ACTIVE), ApprovalResumed, key, now)
                else None;
              db == AfterTx(old(db), tx) && (tx.Some? <==> r.Ok? && r.value.Some?)
                  && (tx.Some? ==> r.value.value == Restored(db.journal))
      ensures r == Ok(None) <==> adapterOk && !draft.pendings[f.row].status.PendingApproved?
      ensures r.Refused? ==>
                r.error == if !draft.pendings[f.row].status.PendingApproved? then AdapterUnavailable
                           else if !PairIs(draft, c.activeStep.value, NativePendingApproval) then ApprovalRefused
                           else if JournalTx(h, Resumed(draft, f, c.activeStep.value), c.(state := ACTIVE),
                                             ApprovalResumed, key, now).None?
                           then AppendRefused else AdapterUnavailable
    {
      var pending := draft.pendings[f.row];
      if !pending.status.PendingApproved? {
        return if adapterOk then Ok(None) else Refused(AdapterUnavailable);
      }
      if !PairIs(draft, c.activeStep.value, NativePendingApproval) { return Refused(ApprovalRefused); }
      var appended := AppendTo(Resumed(draft, f, c.activeStep.value), c.(state := ACTIVE), ApprovalResumed, key, now);
      if appended.None? { return Refused(AppendRefused); }
      if !adapterOk { return Refused(AdapterUnavailable); }
      db := appended.value.0;
      return Ok(Some(appended.value.1));
    }

    method PauseForApproval(p: PauseRequest, key: string, now: int) returns (r: Result<Checkpoint, ServiceError>)
      modifies this
      ensures var tx := PauseTx(h, old(db), p, key, now);
              db == AfterTx(old(db), tx) && (tx.Some? <==> r.Ok?) && (tx.Some? ==> r.value == Restored(db.journal))
      ensures r.Refused? ==>
                r.error == if Load(h, db).Refused? then Load(h, db).error
                           else if Restored(db.journal).activeStep.None?
                                   || !PauseMatches(Restored(db.journal).activeStep.value, p) then StateConflict
                           else if HasOpenPending(db, p.taskId, p.stepId) || !ApprovalIdFresh(db, p.approvalId)
                                   || !PairIs(db, Restored(db.journal).activeStep.value, NativeRunning)
                           then PauseRefused else AppendRefused
    {
      var loaded := Load(h, db);
      if loaded.Refused? { return Refused(loaded.error); }
      var c := loaded.value;
      if c.activeStep.None? || !PauseMatches(c.activeStep.value, p) { return Refused(StateConflict); }
      if HasOpenPending(db, p.taskId, p.stepId) || !ApprovalIdFresh(db, p.approvalId)
        || !PairIs(db, c.activeStep.value, NativeRunning) {
        return Refused(PauseRefused);
      }
      var appended := AppendTo(Paused(db, p, c.activeStep.value), c.(state := APPROVAL_REQUIRED), ApprovalRequired,
                               key, now);
      if appended.None? { return Refused(AppendRefused); }
      db := appended.value.0;
      return Ok(appended.value.1);
    }

    /** Reflects one pack result into the journal; a probe's result is dropped unless the run is still probe-blocked. */
    method ReflectResult(input: Input, key: string, now: int) returns (r: Result<Option<Checkpoint>, ServiceError>)
      modifies this
      ensures var tx := ReflectTx(h, old(db), input, key, now);
              db == AfterTx(old(db), tx) && (tx.Some? <==> r.Ok? && r.value.Some?)
                  && (tx.Some? ==> r.value.value == Restored(db.journal))
      ensures r == Ok(None) <==>
              && Load(h, old(db)).Ok?
              && var c := Load(h, old(db)).value;
                 Translate(c, input) == Ok(None) || (input.Probed? && !c.state.PROBE_BLOCKED?)
      ensures r.Refused? ==>
                r.error == if Load(h, db).Refused? then Load(h, db).error
                           else if Moves(Load(h, db).value, input) then AppendRefused else CoordinationRefused
    {
      var loaded := Load(h, db);
      if loaded.Refused? { return Refused(loaded.error); }
      var c := loaded.value;
      if input.Probed? && !c.state.PROBE_BLOCKED? { return Ok(None); }
      var translated := Translate(c, input);
      if translated.Refused? { return Refused(CoordinationRefused); }
      if translated.value.None? { return Ok(None); }
      TranslationFitsItsTransition(c, input);
      var appended := AppendTo(db, translated.value.value.0, translated.value.value.1, key, now);
      if appended.None? { return Refused(AppendRefused); }
      db := appended.value.0;
      return Ok(Some(appended.value.1));
    }
  }
}
