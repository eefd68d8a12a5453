/** What a committed command may have done to a run, and what that means for every run of commands. */
module RunLifecycle {
  import opened Outcomes
  import opened PlanJournal
  import opened Coordinator
  import opened RunDatabase

  function Closing(c: Checkpoint, state: RunState): Checkpoint
    requires c.activeStep.Some?
  {
    c.(state := state, activeStep := Some(c.activeStep.value.(state := FailedStep)))
  }

  function RequestFrom(db: Db, c: Checkpoint, t: Transition, key: string): Request
    requires db.journal != []
  {
    Request(c, t, Last(db.journal).authorityDigests, key)
  }

  function Journaled(h: Hashes, rows: Db, r: Request, now: int): Db {
    rows.(journal := rows.journal + [EventFor(h, r, now)])
  }

  /**
    Why a command may append this transition: what the run offered, what its native rows were, or which result arrived.
  */
  predicate Offered(h: Hashes, db: Db, action: PublicAction) {
    Project(h, db).Ok? && action in Project(h, db).value.actions
  }

  ghost predicate Enabled(h: Hashes, db: Db, r: Request)
    requires db.journal != []
  {
    var c := Restored(db.journal);
    match r.transition
    case RunCancelled => Offered(h, db, Cancel) && c.activeStep.Some? && r.checkpoint == Closing(c, RunState.CANCELLED)
    case ApprovalRejected =>
      Offered(h, db, Reject) && c.activeStep.Some? && r.checkpoint == Closing(c, RunState.REJECTED)
    case ApprovalResumed => c.activeStep.Some? && PairIs(db, c.activeStep.value, NativePendingApproval)
      && r.checkpoint == c.(state := ACTIVE)
    case ApprovalRequired => c.activeStep.Some? && PairIs(db, c.activeStep.value, NativeRunning)
      && r.checkpoint == c.(state := APPROVAL_REQUIRED)
    case _ => exists input :: Translate(c, input) == Ok(Some((r.checkpoint, r.transition)))
  }

  /** A pack result only adds to the journal; the other commands also move the rows they name. */
  predicate OnlyJournals(t: Transition) {
    t.ChildCompleted? || t.PlanCompleted? || t.ProbeBlocked? || t.ProbeResolved?
  }

  /** `db'` is `db` after a command committed request `r` at `now`. */
  ghost predicate Committed(h: Hashes, db: Db, db': Db, r: Request, now: int) {
    && Load(h, db).Ok?
    && Appendable(r.transition) && Enabled(h, db, r)
    && db'.root == db.root && UniqueApprovals(db')
    && db'.journal == db.journal + [EventFor(h, r, now)]
    && NativeOk(db', r.checkpoint, r.transition)
    && (OnlyJournals(r.transition) ==> db' == Journaled(h, db, r, now))
  }

  /** What every enabled request has in common: it stands at the head, is about the same run and fits its transition. */
  lemma EnabledRequestsFit(h: Hashes, db: Db, r: Request)
    requires Load(h, db).Ok? && Appendable(r.transition) && Enabled(h, db, r)
    ensures AtHead(db.journal, r.checkpoint) && SameRun(Restored(db.journal), r.checkpoint)
            && TransitionOk(r.transition, r.checkpoint)
  {
    var c := Restored(db.journal);
    if OnlyJournals(r.transition) {
      var input :| Translate(c, input) == Ok(Some((r.checkpoint, r.transition)));
      TranslationFitsItsTransition(c, input);
    }
  }

  /**
    A committed command leaves a journal one event longer.  It can be replayed exactly when the run was not
    over and the clock had not gone back, and replaying it gives the checkpoint the command wrote.
  */
  lemma CommittedEventReplays(h: Hashes, db: Db, db': Db, r: Request, now: int)
    requires Committed(h, db, db', r, now)
    ensures |db'.journal| == |db.journal| + 1
    ensures Load(h, db').Ok? <==> !Terminal(Last(db.journal).transition) && Last(db.journal).createdAt <= now
    ensures Restored(db'.journal) == r.checkpoint.(journalSequence := |db'.journal|,
                                                   journalDigest := Last(db'.journal).digest)
    ensures Last(db'.journal).transition == r.transition && Last(db'.journal).createdAt == now
  {
    EnabledRequestsFit(h, db, r);
    FreshAppendReplays(h, db.journal, r, now);
    assert Last(db'.journal) == EventFor(h, r, now);
    assert Last(db.journal).sequence == |db.journal|;
  }

  // ----- A closed run --------------------------------------------------------

  /** A run that is over and whose last child cannot run any more. */
  predicate ShutDown(db: Db)
    requires db.journal != []
  {
    && Terminal(Last(db.journal).transition)
    && var c := Restored(db.journal); c.activeStep.None? || PairIs(db, c.activeStep.value, NativeCanceled)
  }

  /** No command appends to a run that is shut down, whatever result still arrives for it. */
  lemma NothingFollowsShutdown(h: Hashes, db: Db, db': Db, r: Request, now: int)
    requires Load(h, db).Ok? && ShutDown(db)
    ensures !Committed(h, db, db', r, now)
  {
    var c := Restored(db.journal);
    if Committed(h, db, db', r, now) {
      if OnlyJournals(r.transition) {
        var input :| Translate(c, input) == Ok(Some((r.checkpoint, r.transition)));
        assert c.activeStep.Some?;
        LateResultsMeetCanceledRows(h, db, r, input, now);
        assert false;
      } else {
        ShutDownOffersNothing(h, db);
        assert false;
      }
    }
  }

  /**
    A completion would need the canceled child's rows to be completed, a pending result would need them to be pending.
  */
  lemma LateResultsMeetCanceledRows(h: Hashes, db: Db, r: Request, input: Input, now: int)
    requires Load(h, db).Ok? && ShutDown(db) && Restored(db.journal).activeStep.Some?
    requires Translate(Restored(db.journal), input) == Ok(Some((r.checkpoint, r.transition)))
    ensures !NativeOk(Journaled(h, db, r, now), r.checkpoint, r.transition)
  {
    var c := Restored(db.journal);
    var n := |c.completedPrefix|;
    if r.transition.ProbeBlocked? {
      assert !PairIs(db, r.checkpoint.activeStep.value, NativePendingProbe);
    } else {
      assert r.checkpoint == CompleteActive(c);
      assert r.checkpoint.completedPrefix[n] == c.activeStep.value.(state := CompletedStep);
      assert !PairIs(db, r.checkpoint.completedPrefix[n], NativeCompleted);
    }
  }

  lemma ShutDownOffersNothing(h: Hashes, db: Db)
    requires Load(h, db).Ok? && ShutDown(db)
    ensures !Offered(h, db, Cancel) && !Offered(h, db, Reject)
  {
    var c := Restored(db.journal);
    assert TransitionOk(Last(db.journal).transition, Last(db.journal).checkpoint);
    assert c.state == Last(db.journal).checkpoint.state;
  }

  /** A run the public sees as REJECTED or CANCELLED is shut down, and was never attempted. */
  lemma ClosedStatesAreShutDown(h: Hashes, db: Db)
    requires Project(h, db).Ok? && (Project(h, db).value.state.REJECTED? || Project(h, db).value.state.CANCELLED?)
    ensures ShutDown(db) && !EffectMayHaveStarted(db, Restored(db.journal))
    ensures Project(h, db).value.actions == []
  {
  }

  /** A run the public sees as SUCCEEDED has no active step left, so nothing can be appended to it either. */
  lemma NothingFollowsSuccess(h: Hashes, db: Db, db': Db, r: Request, now: int)
    requires Project(h, db).Ok? && Project(h, db).value.state.SUCCEEDED?
    ensures !Committed(h, db, db', r, now)
  {
    var c := Restored(db.journal);
    assert c.activeStep.None? && !Offered(h, db, Cancel) && !Offered(h, db, Reject);
    forall input: Input ensures !Moves(c, input) {
      NothingMovesAFinishedRun(c, input);
    }
  }

  lemma NothingMovesAFinishedRun(c: Checkpoint, input: Input)
    requires c.activeStep.None?
    ensures !Moves(c, input)
  {
  }

  // ----- Whole runs ----------------------------------------------------------

  /**
    Other participants change native rows, approvals and effects, but a canceled child stays canceled and nobody else
    writes the journal.
  */
  ghost predicate Outside(db: Db, db': Db) {
    && db'.root == db.root && db'.journal == db.journal && UniqueApprovals(db')
    && (forall s: StepRef :: PairIs(db, s, NativeCanceled) ==> PairIs(db', s, NativeCanceled))
  }

  datatype Happening = CommandCommitted(request: Request, now: int) | OthersActed

  ghost predicate Happens(h: Hashes, db: Db, db': Db, e: Happening) {
    match e
    case CommandCommitted(r, now) => Committed(h, db, db', r, now)
    case OthersActed => Outside(db, db')
  }

  /** A run of commands and other happenings from `dbs[0]`, on a clock that never goes back. */
  ghost predicate History(h: Hashes, dbs: seq<Db>, es: seq<Happening>) {
    && |dbs| == |es| + 1
    && (forall i {:trigger es[i]} :: 0 <= i < |es| ==> Happens(h, dbs[i], dbs[i + 1], es[i]))
    && (forall i {:trigger es[i]} :: 0 <= i < |es| && es[i].CommandCommitted? && dbs[i].journal != [] ==>
        Last(dbs[i].journal).createdAt <= es[i].now)
  }

  ghost predicate Sound(h: Hashes, db: Db) {
    Load(h, db).Ok? && (Terminal(Last(db.journal).transition) ==> ShutDown(db))
  }

  lemma OneHappeningKeepsSound(h: Hashes, db: Db, db': Db, e: Happening)
    requires Sound(h, db) && Happens(h, db, db', e)
    requires e.CommandCommitted? ==> Last(db.journal).createdAt <= e.now
    ensures Sound(h, db') && db.journal <= db'.journal
    ensures Terminal(Last(db.journal).transition) ==> db'.journal == db.journal
  {
    if e.CommandCommitted? {
      if Terminal(Last(db.journal).transition) {
        NothingFollowsShutdown(h, db, db', e.request, e.now);
      } else {
        CommittedEventReplays(h, db, db', e.request, e.now);
        ClosingShutsDown(h, db, db', e.request, e.now);
      }
    }
  }

  /** A command that ends the run leaves no child that could still run. */
  lemma ClosingShutsDown(h: Hashes, db: Db, db': Db, r: Request, now: int)
    requires Committed(h, db, db', r, now)
    ensures Terminal(Last(db'.journal).transition) ==> ShutDown(db')
  {
    CommittedEventReplays(h, db, db', r, now);
    var c := Restored(db.journal);
    if r.transition.PlanCompleted? {
      var input :| Translate(c, input) == Ok(Some((r.checkpoint, r.transition)));
      assert r.checkpoint.activeStep.None?;
    }
  }

  /**
    Over any number of commands, interleaved with anything others do to the rows: the journal can always be
    replayed, it only ever grows, and once the run is over it never changes again.
  */
  lemma {:induction false} JournalSurvivesEveryRun(h: Hashes, dbs: seq<Db>, es: seq<Happening>)
    requires History(h, dbs, es) && Sound(h, dbs[0])
    ensures Sound(h, dbs[|es|]) && dbs[0].journal <= dbs[|es|].journal
    ensures Terminal(Last(dbs[0].journal).transition) ==> dbs[|es|].journal == dbs[0].journal
  {
    if es != [] {
      var n := |es| - 1;
      var dbs', es' := dbs[..n + 1], es[..n];
      forall i | 0 <= i < n
        ensures Happens(h, dbs'[i], dbs'[i + 1], es'[i])
        ensures es'[i].CommandCommitted? && dbs'[i].journal != [] ==> Last(dbs'[i].journal).createdAt <= es'[i].now
      {
        assert es'[i] == es[i];
      }
      JournalSurvivesEveryRun(h, dbs', es');
      assert es[n] == es[|es| - 1];
      OneHappeningKeepsSound(h, dbs[n], dbs[n + 1], es[n]);
    }
  }
}
