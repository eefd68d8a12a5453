/**
  Idempotent admission as a protocol: any number of submitters, each looking for an earlier admission, inserting its
  own, and looking again when a unique constraint says it came too late; interleaved, and each may die at any point.
*/
module AdmissionPersistence {
  import opened Outcomes
  import Identity = AdmissionIdentity

  /** What one call brings to the tables. */
  datatype AdmissionDraft = AdmissionDraft(admissionId: string, organizationId: string, requestId: string,
                                           taskId: string, contractId: string, fingerprint: string)

  datatype Row = Row(admissionId: string, organizationId: string, requestId: string, taskId: string,
                     contractId: string, fingerprint: string, committedAt: int)

  /** Admission rows in the order they were committed, and the admissions announced in the outbox. */
  datatype Store = Store(rows: seq<Row>, outbox: seq<string>)

  datatype Outcome = Receipt(admissionId: string, taskId: string, contractId: string, committedAt: int,
                             duplicate: bool) | Conflict | IntegrityRaised

  /** `Absent` has seen no earlier admission; `Collided` ran into a unique constraint. */
  datatype Pc = Begun | Absent | Collided | Over(outcome: Outcome) | Dead

  datatype Process = Process(pc: Pc, submission: AdmissionDraft)

  /** `authors` is history: which process inserted which row. */
  datatype World = World(store: Store, procs: seq<Process>, authors: map<nat, nat>)

  datatype Step =
    | Submit(submission: AdmissionDraft)
    | Look(p: nat)
    | Insert(p: nat, now: int, answered: bool)
    | LookAgain(p: nat)
    | Die(p: nat)

  predicate SameKey(row: Row, s: AdmissionDraft) {
    row.organizationId == s.organizationId && row.requestId == s.requestId
  }

  /** The first row of a tenant and request. */
  function Existing(rows: seq<Row>, s: AdmissionDraft): (r: Option<nat>)
    ensures r.Some? ==> r.value < |rows| && SameKey(rows[r.value], s)
    ensures r.None? ==> forall i :: 0 <= i < |rows| ==> !SameKey(rows[i], s)
  {
    if rows == [] then None
    else
      var front := Existing(rows[..|rows| - 1], s);
      if front.Some? then front else if SameKey(rows[|rows| - 1], s) then Some(|rows| - 1) else None
  }

  /** An earlier row is answered by its own receipt when it means the same, and by a conflict when it does not. */
  function Resolve(row: Row, s: AdmissionDraft): Outcome {
    if row.fingerprint != s.fingerprint then Conflict
      else Receipt(row.admissionId, row.taskId, row.contractId, row.committedAt, true)
  }

  /** The primary key or one of the two unique constraints. */
  predicate Clashes(row: Row, s: AdmissionDraft) {
    || row.admissionId == s.admissionId
    || (row.organizationId == s.organizationId && (row.requestId == s.requestId || row.taskId == s.taskId))
  }

  predicate Violates(store: Store, s: AdmissionDraft) {
    s.admissionId in store.outbox || exists i :: 0 <= i < |store.rows| && Clashes(store.rows[i], s)
  }

  function RowOf(s: AdmissionDraft, now: int): Row {
    Row(s.admissionId, s.organizationId, s.requestId, s.taskId, s.contractId, s.fingerprint, now)
  }

  function Moved(w: World, p: nat, pc: Pc): World
    requires p < |w.procs|
  {
    w.(procs := w.procs[p := w.procs[p].(pc := pc)])
  }

  function Looked(store: Store, s: AdmissionDraft, otherwise: Pc): Pc {
    var i := Existing(store.rows, s);
    if i.Some? then Over(Resolve(store.rows[i.value], s)) else otherwise
  }

  function Next(w: World, step: Step): World {
    match step
    case Submit(s) => w.(procs := w.procs + [Process(Begun, s)])
    case Look(p) =>
      if p < |w.procs| && w.procs[p].pc.Begun? then Moved(w, p, Looked(w.store, w.procs[p].submission, Absent)) else w
    case Insert(p, now, answered) =>
      if p < |w.procs| && w.procs[p].pc.Absent? then
        var s := w.procs[p].submission;
        if Violates(w.store, s) then Moved(w, p, Collided)
        else
          var receipt := Receipt(s.admissionId, s.taskId, s.contractId, now, false);
          Moved(w, p, if answered then Over(receipt) else Dead)
            .(store := Store(w.store.rows + [RowOf(s, now)], w.store.outbox + [s.admissionId]),
              authors := w.authors[|w.store.rows| := p])
      else w
    case LookAgain(p) =>
      if p < |w.procs| && w.procs[p].pc.Collided?
        then Moved(w, p, Looked(w.store, w.procs[p].submission, Over(IntegrityRaised))) else w
    case Die(p) => if p < |w.procs| && !w.procs[p].pc.Over? && !w.procs[p].pc.Dead? then Moved(w, p, Dead) else w
  }

  function RunSteps(w: World, steps: seq<Step>): World {
    if steps == [] then w else Next(RunSteps(w, steps[..|steps| - 1]), steps[|steps| - 1])
  }

  // ----- The invariant -------------------------------------------------------

  /** The tables' constraints, and one outbox row for every admission row and for nothing else. */
  ghost predicate StoreOk(store: Store) {
    && |store.outbox| == |store.rows|
    && (forall i :: 0 <= i < |store.rows| ==> store.outbox[i] == store.rows[i].admissionId)
    && (forall i, j :: 0 <= i < j < |store.rows| ==>
          && store.rows[i].admissionId != store.rows[j].admissionId
          && (store.rows[i].organizationId == store.rows[j].organizationId ==>
                store.rows[i].requestId != store.rows[j].requestId && store.rows[i].taskId != store.rows[j].taskId))
  }

  /** The row a receipt speaks of. */
  predicate Backs(row: Row, s: AdmissionDraft, o: Outcome)
    requires o.Receipt?
  {
    SameKey(row, s) && row.fingerprint == s.fingerprint
    && (row.admissionId, row.taskId, row.contractId, row.committedAt)
         == (o.admissionId, o.taskId, o.contractId, o.committedAt)
  }

  predicate HasRow(store: Store, s: AdmissionDraft) {
    exists i :: 0 <= i < |store.rows| && SameKey(store.rows[i], s)
  }

  predicate HasOtherMeaning(store: Store, s: AdmissionDraft) {
    exists i :: 0 <= i < |store.rows| && SameKey(store.rows[i], s) && store.rows[i].fingerprint != s.fingerprint
  }

  /** A non-duplicate receipt belongs to the author of its row. */
  predicate ReceiptOk(w: World, p: nat, o: Outcome)
    requires p < |w.procs| && o.Receipt?
  {
    exists i :: 0 <= i < |w.store.rows| && Backs(w.store.rows[i], w.procs[p].submission, o)
        && (!o.duplicate ==> i in w.authors && w.authors[i] == p)
  }

  predicate ProcOk(w: World, p: nat)
    requires p < |w.procs|
  {
    var s := w.procs[p].submission;
    match w.procs[p].pc
    case Collided => Violates(w.store, s)
    case Over(o) =>
      (match o
       case Receipt(_, _, _, _, _) => ReceiptOk(w, p, o)
       case Conflict => HasOtherMeaning(w.store, s)
       case IntegrityRaised => SharesAnId(w.store, s))
    case _ => true
  }

  /** A row has the same admission id, or the same task id in the same tenant. */
  predicate SharesAnId(store: Store, s: AdmissionDraft) {
    exists i :: 0 <= i < |store.rows|
                && (store.rows[i].admissionId == s.admissionId
                    || (store.rows[i].organizationId == s.organizationId && store.rows[i].taskId == s.taskId))
  }

  /** The author of a row either died or holds a non-duplicate receipt. */
  predicate AuthorOk(w: World, i: nat)
    requires i in w.authors
  {
    && i < |w.store.rows| && w.authors[i] < |w.procs|
    && var s := w.procs[w.authors[i]].submission;
    && w.store.rows[i] == Row(s.admissionId, s.organizationId, s.requestId, s.taskId, s.contractId, s.fingerprint,
                              w.store.rows[i].committedAt)
    && var pc := w.procs[w.authors[i]].pc;
       pc.Dead? || pc == Pc.Over(Receipt(s.admissionId, s.taskId, s.contractId, w.store.rows[i].committedAt, false))
  }

  ghost predicate Inv(w: World) {
    && StoreOk(w.store)
    && (forall p :: 0 <= p < |w.procs| ==> ProcOk(w, p))
    && (forall i :: i in w.authors ==> AuthorOk(w, i))
  }

  ghost predicate Initial(w: World) {
    StoreOk(w.store) && w.procs == [] && w.authors == map[]
  }

  /** Rows are only ever added. */
  predicate Grows(before: Store, after: Store) {
    before.rows <= after.rows && before.outbox <= after.outbox
  }

  lemma GrowthKeepsProcOk(w: World, w': World, p: nat)
    requires p < |w.procs| && p < |w'.procs| && w'.procs[p] == w.procs[p] && ProcOk(w, p) && Grows(w.store, w'.store)
    requires forall i :: i in w.authors ==> i in w'.authors && w'.authors[i] == w.authors[i]
    ensures ProcOk(w', p)
  {
    assert forall i :: 0 <= i < |w.store.rows| ==> w'.store.rows[i] == w.store.rows[i];
    assert forall id :: id in w.store.outbox ==> id in w'.store.outbox;
  }

  lemma MoveKeepsInv(w: World, p: nat, pc: Pc)
    requires Inv(w) && p < |w.procs| && ProcOk(Moved(w, p, pc), p)
    requires !w.procs[p].pc.Over? && !w.procs[p].pc.Dead?
    ensures Inv(Moved(w, p, pc))
  {
    var w' := Moved(w, p, pc);
    forall q | 0 <= q < |w'.procs| ensures ProcOk(w', q) {
      if q != p { assert ProcOk(w, q); GrowthKeepsProcOk(w, w', q); }
    }
    forall i | i in w'.authors ensures AuthorOk(w', i) { assert AuthorOk(w, i); }
  }

  /** A collision with nobody's row of the same request is one of ids. */
  lemma CollisionSharesAnId(store: Store, s: AdmissionDraft)
    requires StoreOk(store) && Violates(store, s) && Existing(store.rows, s).None?
    ensures SharesAnId(store, s)
  {
    if s.admissionId in store.outbox {
      var i :| 0 <= i < |store.outbox| && store.outbox[i] == s.admissionId;
      assert store.rows[i].admissionId == s.admissionId;
    } else {
      var i :| 0 <= i < |store.rows| && Clashes(store.rows[i], s);
      assert !SameKey(store.rows[i], s);
    }
  }

  /** An answer taken from the tables is a true one. */
  lemma LookedIsOk(w: World, p: nat, otherwise: Pc)
    requires Inv(w) && p < |w.procs|
    requires Existing(w.store.rows, w.procs[p].submission).None? ==> ProcOk(Moved(w, p, otherwise), p)
    ensures ProcOk(Moved(w, p, Looked(w.store, w.procs[p].submission, otherwise)), p)
  {
    var s := w.procs[p].submission;
    var i := Existing(w.store.rows, s);
    if i.Some? && w.store.rows[i.value].fingerprint == s.fingerprint {
      assert Backs(w.store.rows[i.value], s, Resolve(w.store.rows[i.value], s));
    }
  }

  lemma InsertKeepsInv(w: World, p: nat, now: int, answered: bool)
    requires Inv(w) && p < |w.procs| && w.procs[p].pc.Absent? && !Violates(w.store, w.procs[p].submission)
    ensures Inv(Next(w, Insert(p, now, answered)))
  {
    var w' := Next(w, Insert(p, now, answered));
    var s, n := w.procs[p].submission, |w.store.rows|;
    forall i | i in w.authors ensures i < n { assert AuthorOk(w, i); }
    InsertKeepsStoreOk(w.store, s, now);
    forall q | 0 <= q < |w'.procs| ensures ProcOk(w', q) {
      if q != p { assert ProcOk(w, q); GrowthKeepsProcOk(w, w', q); }
        else if answered { assert Backs(w'.store.rows[n], s, w'.procs[p].pc.outcome); }
    }
    forall i | i in w'.authors ensures AuthorOk(w', i) {
      if i != n { assert AuthorOk(w, i); }
    }
  }

  lemma InsertKeepsStoreOk(store: Store, s: AdmissionDraft, now: int)
    requires StoreOk(store) && !Violates(store, s)
    ensures StoreOk(Store(store.rows + [RowOf(s, now)], store.outbox + [s.admissionId]))
  {
    forall i | 0 <= i < |store.rows| ensures !Clashes(store.rows[i], s) {}
  }

  lemma NextKeepsInv(w: World, step: Step)
    requires Inv(w)
    ensures Inv(Next(w, step)) && Grows(w.store, Next(w, step).store)
  {
    match step
    case Submit(s) => SubmitKeepsInv(w, s);
    case Look(p) =>
      if p < |w.procs| && w.procs[p].pc.Begun? {
        LookedIsOk(w, p, Absent);
        MoveKeepsInv(w, p, Looked(w.store, w.procs[p].submission, Absent));
      }
    case Insert(p, now, answered) =>
      if p < |w.procs| && w.procs[p].pc.Absent? {
        if Violates(w.store, w.procs[p].submission) { MoveKeepsInv(w, p, Collided); }
          else { InsertKeepsInv(w, p, now, answered); }
      }
    case LookAgain(p) =>
      if p < |w.procs| && w.procs[p].pc.Collided? {
        assert ProcOk(w, p);
        if Existing(w.store.rows, w.procs[p].submission).None? {
          CollisionSharesAnId(w.store, w.procs[p].submission);
        }
        LookedIsOk(w, p, Over(IntegrityRaised));
        MoveKeepsInv(w, p, Looked(w.store, w.procs[p].submission, Over(IntegrityRaised)));
      }
    case Die(p) =>
      if p < |w.procs| && !w.procs[p].pc.Over? && !w.procs[p].pc.Dead? { MoveKeepsInv(w, p, Dead); }
  }

  lemma SubmitKeepsInv(w: World, s: AdmissionDraft)
    requires Inv(w)
    ensures Inv(Next(w, Submit(s)))
  {
    var w' := Next(w, Submit(s));
    forall q | 0 <= q < |w'.procs| ensures ProcOk(w', q) {
      if q < |w.procs| {
        assert ProcOk(w, q);
        GrowthKeepsProcOk(w, w', q);
      }
    }
    forall i | i in w'.authors ensures AuthorOk(w', i) { assert AuthorOk(w, i); }
  }

  lemma {:induction false} RunKeepsInv(w: World, steps: seq<Step>)
    requires Inv(w)
    ensures Inv(RunSteps(w, steps)) && Grows(w.store, RunSteps(w, steps).store)
  {
    if steps != [] {
      RunKeepsInv(w, steps[..|steps| - 1]);
      NextKeepsInv(RunSteps(w, steps[..|steps| - 1]), steps[|steps| - 1]);
    }
  }

  // ----- Over whole runs -----------------------------------------------------

  predicate Received(w: World, p: nat) {
    p < |w.procs| && w.procs[p].pc.Over? && w.procs[p].pc.outcome.Receipt?
  }

  predicate SameRequest(a: AdmissionDraft, b: AdmissionDraft) {
    a.organizationId == b.organizationId && a.requestId == b.requestId
  }

  /**
    However submissions of one tenant and request interleave: every receipt names the same admission, task, contract and
    commit time, all of them for the same meaning, and at most one of them is not a duplicate.
  */
  lemma ReceiptsAgree(w0: World, steps: seq<Step>, p: nat, q: nat)
    requires Initial(w0)
    requires Received(RunSteps(w0, steps), p) && Received(RunSteps(w0, steps), q)
    requires SameRequest(RunSteps(w0, steps).procs[p].submission, RunSteps(w0, steps).procs[q].submission)
    ensures var w := RunSteps(w0, steps); var a, b := w.procs[p].pc.outcome, w.procs[q].pc.outcome;
            && a == b.(duplicate := a.duplicate)
            && w.procs[p].submission.fingerprint == w.procs[q].submission.fingerprint
            && (!a.duplicate && !b.duplicate ==> p == q)
  {
    RunKeepsInv(w0, steps);
    var w := RunSteps(w0, steps);
    assert ProcOk(w, p) && ProcOk(w, q);
    var a, b := w.procs[p].pc.outcome, w.procs[q].pc.outcome;
    var i :| 0 <= i < |w.store.rows| && Backs(w.store.rows[i], w.procs[p].submission, a)
      && (!a.duplicate ==> i in w.authors && w.authors[i] == p);
    var j :| 0 <= j < |w.store.rows| && Backs(w.store.rows[j], w.procs[q].submission, b)
      && (!b.duplicate ==> j in w.authors && w.authors[j] == q);
    assert i == j;
  }

  /**
    One admission row for a tenant and request at any moment, each announced once in the outbox and nothing else
    announced.
  */
  lemma OneRowPerRequest(w0: World, steps: seq<Step>, s: AdmissionDraft, i: nat, j: nat)
    requires Initial(w0)
    requires var rows := RunSteps(w0, steps).store.rows;
             i < |rows| && j < |rows| && SameKey(rows[i], s) && SameKey(rows[j], s)
    ensures i == j
    ensures var store := RunSteps(w0, steps).store;
            |store.outbox| == |store.rows| && store.outbox[i] == store.rows[i].admissionId
            && forall k :: 0 <= k < |store.outbox| && store.outbox[k] == store.rows[i].admissionId ==> k == i
  {
    RunKeepsInv(w0, steps);
  }

  /**
    A row added during the run has one author and says what that author submitted; unless it died in between, the author
    holds the row's non-duplicate receipt.
  */
  lemma EveryNewRowHasItsReceipt(w0: World, steps: seq<Step>, i: nat)
    requires Initial(w0) && |w0.store.rows| <= i < |RunSteps(w0, steps).store.rows|
    ensures var w := RunSteps(w0, steps);
            && i in w.authors && w.authors[i] < |w.procs|
            && var s, pc, t := w.procs[w.authors[i]].submission, w.procs[w.authors[i]].pc, w.store.rows[i].committedAt;
               && w.store.rows[i]
                    == Row(s.admissionId, s.organizationId, s.requestId, s.taskId, s.contractId, s.fingerprint, t)
               && (pc.Dead? || pc == Pc.Over(Receipt(s.admissionId, s.taskId, s.contractId, t, false)))
  {
    RunKeepsInv(w0, steps);
    NewRowsHaveAuthors(w0, steps, i);
    assert AuthorOk(RunSteps(w0, steps), i);
  }

  lemma {:induction false} NewRowsHaveAuthors(w0: World, steps: seq<Step>, i: nat)
    requires Initial(w0) && |w0.store.rows| <= i < |RunSteps(w0, steps).store.rows|
    ensures i in RunSteps(w0, steps).authors
  {
    if steps != [] {
      if i < |RunSteps(w0, steps[..|steps| - 1]).store.rows| {
        NewRowsHaveAuthors(w0, steps[..|steps| - 1], i);
      }
    }
  }

  /**
    A finished submitter got a receipt, or its request was admitted with another meaning, or it ran into a constraint.
  */
  lemma OutcomesAreTrue(w0: World, steps: seq<Step>, p: nat)
    requires Initial(w0) && p < |RunSteps(w0, steps).procs| && RunSteps(w0, steps).procs[p].pc.Over?
    ensures var w := RunSteps(w0, steps); var s := w.procs[p].submission; var o := w.procs[p].pc.outcome;
            && (o.Receipt? ==> HasRow(w.store, s) && !HasOtherMeaning(w.store, s))
            && (o.Conflict? ==> HasOtherMeaning(w.store, s))
            && (o.IntegrityRaised? ==> SharesAnId(w.store, s))
  {
    RunKeepsInv(w0, steps);
    var w := RunSteps(w0, steps);
    assert ProcOk(w, p);
    if w.procs[p].pc.outcome.Receipt? {
      var i :| 0 <= i < |w.store.rows| && Backs(w.store.rows[i], w.procs[p].submission, w.procs[p].pc.outcome);
      OneRow(w.store, w.procs[p].submission, i);
    }
  }

  lemma OneRow(store: Store, s: AdmissionDraft, i: nat)
    requires StoreOk(store) && i < |store.rows| && SameKey(store.rows[i], s)
    ensures forall j :: 0 <= j < |store.rows| && SameKey(store.rows[j], s) ==> j == i
    ensures Existing(store.rows, s) == Some(i)
  {
  }

  /**
    Where admission and task ids are never shared between requests, a collision is always with one's own request, and
    nobody sees it raised.
  */
  lemma CollisionsAreWithOwnRequest(w: World, p: nat)
    requires Inv(w) && p < |w.procs| && w.procs[p].pc.Collided?
    requires forall i :: 0 <= i < |w.store.rows| && Clashes(w.store.rows[i], w.procs[p].submission) ==>
        SameKey(w.store.rows[i], w.procs[p].submission)
    ensures HasRow(w.store, w.procs[p].submission)
    ensures Next(w, LookAgain(p)).procs[p].pc.Over? && !Next(w, LookAgain(p)).procs[p].pc.outcome.IntegrityRaised?
  {
    assert ProcOk(w, p);
    var s := w.procs[p].submission;
    if s.admissionId in w.store.outbox {
      var i :| 0 <= i < |w.store.outbox| && w.store.outbox[i] == s.admissionId;
      assert Clashes(w.store.rows[i], s);
    }
    var i :| 0 <= i < |w.store.rows| && Clashes(w.store.rows[i], s);
    OneRow(w.store, s, i);
  }

  /**
    A submitter whose request is already admitted changes nothing: with the same meaning it gets the admitted row's own
    receipt, marked as a duplicate, and with another meaning a conflict.
  */
  lemma AdmittedRequestsAreAnswered(w: World, p: nat, i: nat)
    requires Inv(w) && p < |w.procs| && (w.procs[p].pc.Begun? || w.procs[p].pc.Collided?)
    requires i < |w.store.rows| && SameKey(w.store.rows[i], w.procs[p].submission)
    ensures var w' := Next(w, if w.procs[p].pc.Begun? then Look(p) else LookAgain(p)); var row := w.store.rows[i];
            && w'.store == w.store
            && w'.procs[p].pc == Over(if row.fingerprint == w.procs[p].submission.fingerprint
                                      then Receipt(row.admissionId, row.taskId, row.contractId, row.committedAt, true)
                                          else Conflict)
  {
    OneRow(w.store, w.procs[p].submission, i);
  }

  /**
    Which answer it is depends on meaning alone: a bundle that means the same as the admitted one, however long it took
    to come back and whatever times it carries now, is a duplicate; any other is a conflict.
  */
  lemma MeaningDecidesTheAnswer(digest: Identity.Payload -> string, w: World, p: nat, i: nat,
                                admitted: Identity.BundleContent, submitted: Identity.BundleContent, shift: int)
    requires Identity.DistinctDigests(digest) && Inv(w) && p < |w.procs| && w.procs[p].pc.Begun?
    requires i < |w.store.rows| && SameKey(w.store.rows[i], w.procs[p].submission)
    requires w.store.rows[i].fingerprint == digest(Identity.NormalPayload(admitted))
    requires w.procs[p].submission.fingerprint == digest(Identity.NormalPayload(submitted))
    ensures var answer := Next(w, Look(p)).procs[p].pc;
            && answer.Over? && !answer.outcome.IntegrityRaised?
            && (answer.outcome.Receipt? <==> Identity.SameSemantics(admitted, submitted))
            && (answer.outcome.Receipt? ==>
                  answer.outcome.duplicate && answer.outcome.admissionId == w.store.rows[i].admissionId)
            && (submitted == Identity.Shifted(admitted, shift) ==> answer.outcome.Receipt?)
  {
    AdmittedRequestsAreAnswered(w, p, i);
    Identity.FingerprintsIdentifySemantics(digest, admitted, submitted);
    Identity.ShiftingKeepsTheFingerprint(digest, admitted, shift);
  }

  /**
    And one that looked too early, before the row was there, is stopped by the constraint and changes nothing either.
  */
  lemma LateInsertsChangeNothing(w: World, p: nat, now: int, answered: bool)
    requires Inv(w) && p < |w.procs| && w.procs[p].pc.Absent? && HasRow(w.store, w.procs[p].submission)
    ensures var w' := Next(w, Insert(p, now, answered)); w'.store == w.store && w'.procs[p].pc.Collided?
  {
    var i :| 0 <= i < |w.store.rows| && SameKey(w.store.rows[i], w.procs[p].submission);
    assert Clashes(w.store.rows[i], w.procs[p].submission);
  }

  // ----- The repository ------------------------------------------------------

  lemma RunAppends(w: World, history: seq<Step>, step: Step)
    ensures RunSteps(w, history + [step]) == Next(RunSteps(w, history), step)
  {
    assert (history + [step])[..|history|] == history;
  }

  predicate OfProcess(step: Step, p: nat) {
    !step.Submit? && step.p == p
  }

  /** Process `p` stands at `pc` with its submission, and no row is lost. */
  predicate Advanced(w: World, w': World, p: nat, pc: Pc) {
    p < |w.procs| <= |w'.procs| && w'.procs[p] == w.procs[p].(pc := pc) && Grows(w.store, w'.store)
  }

  /** What the repository reads of an admission bundle; `content` is all that its payload says. */
  datatype Submitted = Submitted(taskAuditOnly: bool, contractAuditOnly: bool, taskTenant: string,
                                 snapshotTenant: string, contractTenant: string, requestTenant: string,
                                 auditTenant: string, requestCapability: string, auditCapability: string,
                                 grantCapabilities: seq<string>, stepCapabilities: seq<string>,
                                 allowedOperations: set<string>, admissionId: string, requestId: string,
                                 taskId: string, contractId: string, content: Identity.BundleContent)

  /** What is inserted for a bundle. */
  function DraftOf(b: Submitted, fingerprint: string): AdmissionDraft {
    AdmissionDraft(b.admissionId, b.taskTenant, b.requestId, b.taskId, b.contractId, fingerprint)
  }

  /** Every part of the bundle belongs to one tenant. */
  predicate OneTenant(b: Submitted) {
    b.taskTenant == b.snapshotTenant == b.contractTenant == b.requestTenant == b.auditTenant
  }

  /** Every capability the bundle mentions is allowed. */
  predicate CapabilitiesAllowed(b: Submitted, allowed: set<string>) {
    && b.requestCapability in allowed && b.auditCapability in allowed
    && (forall i :: 0 <= i < |b.grantCapabilities| ==> b.grantCapabilities[i] in allowed)
    && (forall i :: 0 <= i < |b.stepCapabilities| ==> b.stepCapabilities[i] in allowed)
    && b.allowedOperations <= allowed
  }

  /** Why a bundle is refused before the tables are touched, in the order of the checks. */
  function Refusal(b: Submitted, tenants: set<string>, capabilities: set<string>): Option<string> {
    if !b.taskAuditOnly || !b.contractAuditOnly then Some("Task admission persistence remains audit-only")
    else if !OneTenant(b) then Some("Task admission tenant bindings are inconsistent")
    else if b.taskTenant !in tenants then Some("Task admission tenant is outside the repository allowlist")
    else if !CapabilitiesAllowed(b, capabilities)
    then Some("Task admission capability is outside the repository allowlist")
    else None
  }

  /** The answer an admitted row gives to a bundle with this fingerprint. */
  function AnswerOf(row: Row, fingerprint: string): Outcome {
    if row.fingerprint == fingerprint
    then Receipt(row.admissionId, row.taskId, row.contractId, row.committedAt, true) else Conflict
  }

  /**
    A row whose fingerprint came from `admitted` answers a bundle with its own receipt exactly when the bundle means the
    same, and with a conflict exactly when it does not.
  */
  ghost predicate AnswersByMeaning(digest: Identity.Payload -> string, row: Row, content: Identity.BundleContent,
                                   outcome: Outcome) {
    Identity.DistinctDigests(digest) ==>
      forall admitted: Identity.BundleContent :: row.fingerprint == digest(Identity.NormalPayload(admitted)) ==>
        outcome == if Identity.SameSemantics(admitted, content)
                   then Receipt(row.admissionId, row.taskId, row.contractId, row.committedAt, true) else Conflict
  }

  lemma FingerprintsAnswerByMeaning(digest: Identity.Payload -> string, row: Row, content: Identity.BundleContent)
    ensures AnswersByMeaning(digest, row, content, AnswerOf(row, digest(Identity.NormalPayload(content))))
  {
    if Identity.DistinctDigests(digest) {
      forall admitted: Identity.BundleContent | row.fingerprint == digest(Identity.NormalPayload(admitted))
        ensures Identity.SameSemantics(admitted, content) <==>
                row.fingerprint == digest(Identity.NormalPayload(content))
      {
        Identity.FingerprintsIdentifySemantics(digest, admitted, content);
      }
    }
  }

  /** The admission tables under concurrent submitters; `start` and `history` record how they came about. */
  class AdmissionRepository {
    const allowedTenants: set<string>
    const allowedCapabilities: set<string>
    /** How times are written, and the hash of canonical payloads. */
    const iso: int -> string
    const digest: Identity.Payload -> string
    var world: World
    ghost var start: World
    ghost var history: seq<Step>

    ghost predicate Valid()
      reads this
    {
      Initial(start) && world == RunSteps(start, history)
    }

    constructor (allowedTenants: set<string>, allowedCapabilities: set<string>, iso: int -> string,
                 digest: Identity.Payload -> string)
      requires allowedTenants != {} && allowedCapabilities != {}
      ensures Valid() && world == World(Store([], []), [], map[])
      ensures this.allowedTenants == allowedTenants && this.allowedCapabilities == allowedCapabilities
      ensures this.iso == iso && this.digest == digest
    {
      this.allowedTenants, this.allowedCapabilities := allowedTenants, allowedCapabilities;
      this.iso, this.digest := iso, digest;
      world, start, history := World(Store([], []), [], map[]), World(Store([], []), [], map[]), [];
    }

    /** One atomic step of any submitter. */
    method Do(step: Step)
      requires Valid()
      modifies this
      ensures Valid() && start == old(start) && history == old(history) + [step]
      ensures world == Next(old(world), step) && Grows(old(world).store, world.store)
    {
      RunKeepsInv(start, history);
      NextKeepsInv(world, step);
      RunAppends(start, history, step);
      world := Next(world, step);
      history := history + [step];
    }

    /** Any number of steps of the other submitters. */
    method Interfere(p: nat)
      requires Valid() && p < |world.procs|
      modifies this
      ensures Valid() && start == old(start) && Advanced(old(world), world, p, old(world.procs[p].pc))
    {
      var turns: nat := *;
      while turns > 0
        invariant Valid() && start == old(start) && Advanced(old(world), world, p, old(world.procs[p].pc))
      {
        var step: Step := *;
        if !OfProcess(step, p) {
          Do(step);
        }
        turns := turns - 1;
      }
    }

    /** The row of an admitted request, and its answer, stay what they are. */
    lemma AnswerStands(before: Store, p: nat, i: nat)
      requires Valid() && p < |world.procs| && Grows(before, world.store)
      requires i < |before.rows| && SameKey(before.rows[i], world.procs[p].submission)
      ensures var s := world.procs[p].submission;
              && Existing(world.store.rows, s) == Some(i) && world.store.rows[i] == before.rows[i]
              && forall otherwise :: Looked(world.store, s, otherwise)
                                       == Pc.Over(AnswerOf(before.rows[i], s.fingerprint))
    {
      RunKeepsInv(start, history);
      OneRow(world.store, world.procs[p].submission, i);
    }

    /**
      The first transaction: answer an earlier admission, or insert the row and its outbox entry, or collide.  What it
      inserts is what the submitter brought, at the time of the call.
    */
    method LookAndInsert(p: nat, now: int) returns (outcome: Option<Outcome>)
      requires Valid() && p < |world.procs| && world.procs[p].pc.Begun?
      modifies this
      ensures Valid() && start == old(start) && p < |world.procs|
      ensures Advanced(old(world), world, p, if outcome.Some? then Over(outcome.value) else Collided)
      ensures outcome.Some? && outcome.value.Receipt? && !outcome.value.duplicate ==>
                var s := old(world.procs[p].submission);
                && outcome.value == Receipt(s.admissionId, s.taskId, s.contractId, now, false)
                && Row(s.admissionId, s.organizationId, s.requestId, s.taskId, s.contractId, s.fingerprint, now)
                     in world.store.rows
      ensures var rows, s := old(world.store.rows), old(world.procs[p].submission);
              forall i :: 0 <= i < |rows| && SameKey(rows[i], s) ==> outcome == Some(AnswerOf(rows[i], s.fingerprint))
    {
      forall i | 0 <= i < |world.store.rows| && SameKey(world.store.rows[i], world.procs[p].submission)
        ensures Looked(world.store, world.procs[p].submission, Absent)
                  == Over(AnswerOf(world.store.rows[i], world.procs[p].submission.fingerprint))
      {
        AnswerStands(world.store, p, i);
      }
      Do(Look(p));
      var pc := world.procs[p].pc;
      if pc.Over? {
        return Some(pc.outcome);
      }
      Interfere(p);
      var s := world.procs[p].submission;
      if Violates(world.store, s) {
        Do(Insert(p, now, true));
        return None;
      }
      RunKeepsInv(start, history);
      NextKeepsInv(world, Insert(p, now, true));
      RunAppends(start, history, Insert(p, now, true));
      var receipt := Receipt(s.admissionId, s.taskId, s.contractId, now, false);
      var store := Store(world.store.rows + [RowOf(s, now)], world.store.outbox + [s.admissionId]);
      world := World(store, world.procs[p := Process(Over(receipt), s)], world.authors[|world.store.rows| := p]);
      history := history + [Insert(p, now, true)];
      return Some(receipt);
    }

    /** The checks that need no table. */
    method CheckBundle(b: Submitted) returns (refusal: Option<string>)
      ensures refusal == Refusal(b, allowedTenants, allowedCapabilities)
    {
      if !b.taskAuditOnly || !b.contractAuditOnly { return Some("Task admission persistence remains audit-only"); }
      var tenantIds := {b.taskTenant, b.snapshotTenant, b.contractTenant, b.requestTenant, b.auditTenant};
      OneTenantOneId(b);
      if |tenantIds| != 1 { return Some("Task admission tenant bindings are inconsistent"); }
      if !(tenantIds <= allowedTenants) {
        return Some("Task admission tenant is outside the repository allowlist");
      }
      var capabilityIds := {b.requestCapability, b.auditCapability} + (set c | c in b.grantCapabilities)
        + (set c | c in b.stepCapabilities) + b.allowedOperations;
      if !(capabilityIds <= allowedCapabilities) {
        return Some("Task admission capability is outside the repository allowlist");
      }
      return None;
    }

    /**
      One call.  It is refused before it touches the tables, or it is a process of the protocol that ends with what is
      returned, so everything proved about every run holds of it.  A request that was admitted before is answered by
      what its row means; one that is admitted now has its own receipt, at the time of the call.
    */
    method PersistAtomic(b: Submitted, now: int) returns (outcome: Result<Outcome, string>, ghost p: nat)
      requires Valid()
      modifies this
      ensures Valid() && start == old(start) && Grows(old(world).store, world.store)
      ensures outcome.Ok? <==>
                && b.taskAuditOnly && b.contractAuditOnly && OneTenant(b) && b.taskTenant in allowedTenants
                && CapabilitiesAllowed(b, allowedCapabilities)
      ensures outcome.Refused? ==>
                world == old(world) && Some(outcome.error) == Refusal(b, allowedTenants, allowedCapabilities)
      ensures outcome.Ok? ==>
                && p < |world.procs|
                && world.procs[p] == Process(Over(outcome.value), DraftOf(b, digest(Identity.NormalPayload(b.content))))
      ensures outcome.Ok? && outcome.value.Receipt? && !outcome.value.duplicate ==>
                outcome.value == Receipt(b.admissionId, b.taskId, b.contractId, now, false)
      ensures outcome.Ok? ==>
                forall i :: 0 <= i < |old(world).store.rows| && old(world).store.rows[i].organizationId == b.taskTenant
                            && old(world).store.rows[i].requestId == b.requestId ==>
                  AnswersByMeaning(digest, old(world).store.rows[i], b.content, outcome.value)
    {
      p := 0;
      var refusal := CheckBundle(b);
      if refusal.Some? { return Refused(refusal.value), p; }
      var fingerprint := Identity.AdmissionFingerprint(iso, digest, b.content);
      var draft := DraftOf(b, fingerprint);
      ghost var before := world.store;
      var q := |world.procs|;
      p := q;
      var answer := Persist(draft, now);
      forall i | 0 <= i < |before.rows| && SameKey(before.rows[i], draft)
        ensures AnswersByMeaning(digest, before.rows[i], b.content, answer)
      {
        FingerprintsAnswerByMeaning(digest, before.rows[i], b.content);
      }
      return Ok(answer), p;
    }

    /** A checked bundle becomes a process: it looks, inserts, and looks again when a constraint stopped it. */
    method Persist(draft: AdmissionDraft, now: int) returns (answer: Outcome)
      requires Valid()
      modifies this
      ensures Valid() && start == old(start) && Grows(old(world).store, world.store)
      ensures old(|world.procs|) < |world.procs|
      ensures world.procs[old(|world.procs|)] == Process(Over(answer), draft)
      ensures answer.Receipt? && !answer.duplicate ==>
                answer == Receipt(draft.admissionId, draft.taskId, draft.contractId, now, false)
      ensures forall i :: 0 <= i < |old(world).store.rows| && SameKey(old(world).store.rows[i], draft) ==>
                answer == AnswerOf(old(world).store.rows[i], draft.fingerprint)
    {
      var q := |world.procs|;
      Do(Submit(draft));
      Interfere(q);
      var answered := LookAndInsert(q, now);
      if answered.Some? {
        return answered.value;
      }
      Interfere(q);
      Do(LookAgain(q));
      return world.procs[q].pc.outcome;
    }
  }

  lemma OneTenantOneId(b: Submitted)
    ensures |{b.taskTenant, b.snapshotTenant, b.contractTenant, b.requestTenant, b.auditTenant}| == 1 <==> OneTenant(b)
  {
    var ids := {b.taskTenant, b.snapshotTenant, b.contractTenant, b.requestTenant, b.auditTenant};
    if |ids| == 1 {
      assert |ids - {b.taskTenant}| == 0;
      assert forall id :: id in ids ==> id == b.taskTenant;
    }
  }
}
