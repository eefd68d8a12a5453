/**
  The durable permit and attempt tables, with each service transaction as a function
  from the committed tables to the tables after commit.  A transaction that raises is
  rolled back, so a refused transaction carries no new tables.
*/
module AttemptStore {
  import opened Outcomes

  datatype Effect = NoEffect | ReadEffect | InternalWrite | ExternalWrite

  datatype Mechanism = Locator | LabelText | Coordinate | JavaScript | CuaCoordinate

  datatype Profile = Profile(mechanism: Mechanism, evidenceRefs: seq<string>)

  /** Weak fallbacks never cross an external commit boundary, and every profile needs evidence. */
  predicate ProfileAllowed(effect: Effect, profile: Profile) {
    && !(effect.ExternalWrite? && (profile.mechanism.Coordinate? || profile.mechanism.JavaScript?
                                   || profile.mechanism.CuaCoordinate?))
    && profile.evidenceRefs != []
  }

  datatype PermitStatus = Issued | Consumed | Expired

  datatype PermitContext = PermitContext(effect: Effect, profile: Profile, hasCuaEvidence: bool)

  datatype Permit = Permit(taskId: string, stepId: string, fingerprint: string, observationHash: string,
                           context: Option<PermitContext>, expiresAt: int, status: PermitStatus)

  datatype AttemptStatus = Authorized | Executing | Confirmed | Unknown | Failed

  /** SHA-256 of an idempotency key, kept symbolic. */
  datatype KeyDigest = KeyDigest(key: string)

  datatype Attempt = Attempt(taskId: string, stepId: string, permitId: Option<string>, fingerprint: string,
                             observationHash: string, idempotencyKey: Option<string>, keyDigest: Option<KeyDigest>,
                             effect: Option<Effect>, probeRef: Option<string>, status: AttemptStatus, createdAt: int)

  /** Attempt ids are primary keys; only their equality and their order are observable. */
  datatype Store = Store(permits: map<string, Permit>, attempts: map<nat, Attempt>)

  datatype Checkpoint = Checkpoint(permitId: string, attemptId: nat, taskId: string, stepId: string,
                                   fingerprint: string,
                                   observationHash: string, keyDigest: KeyDigest, effect: Effect, probeRef: string,
                                   attemptStatus: AttemptStatus)

  datatype AttemptRequest = AttemptRequest(permitId: string, fingerprint: string, observationHash: string,
                                           idempotencyKey: string, effect: Effect, profile: Profile, probeRef: string)

  datatype AttemptError =
    | MissingIdempotencyKey
    | NoSuchPermit
    | ContextMismatch
    | RecoveryRequired
    | PermitUnavailable
    | BindingMismatch
    | PermitExpired
    | IntegrityViolation
    | NoSuchAttempt
    | IllegalTransition

  predicate KeyTaken(s: Store, taskId: string, key: string) {
    exists a :: a in s.attempts && s.attempts[a].taskId == taskId && s.attempts[a].idempotencyKey == Some(key)
  }

  predicate ContextMatches(permit: Permit, r: AttemptRequest) {
    && permit.context == Some(PermitContext(r.effect, r.profile, false))
    && !r.profile.mechanism.CuaCoordinate?
  }

  /** Why the authorizing transaction raises, in the order the services check. */
  function AuthorizeFault(s: Store, r: AttemptRequest, id: nat, now: int): Option<AttemptError> {
    if r.idempotencyKey == "" then Some(MissingIdempotencyKey)
    else if r.permitId !in s.permits then Some(NoSuchPermit)
    else
      var permit := s.permits[r.permitId];
      if !ContextMatches(permit, r) then Some(ContextMismatch)
      else if KeyTaken(s, permit.taskId, r.idempotencyKey) then Some(RecoveryRequired)
      else if !permit.status.Issued? then Some(PermitUnavailable)
      else if permit.fingerprint != r.fingerprint || permit.observationHash != r.observationHash
      then Some(BindingMismatch)
      else if now > permit.expiresAt then Some(PermitExpired)
      else if id in s.attempts || PermitHasAttempt(s, r.permitId) then Some(IntegrityViolation)
      else None
  }

  predicate PermitHasAttempt(s: Store, permitId: string) {
    exists a :: a in s.attempts && s.attempts[a].permitId == Some(permitId)
  }

  function NewAttempt(permit: Permit, r: AttemptRequest, now: int): Attempt {
    Attempt(permit.taskId, permit.stepId, Some(r.permitId), permit.fingerprint, permit.observationHash,
            Some(r.idempotencyKey), Some(KeyDigest(r.idempotencyKey)), Some(r.effect), Some(r.probeRef), Authorized,
            now)
  }

  /** Consumes the permit and registers an attempt that is not yet executing. */
  function AuthorizeTx(s: Store, r: AttemptRequest, id: nat, now: int): Result<Store, AttemptError> {
    match AuthorizeFault(s, r, id, now)
    case Some(error) => Refused(error)
    case None =>
      var permit := s.permits[r.permitId];
      Ok(Store(s.permits[r.permitId := permit.(status := Consumed)], s.attempts[id := NewAttempt(permit, r, now)]))
  }

  /** The compare-and-set every other attempt service is built from. */
  function TransitionTx(s: Store, a: nat, from: AttemptStatus, to: AttemptStatus): Result<Store, AttemptError> {
    if a !in s.attempts then Refused(NoSuchAttempt)
    else if s.attempts[a].status != from then Refused(IllegalTransition)
    else Ok(s.(attempts := s.attempts[a := s.attempts[a].(status := to)]))
  }

  /** The exact persisted identity of an attempt, absent when a row lacks one of its parts. */
  function CheckpointOf(a: nat, row: Attempt): Option<Checkpoint> {
    match (row.permitId, row.keyDigest, row.effect, row.probeRef)
    case (Some(permit), Some(digest), Some(effect), Some(probe)) =>
      if permit == "" || probe == "" then None
      else Some(Checkpoint(permit, a, row.taskId, row.stepId, row.fingerprint, row.observationHash, digest, effect,
                           probe, row.status))
    case _ => None
  }

  // ----- Recovery ------------------------------------------------------------

  predicate Recoverable(row: Attempt, threshold: int) {
    (row.status.Authorized? || row.status.Executing?) && row.createdAt <= threshold
  }

  predicate Before(s: Store, a: nat, b: nat)
    requires a in s.attempts && b in s.attempts
  {
    s.attempts[a].createdAt < s.attempts[b].createdAt || (s.attempts[a].createdAt == s.attempts[b].createdAt && a < b)
  }

  /** What the locking query returns: every old enough unfinished row nobody else holds, in (created_at, id) order. */
  ghost predicate QueryResult(s: Store, threshold: int, locked: set<nat>, models: seq<nat>) {
    && (forall a :: a in models <==> a in s.attempts && Recoverable(s.attempts[a], threshold) && a !in locked)
    && (forall i, j :: 0 <= i < j < |models| ==> Before(s, models[i], models[j]))
  }

  function RecoveredStatus(status: AttemptStatus): AttemptStatus {
    if status.Authorized? then Failed else if status.Executing? then Unknown else status
  }

  /** The scan reaches its commit only when every EXECUTING row it selected can name its checkpoint. */
  predicate ScanCommits(s: Store, models: set<nat>) {
    forall a :: a in models && a in s.attempts && s.attempts[a].status.Executing? ==>
      CheckpointOf(a, s.attempts[a]).Some?
  }

  function Recovered(s: Store, models: set<nat>): Store {
    s.(attempts := map a | a in s.attempts ::
      if a in models then s.attempts[a].(status := RecoveredStatus(s.attempts[a].status)) else s.attempts[a])
  }

  /**
    The tables' own constraints: one attempt per permit, one per task and idempotency key, and no attempt on an
    unconsumed permit.
  */
  ghost predicate Constrained(s: Store) {
    && (forall a, b {:trigger s.attempts[a], s.attempts[b]} :: a in s.attempts && b in s.attempts && a != b ==>
          && (s.attempts[a].permitId.Some? ==> s.attempts[a].permitId != s.attempts[b].permitId)
          && (s.attempts[a].idempotencyKey.Some? ==>
                !(s.attempts[a].taskId == s.attempts[b].taskId
                  && s.attempts[a].idempotencyKey == s.attempts[b].idempotencyKey)))
    && (forall a :: a in s.attempts && s.attempts[a].permitId.Some? ==>
          s.attempts[a].permitId.value in s.permits && s.permits[s.attempts[a].permitId.value].status.Consumed?)
  }

  lemma AuthorizeKeepsConstraints(s: Store, r: AttemptRequest, id: nat, now: int)
    requires Constrained(s) && AuthorizeTx(s, r, id, now).Ok?
    ensures Constrained(AuthorizeTx(s, r, id, now).value)
  {
  }

  /**
    On constrained tables the unique constraint on the permit never fires by itself: the permit would not be ISSUED any
    more.
  */
  lemma UniquePermitConstraintIsRedundant(s: Store, r: AttemptRequest, id: nat, now: int)
    requires Constrained(s) && id !in s.attempts
    ensures AuthorizeFault(s, r, id, now) != Some(IntegrityViolation)
  {
  }
}
