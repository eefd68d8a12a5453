/** The hash-chained journal of an Agent Run: what replay accepts, and what one append may do to it. */
module PlanJournal {
  import opened Outcomes

  datatype RunState =
    | ACTIVE | APPROVAL_REQUIRED | REPLAN_REQUIRED | PROBE_BLOCKED | REAUTHORIZATION_REQUIRED
    | COMPLETED | REJECTED | CANCELLED | FAILED

  datatype StepState = PendingStep | ActiveStep | CompletedStep | SupersededStep | BlockedStep | FailedStep

  datatype Transition =
    | Admitted | ChildActivated | ChildCompleted | ReplanRequired | ProbeBlocked | ProbeResolved | SuffixSuperseded
    | PlanCompleted | ReauthorizationRequired | ApprovalRequired | ApprovalResumed | ApprovalRejected | RunCancelled

  datatype RecoveryLevel = L0 | L1 | L2 | L3 | L4

  datatype StepRef = StepRef(businessPlanStepId: string, stepDigest: string, workOrderId: string,
                             workOrderDigest: string,
                             nativeTaskId: string, nativeStepId: string, nativeContractId: string,
                             authorityContractId: string,
                             state: StepState, permitId: Option<string>, attemptId: Option<string>,
                             probeRef: Option<string>)

  /** Plan versions start at one. */
  type Version = n: int | 1 <= n witness 1

  datatype Checkpoint = Checkpoint(planRunId: string, admissionId: string, rootTaskId: string, planId: string,
                                   planVersion: Version,
                                   authorityContractId: string, completedPrefix: seq<StepRef>,
                                   activeStep: Option<StepRef>,
                                   remainingSuffix: seq<StepRef>, supersededSuffix: seq<StepRef>, state: RunState,
                                   replanCount: nat, maxReplans: nat, journalSequence: nat, journalDigest: string)

  datatype Event = Event(eventId: string, planRunId: string, rootTaskId: string, planId: string, planVersion: int,
                         sequence: nat,
                         previousDigest: string, digest: string, transition: Transition,
                         recoveryLevel: Option<RecoveryLevel>,
                         reason: Option<string>, authorityDigests: map<string, string>, checkpoint: Checkpoint,
                         createdAt: int)

  /** Sixty-four zeros: what the first event of a chain names as its predecessor. */
  const GENESIS := "0000000000000000000000000000000000000000000000000000000000000000"

  /**
    The keyed hashes: of an event without its own digest, and of an event's identity in the current and the legacy
    scheme.
  */
  datatype Hashes = Hashes(digest: Event -> string, stableId: (string, int, nat, Transition) -> string,
                           legacyId: (string, int, nat, Transition) -> string)

  /** What an event's digest is taken of: everything but the digest. */
  function Unsigned(e: Event): Event {
    e.(digest := "")
  }

  /** Different contents have different digests. */
  ghost predicate Injective(h: Hashes) {
    forall a, b {:trigger h.digest(a), h.digest(b)} :: h.digest(a) == h.digest(b) ==> a == b
  }

  function Last(events: seq<Event>): Event
    requires events != []
  {
    events[|events| - 1]
  }

  predicate Terminal(t: Transition) {
    t.PlanCompleted? || t.ReauthorizationRequired? || t.ApprovalRejected? || t.RunCancelled?
  }

  function ExpectedStates(t: Transition): set<RunState> {
    match t
    case Admitted => {ACTIVE}
    case ChildActivated => {ACTIVE}
    case ChildCompleted => {ACTIVE}
    case ReplanRequired => {REPLAN_REQUIRED}
    case ProbeBlocked => {PROBE_BLOCKED}
    case ProbeResolved => {ACTIVE, COMPLETED}
    case SuffixSuperseded => {ACTIVE}
    case PlanCompleted => {COMPLETED}
    case ReauthorizationRequired => {REAUTHORIZATION_REQUIRED}
    case ApprovalRequired => {APPROVAL_REQUIRED}
    case ApprovalResumed => {ACTIVE}
    case ApprovalRejected => {REJECTED}
    case RunCancelled => {CANCELLED}
  }

  /** A transition fits its checkpoint: the right state, and an active step exactly where one is needed. */
  predicate TransitionOk(t: Transition, c: Checkpoint) {
    && c.state in ExpectedStates(t)
    && (c.state.COMPLETED? ==> c.activeStep.None?)
    && (c.state.ACTIVE? || c.state.APPROVAL_REQUIRED? || c.state.REPLAN_REQUIRED? || c.state.PROBE_BLOCKED? ==>
        c.activeStep.Some?)
  }

  /** An event and its checkpoint name the same run, plan version and place in the chain. */
  predicate CheckpointAgrees(e: Event) {
    && e.checkpoint.planRunId == e.planRunId && e.checkpoint.rootTaskId == e.rootTaskId
    && e.checkpoint.planId == e.planId
    && e.checkpoint.planVersion == e.planVersion
    && e.checkpoint.journalSequence == e.sequence && e.checkpoint.journalDigest == e.previousDigest
  }

  /** What is right or wrong with an event whatever comes before it. */
  predicate SelfConsistent(h: Hashes, e: Event) {
    && e.digest == h.digest(Unsigned(e))
    && (e.eventId == h.stableId(e.planRunId, e.planVersion, e.sequence, e.transition)
        || e.eventId == h.legacyId(e.planRunId, e.planVersion, e.sequence, e.transition))
    && CheckpointAgrees(e)
    && TransitionOk(e.transition, e.checkpoint)
  }

  function Identity(e: Event): (string, string, string) {
    (e.planRunId, e.checkpoint.admissionId, e.rootTaskId)
  }

  /** Event `b` may directly follow event `a`. */
  predicate Follows(a: Event, b: Event) {
    && b.previousDigest == a.digest
    && Identity(b) == Identity(a)
    && a.planVersion <= b.planVersion <= a.planVersion + 1
    && (b.planVersion > a.planVersion ==> b.transition.SuffixSuperseded?)
    && a.createdAt <= b.createdAt
    && !Terminal(a.transition)
  }

  predicate FollowsAt(events: seq<Event>, k: nat)
    requires 0 < k < |events|
  {
    Follows(events[k - 1], events[k])
  }

  /** A journal that is whole and untampered. */
  predicate Accepts(h: Hashes, events: seq<Event>) {
    && events != []
    && events[0].transition.Admitted? && events[0].previousDigest == GENESIS && events[0].planVersion == 1
    && (forall k :: 0 <= k < |events| ==> events[k].sequence == k + 1 && SelfConsistent(h, events[k]))
    && (forall k :: 0 < k < |events| ==> FollowsAt(events, k))
  }

  /** The checkpoint a journal stands for: the last event's, moved to the head of the chain. */
  function Restored(events: seq<Event>): Checkpoint
    requires events != []
  {
    Last(events).checkpoint.(journalSequence := Last(events).sequence, journalDigest := Last(events).digest)
  }

  datatype Fault =
    | EmptyJournal
    | SequenceGap(at: nat)
    | NotAdmitted(at: nat)
    | BrokenChain(at: nat)
    | CorruptDigest(at: nat)
    | UnstableIdentity(at: nat)
    | RootChanged(at: nat)
    | CheckpointDisagrees(at: nat)
    | VersionReordered(at: nat)
    | VersionOutsideSupersession(at: nat)
    | ClockReordered(at: nat)
    | TransitionDisagrees(at: nat)
    | AfterTerminal(at: nat)

  /** The order in which the checks are made. */
  function Rank(fault: Fault): nat {
    match fault
    case EmptyJournal => 0
    case SequenceGap(_) => 1
    case NotAdmitted(_) => 2
    case BrokenChain(_) => 3
    case CorruptDigest(_) => 4
    case UnstableIdentity(_) => 5
    case RootChanged(_) => 6
    case CheckpointDisagrees(_) => 7
    case VersionReordered(_) => 8
    case VersionOutsideSupersession(_) => 9
    case ClockReordered(_) => 10
    case TransitionDisagrees(_) => 11
    case AfterTerminal(_) => 12
  }

  /** What is wrong with event `e`, the `k`-th, right after `before`, on the events' own fields. */
  predicate Explains(h: Hashes, before: Option<Event>, k: nat, e: Event, fault: Fault) {
    match fault
    case EmptyJournal => false
    case SequenceGap(_) => e.sequence != k + 1
    case NotAdmitted(_) => k == 0 && !e.transition.Admitted?
    case BrokenChain(_) => e.previousDigest != if before.Some? then before.value.digest else GENESIS
    case CorruptDigest(_) => e.digest != h.digest(e.(digest := ""))
    case UnstableIdentity(_) => e.eventId != h.stableId(e.planRunId, e.planVersion, e.sequence, e.transition)
                                && e.eventId != h.legacyId(e.planRunId, e.planVersion, e.sequence, e.transition)
    case RootChanged(_) => before.Some? && !OfOneRun(before.value, e)
    case CheckpointDisagrees(_) => !HasOwnCheckpoint(e)
    case VersionReordered(_) =>
      var v := if before.Some? then before.value.planVersion else 0; !(v <= e.planVersion <= v + 1)
    case VersionOutsideSupersession(_) =>
      before.Some? && e.planVersion > before.value.planVersion && !e.transition.SuffixSuperseded?
    case ClockReordered(_) => before.Some? && e.createdAt < before.value.createdAt
    case TransitionDisagrees(_) => !StateFits(e)
    case AfterTerminal(_) => before.Some? && EndsTheRun(before.value)
  }

  /** The fault is the first of those the event has. */
  predicate FirstFault(h: Hashes, before: Option<Event>, k: nat, e: Event, fault: Fault) {
    var n := Rank(fault);
    && Explains(h, before, k, e, fault)
    && (n > 1 ==> !Explains(h, before, k, e, SequenceGap(k)))
    && (n > 2 ==> !Explains(h, before, k, e, NotAdmitted(k)))
    && (n > 3 ==> !Explains(h, before, k, e, BrokenChain(k)))
    && (n > 4 ==> !Explains(h, before, k, e, CorruptDigest(k)))
    && (n > 5 ==> !Explains(h, before, k, e, UnstableIdentity(k)))
    && (n > 6 ==> !Explains(h, before, k, e, RootChanged(k)))
    && (n > 7 ==> !Explains(h, before, k, e, CheckpointDisagrees(k)))
    && (n > 8 ==> !Explains(h, before, k, e, VersionReordered(k)))
    && (n > 9 ==> !Explains(h, before, k, e, VersionOutsideSupersession(k)))
    && (n > 10 ==> !Explains(h, before, k, e, ClockReordered(k)))
    && (n > 11 ==> !Explains(h, before, k, e, TransitionDisagrees(k)))
  }

  // ----- What a whole journal is, on its events' own fields -------------------

  predicate OfOneRun(a: Event, b: Event) {
    && b.planRunId == a.planRunId && b.rootTaskId == a.rootTaskId
    && b.checkpoint.admissionId == a.checkpoint.admissionId
  }

  predicate HasOwnCheckpoint(e: Event) {
    && e.planRunId == e.checkpoint.planRunId && e.rootTaskId == e.checkpoint.rootTaskId
    && e.planId == e.checkpoint.planId && e.planVersion == e.checkpoint.planVersion
    && e.sequence == e.checkpoint.journalSequence && e.previousDigest == e.checkpoint.journalDigest
  }

  /** The run's state after the event, and whether it still has an active step. */
  predicate StateFits(e: Event) {
    match e.checkpoint.state
    case ACTIVE =>
      && (e.transition.Admitted? || e.transition.ChildActivated? || e.transition.ChildCompleted?
          || e.transition.ProbeResolved? || e.transition.SuffixSuperseded? || e.transition.ApprovalResumed?)
      && e.checkpoint.activeStep.Some?
    case APPROVAL_REQUIRED => e.transition.ApprovalRequired? && e.checkpoint.activeStep.Some?
    case REPLAN_REQUIRED => e.transition.ReplanRequired? && e.checkpoint.activeStep.Some?
    case PROBE_BLOCKED => e.transition.ProbeBlocked? && e.checkpoint.activeStep.Some?
    case REAUTHORIZATION_REQUIRED => e.transition.ReauthorizationRequired?
    case COMPLETED =>
      (e.transition.PlanCompleted? || e.transition.ProbeResolved?) && e.checkpoint.activeStep.None?
    case REJECTED => e.transition.ApprovalRejected?
    case CANCELLED => e.transition.RunCancelled?
    case FAILED => false
  }

  /** A run that is over; one completed by `ProbeResolved` is not counted as such. */
  predicate EndsTheRun(e: Event) {
    e.transition in {PlanCompleted, ReauthorizationRequired, ApprovalRejected, RunCancelled}
  }

  /** Event `b`, right behind `a`. */
  predicate IsNext(a: Event, b: Event) {
    && b.sequence == a.sequence + 1 && b.previousDigest == a.digest && a.createdAt <= b.createdAt && OfOneRun(a, b)
    && (b.planVersion == a.planVersion || (b.planVersion == a.planVersion + 1 && b.transition.SuffixSuperseded?))
    && !EndsTheRun(a)
  }

  /** A whole journal: admitted, signed and named, each event with its own checkpoint and linked to the one before. */
  predicate Whole(h: Hashes, events: seq<Event>) {
    && |events| > 0
    && events[0].transition.Admitted? && events[0].planVersion == 1 && events[0].sequence == 1
    && events[0].previousDigest == GENESIS
    && (forall k :: 0 <= k < |events| ==> IsSigned(h, events[k]) && HasOwnCheckpoint(events[k]) && StateFits(events[k]))
    && (forall j, k :: 0 <= j && k == j + 1 < |events| ==> IsNext(events[j], events[k]))
  }

  predicate IsSigned(h: Hashes, e: Event) {
    && e.digest == h.digest(e.(digest := ""))
    && (|| e.eventId == h.stableId(e.planRunId, e.planVersion, e.sequence, e.transition)
        || e.eventId == h.legacyId(e.planRunId, e.planVersion, e.sequence, e.transition))
  }

  lemma TransitionsShow(e: Event)
    ensures TransitionOk(e.transition, e.checkpoint) <==> StateFits(e)
    ensures Terminal(e.transition) <==> EndsTheRun(e)
  {
  }

  lemma ConsistentEventsAreSigned(h: Hashes, e: Event)
    ensures SelfConsistent(h, e) <==> IsSigned(h, e) && HasOwnCheckpoint(e) && StateFits(e)
  {
    TransitionsShow(e);
  }

  lemma FollowingIsNext(a: Event, b: Event)
    requires b.sequence == a.sequence + 1
    ensures Follows(a, b) <==> IsNext(a, b)
  {
    TransitionsShow(a);
  }

  lemma AcceptedJournalsAreWhole(h: Hashes, events: seq<Event>)
    ensures Accepts(h, events) <==> Whole(h, events)
  {
    hide SelfConsistent, Follows, IsNext, StateFits, HasOwnCheckpoint, IsSigned;
    forall k | 0 <= k < |events|
      ensures SelfConsistent(h, events[k]) <==>
                IsSigned(h, events[k]) && HasOwnCheckpoint(events[k]) && StateFits(events[k])
    {
      ConsistentEventsAreSigned(h, events[k]);
    }
    if Accepts(h, events) {
      forall j, k | 0 <= j && k == j + 1 < |events| ensures IsNext(events[j], events[k]) {
        assert FollowsAt(events, k);
        FollowingIsNext(events[j], events[k]);
      }
    }
    if Whole(h, events) {
      WholeJournalsAreNumbered(h, events);
      forall k | 0 < k < |events| ensures FollowsAt(events, k) {
        assert IsNext(events[k - 1], events[k]);
        FollowingIsNext(events[k - 1], events[k]);
      }
    }
  }

  lemma WholeJournalsAreNumbered(h: Hashes, events: seq<Event>)
    requires Whole(h, events)
    ensures events != [] && forall k :: 0 <= k < |events| ==> events[k].sequence == k + 1
  {
    var k := 1;
    while k < |events|
      invariant 1 <= k <= |events|
      invariant forall i :: 0 <= i < k ==> events[i].sequence == i + 1
    {
      assert IsNext(events[k - 1], events[k]);
      k := k + 1;
    }
  }

  function Before(events: seq<Event>, k: nat): Option<Event>
    requires k <= |events|
  {
    if k == 0 then None else Some(events[k - 1])
  }

  lemma OwnCheckpointsAgree(e: Event)
    ensures CheckpointAgrees(e) <==> HasOwnCheckpoint(e)
  {
  }

  /** The checks on one event, in order, against what replay remembers of the events so far. */
  method CheckEvent(h: Hashes, k: nat, event: Event, previous: string, terminal: bool,
                    runIdentity: Option<(string, string, string)>,
                    previousVersion: int, previousCreatedAt: Option<int>,
                    ghost before: Option<Event>) returns (fault: Option<Fault>)
    requires before.None? <==> k == 0
    requires before.None? ==>
               && previous == GENESIS && !terminal
               && runIdentity.None? && previousVersion == 0 && previousCreatedAt.None?
    requires before.Some? ==> previous == before.value.digest && terminal == Terminal(before.value.transition)
                              && runIdentity == Some(Identity(before.value))
                              && previousVersion == before.value.planVersion >= 1
                              && previousCreatedAt == Some(before.value.createdAt)
    ensures fault.None? <==> Fits(h, before, k, event)
    ensures fault.Some? ==>
              !fault.value.EmptyJournal? && fault.value.at == k && FirstFault(h, before, k, event, fault.value)
  {
    hide StateFits, HasOwnCheckpoint, EndsTheRun, TransitionOk, Terminal;
    TransitionsShow(event);
    OwnCheckpointsAgree(event);
    if before.Some? {
      TransitionsShow(before.value);
    }
    if event.sequence != k + 1 { return Some(SequenceGap(k)); }
    if k == 0 && !event.transition.Admitted? { return Some(NotAdmitted(k)); }
    if event.previousDigest != previous { return Some(BrokenChain(k)); }
    if event.digest != h.digest(Unsigned(event)) { return Some(CorruptDigest(k)); }
    if event.eventId !in {h.stableId(event.planRunId, event.planVersion, event.sequence, event.transition),
                          h.legacyId(event.planRunId, event.planVersion, event.sequence, event.transition)} {
      return Some(UnstableIdentity(k));
    }
    if runIdentity.Some? && runIdentity.value != Identity(event) { return Some(RootChanged(k)); }
    if !CheckpointAgrees(event) { return Some(CheckpointDisagrees(k)); }
    if event.planVersion < previousVersion || event.planVersion > previousVersion + 1 {
      return Some(VersionReordered(k));
    }
    if previousVersion != 0 && event.planVersion > previousVersion && !event.transition.SuffixSuperseded? {
      return Some(VersionOutsideSupersession(k));
    }
    if previousCreatedAt.Some? && event.createdAt < previousCreatedAt.value { return Some(ClockReordered(k)); }
    if !TransitionOk(event.transition, event.checkpoint) { return Some(TransitionDisagrees(k)); }
    if terminal { return Some(AfterTerminal(k)); }
    return None;
  }

  /** The checkpoint of an event that is the head of the chain. */
  predicate StandsBehind(c: Checkpoint, e: Event) {
    && c.journalSequence == e.sequence && c.journalDigest == e.digest
    && c == e.checkpoint.(journalSequence := c.journalSequence, journalDigest := c.journalDigest)
  }

  lemma RestoredStandsBehind(events: seq<Event>)
    requires events != []
    ensures StandsBehind(Restored(events), events[|events| - 1])
  {
  }

  /**
    Replays a journal event by event; a refusal names the first event no whole journal could have there, and says why.
  */
  method Replay(h: Hashes, events: seq<Event>) returns (r: Result<Checkpoint, Fault>)
    ensures r.Ok? <==> Accepts(h, events)
    ensures r.Ok? <==> Whole(h, events)
    ensures r.Ok? ==> r.value == Restored(events)
    ensures r.Ok? ==> StandsBehind(r.value, events[|events| - 1])
    ensures r == Refused(EmptyJournal) <==> events == []
    ensures r.Refused? && events != [] ==>
              && r.error.at < |events|
              && !Accepts(h, events[..r.error.at + 1])
              && (r.error.at > 0 ==> Accepts(h, events[..r.error.at]))
              && FirstFault(h, Before(events, r.error.at), r.error.at, events[r.error.at], r.error)
  {
    hide StateFits, HasOwnCheckpoint, EndsTheRun, OfOneRun, IsNext, IsSigned;
    if events == [] {
      return Refused(EmptyJournal);
    }
    hide Accepts, SelfConsistent, Whole, FirstFault, Restored, StandsBehind;
    AcceptedJournalsAreWhole(h, events);
    RestoredStandsBehind(events);
    var previous := GENESIS;
    var terminal := false;
    var runIdentity: Option<(string, string, string)> := None;
    var previousVersion := 0;
    var previousCreatedAt: Option<int> := None;
    var k := 0;
    while k < |events|
      invariant 0 <= k <= |events|
      invariant k == 0 ==>
                  && previous == GENESIS && !terminal
                  && runIdentity.None? && previousVersion == 0 && previousCreatedAt.None?
      invariant k > 0 ==> Accepts(h, events[..k]) && Last(events[..k]) == events[k - 1]
      invariant k > 0 ==> previous == events[k - 1].digest && terminal == Terminal(events[k - 1].transition)
                          && runIdentity == Some(Identity(events[k - 1]))
                          && previousVersion == events[k - 1].planVersion >= 1
                          && previousCreatedAt == Some(events[k - 1].createdAt)
    {
      var event := events[k];
      assert events[..k + 1] == events[..k] + [event];
      AcceptsOneMore(h, events[..k], event);
      var fault := CheckEvent(h, k, event, previous, terminal, runIdentity, previousVersion, previousCreatedAt,
                              Before(events, k));
      if fault.Some? {
        PrefixClosed(h, events);
        return Refused(fault.value);
      }
      if runIdentity.None? {
        runIdentity := Some(Identity(event));
      }
      terminal := Terminal(event.transition);
      previous := event.digest;
      previousVersion := event.planVersion;
      previousCreatedAt := Some(event.createdAt);
      k := k + 1;
    }
    assert events[..k] == events;
    return Ok(Restored(events));
  }

  /** Exactly what the `k`-th event needs right after `before`. */
  predicate Fits(h: Hashes, before: Option<Event>, k: nat, e: Event) {
    && e.sequence == k + 1 && SelfConsistent(h, e)
    && if before.None? then e.transition.Admitted? && e.previousDigest == GENESIS && e.planVersion == 1
       else Follows(before.value, e)
  }

  /** Exactly what a further event needs. */
  predicate Extends(h: Hashes, events: seq<Event>, e: Event) {
    Fits(h, Before(events, |events|), |events|, e)
  }

  lemma AcceptsOneMore(h: Hashes, events: seq<Event>, e: Event)
    requires events == [] || Accepts(h, events)
    ensures Accepts(h, events + [e]) <==> Extends(h, events, e)
  {
    hide SelfConsistent, Follows;
    var all := events + [e];
    assert all[|events|] == e;
    if events != [] {
      assert all[0] == events[0] && all[|events| - 1] == Last(events);
      forall k | 0 <= k < |events| ensures events[k].sequence == k + 1 && SelfConsistent(h, events[k]) {}
      forall k | 0 < k < |events| ensures FollowsAt(all, k) { assert FollowsAt(events, k); }
      assert FollowsAt(all, |events|) <==> Follows(Last(events), e);
      if Extends(h, events, e) {
        forall k | 0 <= k < |all| ensures all[k].sequence == k + 1 && SelfConsistent(h, all[k]) {}
      }
    }
  }

  /** Every non-empty prefix of a whole journal is a whole journal. */
  lemma PrefixClosed(h: Hashes, events: seq<Event>)
    ensures Accepts(h, events) ==> forall n :: 0 < n <= |events| ==> Accepts(h, events[..n])
  {
    if Accepts(h, events) {
      forall n | 0 < n <= |events| ensures Accepts(h, events[..n]) {
        var prefix := events[..n];
        forall k | 0 < k < n ensures FollowsAt(prefix, k) { assert FollowsAt(events, k); }
      }
    }
  }

  // ----- The head digest commits to the history ------------------------------

  /** Two whole journals with the same head digest are the same journal, event for event. */
  lemma {:induction false} HeadDigestCommits(h: Hashes, a: seq<Event>, b: seq<Event>)
    requires Injective(h) && Accepts(h, a) && Accepts(h, b) && Last(a).digest == Last(b).digest
    ensures a == b
  {
    var m, n := |a| - 1, |b| - 1;
    assert Unsigned(a[m]) == Unsigned(b[n]);
    assert a[m].sequence == Unsigned(a[m]).sequence && b[n].sequence == Unsigned(b[n]).sequence;
    assert a[m].previousDigest == Unsigned(a[m]).previousDigest && b[n].previousDigest == Unsigned(b[n]).previousDigest;
    assert a[m] == Unsigned(a[m]).(digest := a[m].digest) && b[n] == Unsigned(b[n]).(digest := b[n].digest);
    assert m == n;
    if m > 0 {
      PrefixClosed(h, a);
      PrefixClosed(h, b);
      assert FollowsAt(a, m) && FollowsAt(b, n);
      HeadDigestCommits(h, a[..m], b[..n]);
    }
    assert a == a[..m] + [a[m]] && b == b[..n] + [b[n]];
  }

  // ----- Appending -----------------------------------------------------------

  /** The transitions commands may append; admission, activation and replanning write theirs elsewhere. */
  predicate Appendable(t: Transition) {
    t.ChildCompleted? || t.PlanCompleted? || t.ProbeBlocked? || t.ProbeResolved?
    || t.ApprovalRequired? || t.ApprovalResumed? || t.ApprovalRejected? || t.RunCancelled?
  }

  datatype Request = Request(checkpoint: Checkpoint, transition: Transition, authorityDigests: map<string, string>,
                             operationKey: string)

  /** The signed event for a request. */
  function EventFor(h: Hashes, r: Request, createdAt: int): Event {
    var c := r.checkpoint;
    var sequence := c.journalSequence + 1;
    var unsigned := Event(h.stableId(c.planRunId, c.planVersion, sequence, r.transition), c.planRunId, c.rootTaskId,
                          c.planId, c.planVersion,
                          sequence, c.journalDigest, GENESIS, r.transition, None, Some(r.operationKey),
                          r.authorityDigests,
                          c.(journalSequence := sequence), createdAt);
    unsigned.(digest := h.digest(Unsigned(unsigned)))
  }

  /** The checkpoint stands at the head of the journal. */
  predicate AtHead(events: seq<Event>, c: Checkpoint)
    requires events != []
  {
    c.journalSequence == Restored(events).journalSequence && c.journalDigest == Restored(events).journalDigest
  }

  /** The last event is this very request, already committed. */
  predicate AlreadyCommitted(events: seq<Event>, r: Request)
    requires events != []
  {
    && Restored(events).journalSequence == r.checkpoint.journalSequence + 1
    && Last(events).transition == r.transition && Last(events).reason == Some(r.operationKey)
    && Last(events).authorityDigests == r.authorityDigests
    && Last(events).checkpoint == r.checkpoint.(journalSequence := Last(events).sequence)
  }

  datatype AppendError =
    | UnsupportedTransition | UntrustedRoot | UnreadableJournal(fault: Fault) | StaleOrConflicting
    | NativeMismatch

  /** What a command may append: a completed or blocked step, a resolved probe, a decision, or the end of the run. */
  predicate MayAppend(t: Transition) {
    t in {ChildCompleted, PlanCompleted, ProbeBlocked, ProbeResolved, ApprovalRequired, ApprovalResumed,
          ApprovalRejected, RunCancelled}
  }

  /** The checkpoint was read with this event as the last one. */
  predicate IsHead(head: Event, c: Checkpoint) {
    c.journalSequence == head.sequence && c.journalDigest == head.digest
  }

  /** This event is the request's own, already on record. */
  predicate WasAsked(head: Event, r: Request) {
    && head.sequence == r.checkpoint.journalSequence + 1 && head.transition == r.transition
    && head.reason == Some(r.operationKey) && head.authorityDigests == r.authorityDigests
    && head.checkpoint == r.checkpoint.(journalSequence := head.sequence)
  }

  /** The new event says what the request says, at this clock, in the next place of the chain. */
  predicate Carries(h: Hashes, e: Event, r: Request, createdAt: int) {
    && e.planRunId == r.checkpoint.planRunId && e.rootTaskId == r.checkpoint.rootTaskId
    && e.planId == r.checkpoint.planId && e.planVersion == r.checkpoint.planVersion
    && e.sequence == r.checkpoint.journalSequence + 1 && e.previousDigest == r.checkpoint.journalDigest
    && e.transition == r.transition && e.recoveryLevel.None? && e.reason == Some(r.operationKey)
    && e.authorityDigests == r.authorityDigests && e.createdAt == createdAt
    && e.checkpoint == r.checkpoint.(journalSequence := r.checkpoint.journalSequence + 1)
    && e.eventId == h.stableId(e.planRunId, e.planVersion, e.sequence, e.transition)
    && e.digest == h.digest(e.(digest := ""))
  }

  lemma AppendsAreOfTheHead(events: seq<Event>, r: Request)
    requires events != []
    ensures AtHead(events, r.checkpoint) <==> IsHead(events[|events| - 1], r.checkpoint)
    ensures AlreadyCommitted(events, r) <==> WasAsked(events[|events| - 1], r)
  {
  }

  /** The journal rows of one root task. */
  class JournalTable {
    var events: seq<Event>

    constructor (events: seq<Event>)
      ensures this.events == events
    {
      this.events := events;
    }

    /**
      One append in the caller's transaction; `rootTrusted` and `nativeOk` are the answers of the native store.  The
      checks are made in the order of the errors.
    */
    method Append(h: Hashes, rootTrusted: bool, r: Request, nativeOk: bool,
                  createdAt: int) returns (c: Result<Checkpoint, AppendError>)
      modifies this
      ensures AppendTx(h, old(events), rootTrusted, r, nativeOk, createdAt)
          == (match c case Ok(value) => Some((events, value)) case Refused(_) => None)
      ensures c.Refused? ==> events == old(events)
      ensures c == Refused(UnsupportedTransition) <==> !MayAppend(r.transition)
      ensures c == Refused(UntrustedRoot) <==> MayAppend(r.transition) && !rootTrusted
      ensures c.Refused? && c.error.UnreadableJournal? <==>
                MayAppend(r.transition) && rootTrusted && !Whole(h, old(events))
      ensures c == Refused(StaleOrConflicting) <==>
                && MayAppend(r.transition) && rootTrusted && Whole(h, old(events))
                && !IsHead(old(events)[|old(events)| - 1], r.checkpoint) && !WasAsked(old(events)[|old(events)| - 1], r)
      ensures c == Refused(NativeMismatch) <==>
                && MayAppend(r.transition) && rootTrusted && Whole(h, old(events))
                && IsHead(old(events)[|old(events)| - 1], r.checkpoint) && !nativeOk
      ensures c.Ok? ==>
                && old(events) != []
                && var head := old(events)[|old(events)| - 1];
                if IsHead(head, r.checkpoint)
                then
                  && |events| == |old(events)| + 1 && events[..|old(events)|] == old(events)
                  && Carries(h, events[|old(events)|], r, createdAt) && StandsBehind(c.value, events[|old(events)|])
                else WasAsked(head, r) && events == old(events) && StandsBehind(c.value, head)
    {
      hide Whole, Accepts;
      AcceptedJournalsAreWhole(h, events);
      if Whole(h, events) {
        WholeJournalsAreNumbered(h, events);
        AppendsAreOfTheHead(events, r);
      }
      if !Appendable(r.transition) { return Refused(UnsupportedTransition); }
      if !rootTrusted { return Refused(UntrustedRoot); }
      var replayed := Replay(h, events);
      if replayed.Refused? { return Refused(UnreadableJournal(replayed.error)); }
      var restored := replayed.value;
      if restored.journalSequence != r.checkpoint.journalSequence
        || restored.journalDigest != r.checkpoint.journalDigest {
        if restored.journalSequence == r.checkpoint.journalSequence + 1 {
          var committed := events[|events| - 1];
          var expected := r.checkpoint.(journalSequence := committed.sequence);
          if committed.transition == r.transition && committed.reason == Some(r.operationKey)
             && committed.authorityDigests == r.authorityDigests && committed.checkpoint == expected {
            return Ok(restored);
          }
        }
        return Refused(StaleOrConflicting);
      }
      if !nativeOk { return Refused(NativeMismatch); }
      var event := EventFor(h, r, createdAt);
      events := events + [event];
      return Ok(r.checkpoint.(journalSequence := event.sequence, journalDigest := event.digest));
    }
  }

  /** The journal and checkpoint after an append; `None` when it raises. */
  function AppendTx(h: Hashes, events: seq<Event>, rootTrusted: bool, r: Request, nativeOk: bool, createdAt: int):
    Option<(seq<Event>, Checkpoint)>
  {
    if !Appendable(r.transition) || !rootTrusted || !Accepts(h, events) then None
    else if AtHead(events, r.checkpoint) then
      if !nativeOk then None
      else
        var event := EventFor(h, r, createdAt);
        Some((events + [event], r.checkpoint.(journalSequence := event.sequence, journalDigest := event.digest)))
    else if AlreadyCommitted(events, r) then Some((events, Restored(events)))
    else None
  }

  /** What the caller has to vouch for, since `append` does not look at it itself. */
  predicate Discharged(events: seq<Event>, r: Request, createdAt: int)
    requires events != []
  {
    var head := Restored(events);
    && !Terminal(Last(events).transition)
    && r.checkpoint.planRunId == head.planRunId && r.checkpoint.admissionId == head.admissionId
    && r.checkpoint.rootTaskId == head.rootTaskId
    && r.checkpoint.planVersion == head.planVersion
    && Last(events).createdAt <= createdAt
    && TransitionOk(r.transition, r.checkpoint)
  }

  /**
    A fresh append leaves a whole journal exactly when the caller vouched for what append does not check:
    the run is not over, its identity and plan version are the journal's, the clock has not gone back, and the
    transition fits the checkpoint.  Replaying the longer journal then gives back the checkpoint append returned.
  */
  lemma FreshAppendReplays(h: Hashes, events: seq<Event>, r: Request, createdAt: int)
    requires Accepts(h, events) && Appendable(r.transition) && AtHead(events, r.checkpoint)
    ensures AppendTx(h, events, true, r, true, createdAt).Some?
    ensures var (events', c') := AppendTx(h, events, true, r, true, createdAt).value;
            && |events'| == |events| + 1 && events'[..|events|] == events
            && (Accepts(h, events') <==> Discharged(events, r, createdAt))
            && Restored(events') == c'
  {
    var e := EventFor(h, r, createdAt);
    AcceptsOneMore(h, events, e);
    assert Unsigned(e) == Unsigned(e.(digest := GENESIS));
    assert Last(events + [e]) == e;
    assert Last(events).sequence == |events|;
  }

  /**
    Repeating an append, even at a later clock, gives the same checkpoint and leaves the journal as the first one left
    it, exactly when the caller of the first one vouched for what append does not check.  Else the journal it left is
    unreadable.
  */
  lemma AppendIsRetrySafe(h: Hashes, events: seq<Event>, r: Request, nativeOk: bool, createdAt: int, later: int,
                          laterNativeOk: bool)
    requires AppendTx(h, events, true, r, nativeOk, createdAt).Some?
    ensures var first := AppendTx(h, events, true, r, nativeOk, createdAt);
            var again := AppendTx(h, first.value.0, true, r, laterNativeOk, later);
            && (again == first <==> (AtHead(events, r.checkpoint) ==> Discharged(events, r, createdAt)))
            && (again != first ==> again.None? && !Accepts(h, first.value.0))
  {
    var (events', c') := AppendTx(h, events, true, r, nativeOk, createdAt).value;
    if AtHead(events, r.checkpoint) {
      FreshAppendReplays(h, events, r, createdAt);
      assert Last(events') == EventFor(h, r, createdAt);
      assert !AtHead(events', r.checkpoint);
    }
  }

  /**
    Once a checkpoint has been extended, no different request from it is ever accepted again, however much
    the journal grows afterwards; and the same request is accepted only while its event is still the head.
  */
  lemma AppendIsForkFree(h: Hashes, events: seq<Event>, r: Request, createdAt: int, grown: seq<Event>, other: Request,
                         nativeOk: bool, later: int)
    requires Accepts(h, events) && Appendable(r.transition) && AtHead(events, r.checkpoint)
    requires Accepts(h, grown) && events + [EventFor(h, r, createdAt)] <= grown
    requires other.checkpoint.journalSequence == r.checkpoint.journalSequence
    ensures AppendTx(h, grown, true, other, nativeOk, later).Some? <==> other == r && |grown| == |events| + 1
    ensures AppendTx(h, grown, true, other, nativeOk, later).Some? ==>
        AppendTx(h, grown, true, other, nativeOk, later).value.0 == grown
  {
    var e := EventFor(h, r, createdAt);
    assert grown[|events|] == (events + [e])[|events|] == e;
    assert Last(grown).sequence == |grown| && Last(events).sequence == |events|;
    if |grown| == |events| + 1 {
      assert Last(grown) == e;
      if AlreadyCommitted(grown, other) {
        assert other.checkpoint.(journalSequence := e.sequence) == r.checkpoint.(journalSequence := e.sequence);
        assert other.checkpoint
            == other.checkpoint.(journalSequence := e.sequence).(journalSequence := r.checkpoint.journalSequence);
        assert r.checkpoint ==
               r.checkpoint.(journalSequence := e.sequence).(journalSequence := r.checkpoint.journalSequence);
      }
    }
  }

  /**
    A checkpoint that heads two whole journals heads one: what a fresh append extends is decided by the digest it names.
  */
  lemma CheckpointNamesItsHistory(h: Hashes, a: seq<Event>, b: seq<Event>, c: Checkpoint)
    requires Injective(h) && Accepts(h, a) && Accepts(h, b) && AtHead(a, c) && AtHead(b, c)
    ensures a == b
  {
    HeadDigestCommits(h, a, b);
  }

  // ----- Over any number of appends ------------------------------------------

  /** Along a whole journal the plan version is one more than the number of supersessions. */
  function Supersessions(events: seq<Event>): nat {
    if events == [] then 0
    else Supersessions(events[..|events| - 1])
         + if |events| > 1 && Last(events).planVersion > events[|events| - 2].planVersion then 1 else 0
  }

  lemma {:induction false} VersionCountsSupersessions(h: Hashes, events: seq<Event>)
    requires Accepts(h, events)
    ensures Last(events).planVersion == 1 + Supersessions(events)
    ensures forall k :: 0 <= k < |events| - 1 ==> !Terminal(events[k].transition)
    ensures forall k :: 0 <= k < |events| ==> Identity(events[k]) == Identity(events[0])
    ensures forall k :: 0 <= k < |events| ==> events[k].createdAt <= Last(events).createdAt
  {
    hide SelfConsistent;
    var n := |events| - 1;
    if n > 0 {
      PrefixClosed(h, events);
      VersionCountsSupersessions(h, events[..n]);
      assert FollowsAt(events, n);
      assert Last(events[..n]) == events[n - 1];
      assert forall k :: 0 <= k < n ==> events[..n][k] == events[k];
    } else {
      assert events[..0] == [];
    }
  }
}
