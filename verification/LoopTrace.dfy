/** The event trace of a run: which event may follow which, and what that says of every finished trace. */
module LoopTrace {
  import opened Outcomes
  import opened AttemptStore
  import opened LoopContracts

  function LastEvent(events: seq<Event>): Event
    requires events != []
  {
    events[|events| - 1]
  }

  predicate Closed(events: seq<Event>) {
    events != [] && LastEvent(events).detail.Ended?
  }

  function ObservationCount(events: seq<Event>): nat {
    if events == [] then 0
    else ObservationCount(events[..|events| - 1]) + if LastEvent(events).detail.Observed? then 1 else 0
  }

  function StartCount(events: seq<Event>): nat {
    if events == [] then 0
    else StartCount(events[..|events| - 1]) + if LastEvent(events).detail.Started? then 1 else 0
  }

  /** Decisions that the goal is reached. */
  function SuccessCount(events: seq<Event>): nat {
    if events == [] then 0
    else SuccessCount(events[..|events| - 1]) + if SaysSuccess(LastEvent(events).detail) then 1 else 0
  }

  predicate SaysSuccess(detail: Detail) {
    detail.Decided? && detail.kind.SuccessKind?
  }

  /** The observation the run is looking at: the latest one captured. */
  function Current(events: seq<Event>): Option<string> {
    if events == [] then None
    else if LastEvent(events).detail.Observed? then LastEvent(events).observationId
    else Current(events[..|events| - 1])
  }

  predicate Follows(events: seq<Event>, e: Event, detail: Detail) {
    events != [] && LastEvent(events).detail == detail && LastEvent(events).observationId == e.observationId
        && LastEvent(events).fingerprint == e.fingerprint
  }

  /** Where the loop looks at the page: first, behind an action, and wherever it looks again. */
  predicate MayLook(events: seq<Event>) {
    events == []
    || match LastEvent(events).detail
       case Completed(_) => true
       case Started(_, _, _) => true
       case PolicyDecided(disposition) => disposition.Reobserve? || disposition.AllowAction?
       case Verified(outcome, _) => LastEvent(events).fingerprint.None? && (outcome.Continue? || outcome.Retry?)
       case _ => false
  }

  /** Where it takes a decision: at a page, or at a verdict on an action that lets it go on with the page. */
  predicate MayDecide(events: seq<Event>) {
    && events != []
    && (LastEvent(events).detail.Observed?
        || (LastEvent(events).detail.Verified? && LastEvent(events).fingerprint.Some?
            && (LastEvent(events).detail.outcome.Continue? || LastEvent(events).detail.outcome.Retry?)))
  }

  /** What a verdict is about: a claim of success, or the action whose completion was just recorded. */
  predicate MayJudge(events: seq<Event>, fingerprint: Option<string>) {
    && events != []
    && match LastEvent(events).detail
       case Completed(_) => fingerprint == LastEvent(events).fingerprint
       case Observed(_) =>
         && |events| > 1 && events[|events| - 2].detail.Completed?
         && fingerprint == events[|events| - 2].fingerprint
       case Decided(kind, _) => kind.SuccessKind? && fingerprint.None?
       case _ => false
  }

  /** Whether event `e` may be the next one of run `run` after `events`. */
  predicate MayFollow(run: RunContext, events: seq<Event>, e: Event) {
    && e.run == run
    && e.sequence == |events| + 1
    && !Closed(events)
    && match e.detail
       case Observed(n) => e.observationId.Some? && n == ObservationCount(events) + 1 && MayLook(events)
       case Decided(_, _) => MayDecide(events) && Current(events) == e.observationId
       case PolicyDecided(_) =>
         && events != [] && LastEvent(events).detail.Decided? && LastEvent(events).detail.kind.ActionKind?
         && LastEvent(events).observationId == e.observationId == Current(events) && e.fingerprint.Some?
       case Started(_, _, _) =>
         Follows(events, e, PolicyDecided(AllowAction)) && Current(events) == e.observationId && e.fingerprint.Some?
       case Completed(_) =>
         && events != [] && LastEvent(events).detail.Started?
         && LastEvent(events).observationId == e.observationId && LastEvent(events).fingerprint == e.fingerprint
       case Verified(_, _) =>
         MayJudge(events, e.fingerprint) && Current(events) == e.observationId
       case Ended(status) =>
         && (status.SUCCEEDED? ==> events != [] && LastEvent(events).detail.Verified?
                                   && LastEvent(events).detail.outcome.Succeeded? && LastEvent(events).code == e.code)
         && (status.AWAITING_APPROVAL? ==>
               && events != []
               && LastEvent(events).detail == PolicyDecided(RequireApproval) && LastEvent(events).code == e.code)
  }

  predicate Trace(run: RunContext, events: seq<Event>) {
    events == [] || (Trace(run, events[..|events| - 1]) && MayFollow(run, events[..|events| - 1], LastEvent(events)))
  }

  lemma Appended(run: RunContext, events: seq<Event>, e: Event)
    requires Trace(run, events) && MayFollow(run, events, e)
    ensures Trace(run, events + [e])
    ensures ObservationCount(events + [e]) == ObservationCount(events) + if e.detail.Observed? then 1 else 0
    ensures StartCount(events + [e]) == StartCount(events) + if e.detail.Started? then 1 else 0
    ensures SuccessCount(events + [e]) == SuccessCount(events) + if SaysSuccess(e.detail) then 1 else 0
    ensures Current(events + [e]) == if e.detail.Observed? then e.observationId else Current(events)
  {
    assert (events + [e])[..|events|] == events;
  }

  // ----- What every trace says -----------------------------------------------

  lemma {:induction false} EveryEventFollowsItsPrefix(run: RunContext, events: seq<Event>, k: nat)
    requires Trace(run, events) && k < |events|
    ensures Trace(run, events[..k]) && MayFollow(run, events[..k], events[k])
  {
    var n := |events| - 1;
    if k < n {
      EveryEventFollowsItsPrefix(run, events[..n], k);
      assert events[..n][..k] == events[..k];
    }
  }

  /** Events are numbered 1..n, and only the last one can be terminal. */
  lemma NumberedAndClosedOnce(run: RunContext, events: seq<Event>, k: nat)
    requires Trace(run, events) && k < |events|
    ensures events[k].sequence == k + 1 && events[k].run == run
    ensures events[k].detail.Ended? ==> k == |events| - 1
  {
    EveryEventFollowsItsPrefix(run, events, k);
    if k + 1 < |events| {
      EveryEventFollowsItsPrefix(run, events, k + 1);
      assert LastEvent(events[..k + 1]) == events[k];
    }
  }

  lemma {:induction false} CurrentIsLatest(events: seq<Event>)
    ensures Current(events).Some? ==>
      exists j :: 0 <= j < |events| && events[j].detail.Observed? && events[j].observationId == Current(events)
                  && forall i :: j < i < |events| ==> !events[i].detail.Observed?
  {
    if events != [] && !LastEvent(events).detail.Observed? {
      CurrentIsLatest(events[..|events| - 1]);
    }
  }

  /**
    Every action start is directly preceded by the ALLOW verdict on the same fingerprint and observation,
    and that observation is the most recent one captured.
  */
  lemma StartsAreAuthorized(run: RunContext, events: seq<Event>, k: nat)
    requires Trace(run, events) && k < |events| && events[k].detail.Started?
    ensures k > 0 && events[k - 1].detail == PolicyDecided(AllowAction)
    ensures events[k - 1].fingerprint == events[k].fingerprint && events[k].fingerprint.Some?
    ensures events[k - 1].observationId == events[k].observationId
    ensures events[k].observationId.Some? ==>
      exists j :: 0 <= j < k && events[j].detail.Observed? && events[j].observationId == events[k].observationId
                  && forall i :: j < i < k ==> !events[i].detail.Observed?
  {
    EveryEventFollowsItsPrefix(run, events, k);
    CurrentIsLatest(events[..k]);
    assert LastEvent(events[..k]) == events[k - 1];
    if events[k].observationId.Some? {
      var j :| 0 <= j < k && events[..k][j].detail.Observed? && events[..k][j].observationId == Current(events[..k])
               && forall i :: j < i < k ==> !events[..k][i].detail.Observed?;
      assert events[j].detail.Observed?;
    }
  }

  /** A denial, an approval pause, a surrender or a conclusive verdict. */
  predicate Conclusive(detail: Detail) {
    match detail
    case Decided(kind, _) => kind.FailureKind?
    case PolicyDecided(disposition) => disposition.DenyAction? || disposition.RequireApproval?
    case Verified(outcome, _) => outcome.Succeeded? || outcome.Disproved? || outcome.Unclear?
    case _ => false
  }

  /** Nothing follows a conclusive event but the end of the run. */
  lemma ConclusionsAreFinal(run: RunContext, events: seq<Event>, k: nat)
    requires Trace(run, events) && k + 1 < |events| && Conclusive(events[k].detail)
    ensures events[k + 1].detail.Ended? && k + 2 == |events|
  {
    EveryEventFollowsItsPrefix(run, events, k + 1);
    assert LastEvent(events[..k + 1]) == events[k];
    NumberedAndClosedOnce(run, events, k + 1);
  }

  /** A success report is the verifier's own success, one event earlier; an approval pause is the policy's. */
  lemma SuccessIsVerified(run: RunContext, events: seq<Event>)
    requires Trace(run, events) && Closed(events)
    ensures LastEvent(events).detail == Ended(SUCCEEDED) ==>
      |events| >= 2 && events[|events| - 2].detail.Verified? && events[|events| - 2].detail.outcome.Succeeded?
          && events[|events| - 2].code == LastEvent(events).code
    ensures LastEvent(events).detail == Ended(AWAITING_APPROVAL) ==>
      |events| >= 2 && events[|events| - 2].detail == PolicyDecided(RequireApproval)
          && events[|events| - 2].code == LastEvent(events).code
  {
    EveryEventFollowsItsPrefix(run, events, |events| - 1);
  }
}
