/** What the report of a finished run says about the external writes behind it. */
module LoopReports {
  import opened Outcomes
  import opened AttemptStore
  import opened LoopContracts
  import opened LoopTrace
  import opened LoopProgress
  import opened LoopSafety
  import opened LoopSteps

  /** The sink refused the terminal event, and no write that returned may have had an effect. */
  predicate LosesItsEnd(v: Progress) {
    !Closed(v.events) && !v.effectMayHaveStarted
  }

  /** The sink refused no event the loop does not catch. */
  predicate KeepsItsEvents(v: Progress) {
    Closed(v.events) && !LetEscape(v)
  }

  lemma ReachedIsLast(c: Setup, v: Progress, k: nat)
    requires Sound(c, v) && !c.reopen && k < |v.executions| && v.executions[k].reached
    ensures k == |v.executions| - 1 && ReachedCount(v.executions) == 1
    ensures if LastCall(v).outcome.Returned? then EndsAwaitingProbe(v) && v.effectMayHaveStarted else EndsAmbiguous(v)
  {
    OnlyTheLastReaches(c.reopen, v.executions);
    NoneReached(v.executions[..|v.executions| - 1]);
    assert CallKept(c.reopen, LastCall(v));
    assert ShowsEffect(LastCall(v)) || LastCall(v).outcome.Raised?;
  }

  /**
    On an executor whose hook cannot reopen calls, a run that reached the browser did so once, in its last runtime call,
    and reports UNKNOWN.  It reports FAILED exactly when that call raised, no earlier write may have had an effect, and
    the sink refused the terminal event.  Unless an event was refused, a call that returned has its checkpoint reported.
  */
  lemma ReachedRunsStayOpen(c: Setup, v: Progress, r: Report, k: nat)
    requires Finished(c, v, r) && !c.reopen && k < |v.executions| && v.executions[k].reached
    ensures k == |v.executions| - 1 && ReachedCount(v.executions) == 1
    ensures r.status == if LastCall(v).outcome.Raised? && LosesItsEnd(v) then FAILED else UNKNOWN
    ensures LastCall(v).outcome.Returned? && KeepsItsEvents(v) ==>
              r.reasonCode == "PENDING_RESULT_PROBE" && r.checkpoint.Some?
                  && r.checkpoint == LastCall(v).outcome.result.checkpoint
    ensures LastCall(v).outcome.Raised? ==> r.checkpoint.None?
  {
    hide ReachedCount, ReturnCount, AllAnnounced, Trace, Budgets;
    ReachedIsLast(c, v, k);
    assert LastCall(BeforeEnd(v)) == LastCall(v);
  }

  lemma ReachedOnce(c: Setup, v: Progress, r: Report)
    requires Finished(c, v, r)
    ensures !c.reopen && ReachedCount(v.executions) > 0 ==>
              && v.executions != [] && LastCall(v).reached && ReachedCount(v.executions) == 1
              && r.status == (if LastCall(v).outcome.Raised? && LosesItsEnd(v) then FAILED else UNKNOWN)
              && (LastCall(v).outcome.Returned? && KeepsItsEvents(v) ==>
                  r.checkpoint == LastCall(v).outcome.result.checkpoint)
  {
    if !c.reopen && ReachedCount(v.executions) > 0 {
      if forall k :: 0 <= k < |v.executions| ==> !v.executions[k].reached {
        NoneReached(v.executions);
      } else {
        var k :| 0 <= k < |v.executions| && v.executions[k].reached;
        ReachedRunsStayOpen(c, v, r, k);
      }
    }
  }

  /**
    A write whose call raised in a way that leaves its effect open is the last call, and is reported UNKNOWN or lost
    with its terminal event.
  */
  lemma RaisedWritesStayOpen(c: Setup, v: Progress, r: Report, k: nat)
    requires Finished(c, v, r) && k < |v.executions| && Ambiguous(v.executions[k])
    ensures k == |v.executions| - 1
    ensures r.status == UNKNOWN <==> Closed(v.events) || v.effectMayHaveStarted
    ensures r.status == FAILED <==> !Closed(v.events) && !v.effectMayHaveStarted
  {
    assert k < |v.executions| - 1 ==> LetsGoOn(c.reopen, v.executions[k]);
    assert LastCall(BeforeEnd(v)) == LastCall(v);
  }

  /**
    The port failures that end a run FAILED although an effect may have started: of the decision or policy provider, and
    of an observation, captured or recorded, at any point but directly behind the completion event of a write.
  */
  predicate ForgetsTheEffect(v: Progress)
    requires v.fault.Some?
  {
    match v.fault.value
    case SinkRefused(e) => e.detail.Observed? && !BehindWrite(BeforeEnd(v))
    case PortRaised(Observing) => !BehindWrite(BeforeEnd(v))
    case PortRaised(Verifying) => false
    case PortRaised(_) => true
  }

  /**
    Over every run in which an effect may have started: it ends FAILED exactly when the sink took the terminal event and
    either one of these ports failed it, or none did and it failed on its own.
  */
  lemma WhenAnEffectIsForgotten(c: Setup, run: RunContext, script: Script)
    requires Plausible(c, run, script) && RunOf(c, run, script).v.effectMayHaveStarted
    ensures var m := RunOf(c, run, script);
            && m.turn.Stop?
            && (m.turn.report.status == FAILED <==>
                  Closed(m.v.events)
                  && if m.v.fault.Some? then ForgetsTheEffect(m.v)
                       else OwnFailure(c.config, BeforeEnd(m.v), m.turn.report.reasonCode))
            && (m.v.fault.Some? && m.turn.report.status != FAILED ==> m.turn.report.status == UNKNOWN)
  {
    hide RunOf, Sound;
    RunsAreSafe(c, run, script);
  }

  /**
    The port failures behind which a run without a known effect suspects one: of the page directly behind a write, and
    of the verifier.
  */
  predicate SuspectsAnEffect(v: Progress)
    requires v.fault.Some?
  {
    match v.fault.value
    case SinkRefused(e) => e.detail.Observed? && BehindWrite(BeforeEnd(v))
    case PortRaised(Observing) => BehindWrite(BeforeEnd(v))
    case PortRaised(port) => port.Verifying?
  }

  /**
    Over every run in which no effect is known to have started: it ends UNKNOWN exactly when the sink took the terminal
    event and either one of these ports failed it, or none did and its last call or its last verdict left it open.
  */
  lemma WhenAnEffectIsSuspected(c: Setup, run: RunContext, script: Script)
    requires Plausible(c, run, script) && !RunOf(c, run, script).v.effectMayHaveStarted
    ensures var m := RunOf(c, run, script);
            && m.turn.Stop?
            && (m.turn.report.status == UNKNOWN <==>
                  Closed(m.v.events)
                  && if m.v.fault.Some? then SuspectsAnEffect(m.v)
                       else OwnSuspicion(BeforeEnd(m.v), m.turn.report.reasonCode))
            && (m.v.fault.Some? && m.turn.report.status != UNKNOWN ==> m.turn.report.status == FAILED)
  {
    hide RunOf, Sound;
    RunsAreSafe(c, run, script);
  }
}
