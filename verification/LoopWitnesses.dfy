/** Runs that fall short of what one might expect of the loop, with the answers of their ports. */
module LoopWitnesses {
  import opened Outcomes
  import opened AttemptStore
  import opened LoopContracts
  import opened LoopTrace
  import opened LoopProgress
  import opened LoopReports
  import opened LoopSteps

  /** Two iterations, two retries, no domain pack; pages and actions are told apart by their text. */
  function Plain(reopen: bool): Setup {
    Setup(LoopConfig(2, 2, 30.0), LoopHashes((url, html) => url, (url, html) => html,
                                             (task, step, action, id) => "fingerprint"), None, reopen)
  }

  const RUN := RunContext("run", "task", "step", None, None, None)

  const SUBMIT := Action("CLICK", "submit", "")

  const FIRST := Authorization("first", "fingerprint", "page", "key", ExternalWrite)
  const SECOND := Authorization("second", "fingerprint", "page", "another key", ExternalWrite)
  const READ := Authorization("third", "fingerprint", "page", "a third key", ReadEffect)

  /**
    The model proposes to submit, the policy allows it under `grant`, and the verifier never knows; the page is always
    the same.
  */
  function Submitting(grant: Authorization, refuses: set<Stage>): Answers {
    Answers(None, Some("page"), Some(Act("page", SUBMIT, "SUBMIT")),
            Some(Allow("ALLOWED", grant, Profile(Locator, ["evidence"]))),
            1.0, Some(RawObservation("page", "<html>", 0.0)), Some(Verification(Continue, "NOT_YET", 0)), refuses)
  }

  /** The model takes the goal for reached. */
  function Resting(refuses: set<Stage>): Answers {
    Submitting(FIRST, refuses).(model := Some(Succeed("page", "LOOKS_DONE")))
  }

  /** A write that returned with its effect possibly started, on a runtime without a durable executor. */
  const DONE := CallAnswer(Returned(ActionResult(true, true, "DONE", None)), false)

  /** A write whose browser call was made and which then raised: beyond repair, or as a stale page. */
  const LOST := CallAnswer(Raised(Raise.Other), true)
  const REOPENED := CallAnswer(Raised(Stale), true)

  /** A call that raised before it reached anything. */
  const BROKEN := CallAnswer(Raised(Raise.Other), false)

  function ScriptOf(turns: seq<Round>): Script {
    Script(Submitting(FIRST, {}), turns, Submitting(FIRST, {}))
  }

  /** A move that goes on at the one page there is. */
  predicate GoesOn(m: Move) {
    m.turn.Go? && m.v.run == RUN && m.turn.observation.id == "page" && m.turn.observation.snapshotHash == "<html>"
        && m.turn.observation.capturedAt == 0.0
  }

  lemma TheRunBegins(reopen: bool)
    ensures var m := LookOn(Plain(reopen), Fresh(RUN), Submitting(FIRST, {}));
            GoesOn(m) && m.v.executions == [] && !m.v.effectMayHaveStarted && m.v.retriesUsed == 0 && m.v.fault.None?
  {
    assert Bound(Plain(reopen), RawObservation("page", "<html>", 0.0), 1).id == "page";
  }

  lemma OneRound(reopen: bool, a: Round)
    ensures var begun := LookOn(Plain(reopen), Fresh(RUN), Submitting(FIRST, {}));
            begun.turn.Go? ==>
              Iterations(Plain(reopen), begun, [a]) ==
              Iteration(Plain(reopen), begun.v.(iterations := 1), a.ports, a.call, begun.turn.observation)
  {
    hide LookOn, Iteration;
    assert [a][..0] == [];
    assert Iterations(Plain(reopen), LookOn(Plain(reopen), Fresh(RUN), Submitting(FIRST, {})), [a][..0])
        == LookOn(Plain(reopen), Fresh(RUN), Submitting(FIRST, {}));
  }

  lemma TwoRounds(reopen: bool, a: Round, b: Round)
    ensures var one := Iterations(Plain(reopen), LookOn(Plain(reopen), Fresh(RUN), Submitting(FIRST, {})), [a]);
            one.turn.Go? ==>
              Iterations(Plain(reopen), LookOn(Plain(reopen), Fresh(RUN), Submitting(FIRST, {})), [a, b])
                == Iteration(Plain(reopen), one.v.(iterations := 2), b.ports, b.call, one.turn.observation)
  {
    hide LookOn, Iteration;
    assert [a, b][..1] == [a];
  }

  /** A submission, whatever comes of it. */
  lemma TheCallIsMade(reopen: bool, v: Progress, grant: Authorization, a: Answers, call: CallAnswer, o: Observation)
    requires GoesOn(Move(v, Go(o))) && (grant == FIRST || grant == SECOND || grant == READ)
             && a == Submitting(grant, a.refuses)
    requires DecisionStage !in a.refuses && PolicyStage !in a.refuses && StartStage !in a.refuses
    ensures exists w: Progress, command: Command ::
              && Iteration(Plain(reopen), v, a, call, o) == Answer(Plain(reopen), w, a, command, call.outcome)
              && command.authorization == grant && command.action == SUBMIT
              && w.executions == v.executions +
                   [Execution(command, call.outcome, call.reached && grant != READ, |v.events| + 2, "page", 1.0)]
              && w.retriesUsed == v.retriesUsed && w.run == RUN && w.fault == v.fault
              && w.effectMayHaveStarted == (v.effectMayHaveStarted
                                            || (grant != READ && call.outcome.Returned?
                                                && call.outcome.result.effectMayHaveStarted))
  {
    hide Answer;
    var c := Plain(reopen);
    var command := Command(SUBMIT, "fingerprint", "page", "<html>", grant, Profile(Locator, ["evidence"]));
    assert Decide(c, RUN, a, o) == Some((Act("page", SUBMIT, "SUBMIT"), Model));
    var decided := Emitted(v, a, "SUBMIT", Some("page"), None, Decided(ActionKind, Model));
    var allowed := Emitted(decided, a, "ALLOWED", Some("page"), Some("fingerprint"), PolicyDecided(AllowAction));
    var announced := Emitted(allowed, a, "ACTION_STARTED", Some("page"), Some("fingerprint"),
                             Started("CLICK", grant.effect, Model));
    assert AuthorizedCommand(o, SUBMIT, "fingerprint", grant, Profile(Locator, ["evidence"])) == Some(command);
    assert Iteration(c, v, a, call, o) == OnAction(c, decided, a, call, o, SUBMIT, Model);
    assert OnAction(c, decided, a, call, o, SUBMIT, Model) == Perform(c, allowed, a, call, command, Model, 1.0);
    assert Perform(c, allowed, a, call, command, Model, 1.0)
        == Answer(c, Called(announced, CallMade(allowed, call, command, 1.0)), a, command, call.outcome);
  }

  // ----- A terminal event refused --------------------------------------------

  /** A write that reached the browser and then raised is reported FAILED when the sink refuses the terminal event. */
  lemma ARefusedEndLosesARaisedWrite()
    ensures var script := ScriptOf([Round(Submitting(FIRST, {TerminalStage}), LOST)]);
            var m := RunOf(Plain(false), RUN, script);
            && Plausible(Plain(false), RUN, script) && m.turn.Stop? && m.turn.report.status == FAILED
            && m.turn.report.reasonCode == "EVENT_SINK_FAILED"
            && |m.v.executions| == 1 && m.v.executions[0].reached && Ambiguous(m.v.executions[0])
  {
    hide LookOn, Iterations, Iteration;
    TheRunBegins(false);
    var a := Round(Submitting(FIRST, {TerminalStage}), LOST);
    OneRound(false, a);
    var begun := LookOn(Plain(false), Fresh(RUN), Submitting(FIRST, {}));
    TheCallIsMade(false, begun.v.(iterations := 1), FIRST, a.ports, a.call, begun.turn.observation);
  }

  // ----- The same write twice ------------------------------------------------

  /** A write that returned, was looked at and could not be judged leaves the run going. */
  lemma DoneGoesOn(v: Progress, o: Observation)
    requires GoesOn(Move(v, Go(o)))
    ensures var m := Iteration(Plain(false), v, Submitting(FIRST, {}), DONE, o);
            && GoesOn(m) && m.v.effectMayHaveStarted && |m.v.executions| == |v.executions| + 1
            && v.executions <= m.v.executions
            && m.v.fault == v.fault && LastCall(m.v).command.action == SUBMIT
            && LastCall(m.v).command.authorization == FIRST && ShowsEffect(LastCall(m.v))
  {
    hide Iteration;
    TheCallIsMade(false, v, FIRST, Submitting(FIRST, {}), DONE, o);
  }

  /** A write that returned may be asked of a plain runtime again, under the same permit and idempotency key. */
  lemma APlainRuntimeMayRepeatAWrite()
    ensures var script := ScriptOf([Round(Submitting(FIRST, {}), DONE), Round(Submitting(FIRST, {}), DONE)]);
            var m := RunOf(Plain(false), RUN, script);
            && Plausible(Plain(false), RUN, script) && |m.v.executions| == 2 && m.v.effectMayHaveStarted
            && m.v.executions[0].command.action == m.v.executions[1].command.action
            && m.v.executions[0].command.authorization == m.v.executions[1].command.authorization == FIRST
  {
    hide LookOn, Iterations, Iteration;
    TheRunBegins(false);
    var a := Round(Submitting(FIRST, {}), DONE);
    OneRound(false, a);
    TwoRounds(false, a, a);
    var begun := LookOn(Plain(false), Fresh(RUN), Submitting(FIRST, {}));
    DoneGoesOn(begun.v.(iterations := 1), begun.turn.observation);
    var one := Iterations(Plain(false), begun, [a]);
    DoneGoesOn(one.v.(iterations := 2), one.turn.observation);
  }

  /** A stale page behind the browser call, as only the fault hook may report it, is retried. */
  lemma ReopenedGoesOn(v: Progress, grant: Authorization, o: Observation)
    requires GoesOn(Move(v, Go(o))) && v.retriesUsed < 2 && (grant == FIRST || grant == SECOND)
    ensures var m := Iteration(Plain(true), v, Submitting(grant, {}), REOPENED, o);
            && GoesOn(m) && m.v.retriesUsed == v.retriesUsed + 1 && |m.v.executions| == |v.executions| + 1
            && v.executions <= m.v.executions
            && LastCall(m.v).command.authorization == grant && LastCall(m.v).reached
  {
    hide Iteration;
    TheCallIsMade(true, v, grant, Submitting(grant, {}), REOPENED, o);
  }

  /**
    With a hook that raises a stale page behind the browser call, two writes of one run reach the browser, each under
    its own permit.
  */
  lemma AReopenedWriteIsFollowedByAnother()
    ensures var script := ScriptOf([Round(Submitting(FIRST, {}), REOPENED), Round(Submitting(SECOND, {}), REOPENED)]);
            var m := RunOf(Plain(true), RUN, script);
            && Plausible(Plain(true), RUN, script) && |m.v.executions| == 2 && m.v.executions[0].reached
            && m.v.executions[1].reached
            && m.v.executions[0].command.authorization == FIRST && m.v.executions[1].command.authorization == SECOND
  {
    hide LookOn, Iterations, Iteration;
    TheRunBegins(true);
    var a, b := Round(Submitting(FIRST, {}), REOPENED), Round(Submitting(SECOND, {}), REOPENED);
    OneRound(true, a);
    TwoRounds(true, a, b);
    var begun := LookOn(Plain(true), Fresh(RUN), Submitting(FIRST, {}));
    ReopenedGoesOn(begun.v.(iterations := 1), FIRST, begun.turn.observation);
    var one := Iterations(Plain(true), begun, [a]);
    ReopenedGoesOn(one.v.(iterations := 2), SECOND, one.turn.observation);
  }

  // ----- A refused observation -----------------------------------------------

  lemma RestingFails(v: Progress, o: Observation)
    requires GoesOn(Move(v, Go(o)))
    ensures var m := Iteration(Plain(false), v, Resting({ObservationStage}), DONE, o);
            && m.turn.Stop? && m.turn.report.status == FAILED && m.turn.report.reasonCode == "OBSERVATION_FAILED"
            && m.v.executions == v.executions && m.v.effectMayHaveStarted == v.effectMayHaveStarted
            && m.v.fault.Some? && m.v.fault.value.SinkRefused? && m.v.fault.value.event.detail.Observed?
            && !BehindWrite(BeforeEnd(m.v))
  {
    assert Decide(Plain(false), RUN, Resting({ObservationStage}), o) == Some((Succeed("page", "LOOKS_DONE"), Model));
  }

  /** A run whose write may have had its effect ends FAILED because the sink refuses a later observation. */
  lemma ARefusedObservationForgetsTheEffect()
    ensures var script := ScriptOf([Round(Submitting(FIRST, {}), DONE), Round(Resting({ObservationStage}), DONE)]);
            var m := RunOf(Plain(false), RUN, script);
            && Plausible(Plain(false), RUN, script) && m.turn.Stop? && m.turn.report.status == FAILED
            && m.turn.report.reasonCode == "OBSERVATION_FAILED"
            && |m.v.executions| == 1 && ShowsEffect(m.v.executions[0]) && m.v.effectMayHaveStarted && m.v.fault.Some?
            && ForgetsTheEffect(m.v)
  {
    hide LookOn, Iterations, Iteration;
    TheRunBegins(false);
    var a, b := Round(Submitting(FIRST, {}), DONE), Round(Resting({ObservationStage}), DONE);
    OneRound(false, a);
    TwoRounds(false, a, b);
    var begun := LookOn(Plain(false), Fresh(RUN), Submitting(FIRST, {}));
    DoneGoesOn(begun.v.(iterations := 1), begun.turn.observation);
    var one := Iterations(Plain(false), begun, [a]);
    RestingFails(one.v.(iterations := 2), one.turn.observation);
  }

  // ----- Failures of the run itself ------------------------------------------

  lemma AReadBreaks(v: Progress, o: Observation)
    requires GoesOn(Move(v, Go(o))) && v.fault.None?
    ensures var m := Iteration(Plain(false), v, Submitting(READ, {}), BROKEN, o);
            && m.turn.Stop? && m.turn.report.status == FAILED && m.turn.report.reasonCode == "ACTION_EXECUTION_FAILED"
            && v.executions <= m.v.executions && m.v.effectMayHaveStarted == v.effectMayHaveStarted && m.v.fault.None?
  {
    hide Iteration;
    TheCallIsMade(false, v, READ, Submitting(READ, {}), BROKEN, o);
  }

  /** A run whose write may have had its effect ends FAILED because a later call that only reads raises. */
  lemma ABrokenReadForgetsTheEffect()
    ensures var script := ScriptOf([Round(Submitting(FIRST, {}), DONE), Round(Submitting(READ, {}), BROKEN)]);
            var m := RunOf(Plain(false), RUN, script);
            && Plausible(Plain(false), RUN, script) && m.turn.Stop? && m.turn.report.status == FAILED
            && m.turn.report.reasonCode == "ACTION_EXECUTION_FAILED"
            && m.v.executions != [] && ShowsEffect(m.v.executions[0]) && m.v.effectMayHaveStarted && m.v.fault.None?
  {
    hide LookOn, Iterations, Iteration;
    TheRunBegins(false);
    var a, b := Round(Submitting(FIRST, {}), DONE), Round(Submitting(READ, {}), BROKEN);
    OneRound(false, a);
    TwoRounds(false, a, b);
    var begun := LookOn(Plain(false), Fresh(RUN), Submitting(FIRST, {}));
    DoneGoesOn(begun.v.(iterations := 1), begun.turn.observation);
    var one := Iterations(Plain(false), begun, [a]);
    AReadBreaks(one.v.(iterations := 2), one.turn.observation);
  }

  /** A run whose write may have had its effect ends FAILED because its iterations are spent. */
  lemma ASpentBudgetForgetsTheEffect()
    ensures var script := ScriptOf([Round(Submitting(FIRST, {}), DONE), Round(Submitting(FIRST, {}), DONE)]);
            var m := RunOf(Plain(false), RUN, script);
            && Plausible(Plain(false), RUN, script) && m.turn.Stop? && m.turn.report.status == FAILED
            && m.turn.report.reasonCode == "ITERATION_BUDGET_EXHAUSTED"
            && m.v.executions != [] && ShowsEffect(m.v.executions[0]) && m.v.effectMayHaveStarted && m.v.fault.None?
  {
    hide LookOn, Iterations, Iteration;
    TheRunBegins(false);
    var a := Round(Submitting(FIRST, {}), DONE);
    OneRound(false, a);
    TwoRounds(false, a, a);
    var begun := LookOn(Plain(false), Fresh(RUN), Submitting(FIRST, {}));
    DoneGoesOn(begun.v.(iterations := 1), begun.turn.observation);
    var one := Iterations(Plain(false), begun, [a]);
    DoneGoesOn(one.v.(iterations := 2), one.turn.observation);
  }
}
