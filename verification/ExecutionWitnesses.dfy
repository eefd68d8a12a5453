/** Runs of the execution protocol that fall short of what one might expect, and the tables they start from. */
module ExecutionWitnesses {
  import opened Outcomes
  import opened AttemptStore
  import opened LoopContracts
  import opened ExecutionProtocol

  // ----- A hook behind the browser call --------------------------------------

  /** One call, from its start to a fault hook that raises a stale page behind the browser call. */
  function ReopenedCall(p: nat, request: AttemptRequest, id: nat, now: int): seq<Step> {
    [Spawn(request), Preflight(p, None), Authorize(p, id, now), MarkExecuting(p), InvokeBrowser(p, true),
     HookRaises(p, Stale)]
  }

  lemma SixSteps(w: World, a: Step, b: Step, c: Step, d: Step, e: Step, f: Step)
    ensures RunSteps(w, [a, b, c, d, e, f]) == Next(Next(Next(Next(Next(Next(w, a), b), c), d), e), f)
  {
    hide Next;
    RunAppends(w, [], a);
    RunAppends(w, [a], b);
    RunAppends(w, [a, b], c);
    RunAppends(w, [a, b, c], d);
    RunAppends(w, [a, b, c, d], e);
    RunAppends(w, [a, b, c, d, e], f);
    assert [] + [a] == [a] && [a] + [b] == [a, b] && [a, b] + [c] == [a, b, c] && [a, b, c] + [d] == [a, b, c, d];
    assert [a, b, c, d] + [e] == [a, b, c, d, e] && [a, b, c, d, e] + [f] == [a, b, c, d, e, f];
  }

  lemma ACallClears(w: World, request: AttemptRequest)
    requires request.probeRef != ""
    ensures Next(Next(w, Spawn(request)), Preflight(|w.procs|, None))
        == w.(procs := w.procs + [Process(Cleared, request)])
  {
    hide Commit, AtHook;
    assert Moved(w.(procs := w.procs + [Process(Start, request)]), |w.procs|, Cleared).procs
        == w.procs + [Process(Cleared, request)];
  }

  /** The tables once the request's attempt is executing. */
  function ExecutingStore(s: Store, request: AttemptRequest, id: nat, now: int): Store
    requires request.permitId in s.permits
  {
    var permit := s.permits[request.permitId];
    Store(s.permits[request.permitId := permit.(status := Consumed)],
          s.attempts[id := NewAttempt(permit, request, now).(status := Executing)])
  }

  lemma AClearedCallRuns(w: World, request: AttemptRequest, id: nat, now: int)
    requires AuthorizeFault(w.store, request, id, now).None? && request.permitId != "" && request.probeRef != ""
    ensures var p := |w.procs|;
            Next(Next(w.(procs := w.procs + [Process(Cleared, request)]), Authorize(p, id, now)), MarkExecuting(p))
              == w.(procs := w.procs + [Process(Running(id), request)],
                    store := ExecutingStore(w.store, request, id, now))
  {
    hide AtHook, KeyTaken, PermitHasAttempt;
    var p := |w.procs|;
    var cleared := w.(procs := w.procs + [Process(Cleared, request)]);
    var tx := AuthorizeTx(w.store, request, id, now).value;
    assert Next(cleared, Authorize(p, id, now)) == Moved(cleared, p, Holding(id)).(store := tx);
    assert Moved(cleared, p, Holding(id)).procs == w.procs + [Process(Holding(id), request)];
    var holding := w.(procs := w.procs + [Process(Holding(id), request)], store := tx);
    assert ExecutingStore(w.store, request, id, now) == TransitionTx(tx, id, Authorized, Executing).value;
    assert Moved(holding, p, Running(id)).procs == w.procs + [Process(Running(id), request)];
  }

  lemma ARunningCallReopens(w: World, procs: seq<Process>, request: AttemptRequest, id: nat)
    requires w.procs == procs + [Process(Running(id), request)]
    ensures Next(Next(w, InvokeBrowser(|procs|, true)), HookRaises(|procs|, Stale))
              == w.(procs := procs + [Process(Over(Threw(Stale)), request)],
                    invoked := w.invoked + [Invocation(|procs|, id)])
  {
    hide Commit;
    var invoked := Next(w, InvokeBrowser(|procs|, true));
    assert invoked.procs == procs + [Process(Pc.Invoked(id, true), request)];
    assert Moved(invoked, |procs|, Over(Threw(Stale))).procs == procs + [Process(Over(Threw(Stale)), request)];
  }

  /** The world after a reopened call. */
  function Reopened(w: World, request: AttemptRequest, id: nat, now: int): World
    requires request.permitId in w.store.permits
  {
    w.(store := ExecutingStore(w.store, request, id, now), procs := w.procs + [Process(Over(Threw(Stale)), request)],
       invoked := w.invoked + [Invocation(|w.procs|, id)])
  }

  /**
    Wherever a request can be authorized, its call can reach the browser and still end in an error the loop retries:
    all it takes is the hook.
  */
  lemma AHookReopensACall(w: World, request: AttemptRequest, id: nat, now: int)
    requires AuthorizeFault(w.store, request, id, now).None? && request.permitId != "" && request.probeRef != ""
    ensures RunSteps(w, ReopenedCall(|w.procs|, request, id, now)) == Reopened(w, request, id, now)
    ensures RetriesAfterCall(Reopened(w, request, id, now), |w.procs|)
  {
    hide Next, AuthorizeFault;
    var p := |w.procs|;
    SixSteps(w, Spawn(request), Preflight(p, None), Authorize(p, id, now), MarkExecuting(p), InvokeBrowser(p, true),
             HookRaises(p, Stale));
    ACallClears(w, request);
    PermitIsThere(w.store, request, id, now);
    AClearedCallRuns(w, request, id, now);
    ARunningCallReopens(w.(procs := w.procs + [Process(Running(id), request)],
                           store := ExecutingStore(w.store, request, id, now)), w.procs, request, id);
    assert Reopened(w, request, id, now).invoked[|w.invoked|].process == p;
  }

  lemma PermitIsThere(s: Store, request: AttemptRequest, id: nat, now: int)
    requires AuthorizeFault(s, request, id, now).None?
    ensures request.permitId in s.permits
  {
  }

  const PROFILE := Profile(Locator, ["evidence"])

  function IssuedPermit(): Permit {
    Permit("task", "step", "fingerprint", "page", Some(PermitContext(ExternalWrite, PROFILE, false)), 100, Issued)
  }

  function WriteRequest(permitId: string, key: string): AttemptRequest {
    AttemptRequest(permitId, "fingerprint", "page", key, ExternalWrite, PROFILE, "probe")
  }

  /** Two issued permits and nothing attempted. */
  function TwoPermits(): World {
    World(Store(map["first" := IssuedPermit(), "second" := IssuedPermit()], map[]), [], [], {}, {})
  }

  /** From these tables two calls in a row reach the browser and both end in an error the loop retries. */
  lemma TwoReopenedCalls()
    ensures var first, second := WriteRequest("first", "key"), WriteRequest("second", "another key");
            var w := RunSteps(RunSteps(TwoPermits(), ReopenedCall(0, first, 0, 1)), ReopenedCall(1, second, 1, 1));
            && Initial(TwoPermits()) && w.invoked == [Invocation(0, 0), Invocation(1, 1)] && RetriesAfterCall(w, 0)
            && RetriesAfterCall(w, 1)
  {
    hide RunSteps;
    var w0, first, second := TwoPermits(), WriteRequest("first", "key"), WriteRequest("second", "another key");
    AHookReopensACall(w0, first, 0, 1);
    var w1 := Reopened(w0, first, 0, 1);
    AHookReopensACall(w1, second, 1, 1);
    assert Reopened(w1, second, 1, 1).invoked[0].process == 0;
  }

  // ----- A recovery scan that rolls back -------------------------------------

  /** An abandoned attempt and an executing one that names no probe. */
  function HalfWritten(): Store {
    var permits := map["first" := IssuedPermit().(status := Consumed), "second" := IssuedPermit().(status := Consumed)];
    var abandoned := NewAttempt(permits["first"], WriteRequest("first", "key"), 1);
    var executing :=
      NewAttempt(permits["second"], WriteRequest("second", "another key"), 1).(status := Executing, probeRef := None);
    Store(permits, map[0 := abandoned, 1 := executing])
  }

  lemma HalfWrittenMayBeScanned()
    ensures Initial(World(HalfWritten(), [], [], {}, {})) && QueryResult(HalfWritten(), 1, {}, [0, 1])
  {
    hide CheckpointOf;
  }

  /**
    A scan over both rolls back: the abandoned attempt stays AUTHORIZED although a scan over it alone would fail it.
  */
  lemma OneRowBlocksTheScan()
    ensures var w := World(HalfWritten(), [], [], {}, {});
            && Initial(w) && QueryResult(w.store, 1, {}, [0, 1])
            && Next(w, Recover({0, 1})) == w && w.store.attempts[0].status.Authorized?
            && Next(w, Recover({0})).store.attempts[0].status.Failed?
  {
    hide QueryResult, Constrained;
    HalfWrittenMayBeScanned();
    var s := HalfWritten();
    assert s.attempts[1].status.Executing? && CheckpointOf(1, s.attempts[1]).None?;
    assert !ScanCommits(s, {0, 1}) && ScanCommits(s, {0});
  }
}
