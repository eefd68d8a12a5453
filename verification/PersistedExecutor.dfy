/** The crash-safe executor and its recovery scan, run against tables that other processes keep changing. */
module PersistedExecutor {
  import opened Outcomes
  import opened AttemptStore
  import opened LoopContracts
  import opened ExecutionProtocol
  import opened ExecutionAuthority

  datatype RecoveryReport = RecoveryReport(ambiguous: seq<Checkpoint>, abandoned: seq<nat>)

  /** The rows a scan names. */
  function Rows(models: seq<nat>): set<nat> {
    set a | a in models
  }

  datatype RecoveryError = NegativeMinimumAge | IncompleteCheckpoint

  /** The attempts of `models` that recovery fails, in scan order. */
  function AbandonedIn(s: Store, models: seq<nat>): seq<nat>
    requires forall a :: a in models ==> a in s.attempts
  {
    if models == [] then []
    else
      var last := models[|models| - 1];
      AbandonedIn(s, models[..|models| - 1]) + if s.attempts[last].status.Authorized? then [last] else []
  }

  /** The checkpoints, now UNKNOWN, of the attempts of `models` that were executing, in scan order. */
  function AmbiguousIn(s: Store, models: seq<nat>): seq<Checkpoint>
    requires forall a :: a in models ==> a in s.attempts
    requires ScanCommits(s, Rows(models))
  {
    if models == [] then []
    else
      var last := models[|models| - 1];
      assert forall a :: a in models[..|models| - 1] ==> a in models;
      AmbiguousIn(s, models[..|models| - 1])
      + if s.attempts[last].status.Executing?
          then [CheckpointOf(last, s.attempts[last]).value.(attemptStatus := Unknown)] else []
  }

  /** The checkpoint says what its attempt's row says, and that its result is open. */
  predicate Names(c: Checkpoint, row: Attempt) {
    && row.permitId == Some(c.permitId) && row.taskId == c.taskId && row.stepId == c.stepId
    && row.fingerprint == c.fingerprint && row.observationHash == c.observationHash
    && row.keyDigest == Some(c.keyDigest) && row.effect == Some(c.effect) && row.probeRef == Some(c.probeRef)
    && c.attemptStatus == Unknown
  }

  /** The attempts are in the order of creation, and of ids where several were created at once. */
  predicate InOrder(s: Store, attempts: seq<nat>) {
    forall i, j :: 0 <= i < j < |attempts| ==> Earlier(s, attempts[i], attempts[j])
  }

  function AttemptsOf(checkpoints: seq<Checkpoint>): seq<nat> {
    seq(|checkpoints|, i requires 0 <= i < |checkpoints| => checkpoints[i].attemptId)
  }

  lemma OneMoreInOrder(s: Store, attempts: seq<nat>, models: seq<nat>, a: nat)
    requires InOrder(s, attempts) && (forall m :: m in attempts ==> m in models)
    requires forall m :: m in models ==> Earlier(s, m, a)
    ensures InOrder(s, attempts + [a])
  {
    forall i | 0 <= i < |attempts| ensures Earlier(s, attempts[i], a) {
      assert attempts[i] in attempts;
    }
  }

  /** Both lists of a scan are in the order its query asks for. */
  lemma {:induction false} ReportsAreInOrder(s: Store, models: seq<nat>)
    requires forall m :: m in models ==> m in s.attempts
    requires InOrder(s, models) && ScanCommits(s, Rows(models))
    ensures forall a :: a in AbandonedIn(s, models) ==> a in models
    ensures forall a :: a in AttemptsOf(AmbiguousIn(s, models)) ==> a in models
    ensures InOrder(s, AbandonedIn(s, models)) && InOrder(s, AttemptsOf(AmbiguousIn(s, models)))
  {
    hide InOrder, Earlier;
    if models != [] {
      var n := |models| - 1;
      var front, last := models[..n], models[n];
      assert forall m :: m in models <==> m in front || m == last;
      PrefixInOrder(s, models);
      ReportsAreInOrder(s, front);
      var abandoned, ambiguous := AbandonedIn(s, front), AmbiguousIn(s, front);
      if s.attempts[last].status.Authorized? {
        OneMoreInOrder(s, abandoned, front, last);
        assert AmbiguousIn(s, models) == ambiguous;
      } else if s.attempts[last].status.Executing? {
        OneMoreInOrder(s, AttemptsOf(ambiguous), front, last);
        var c := CheckpointOf(last, s.attempts[last]).value.(attemptStatus := Unknown);
        assert AttemptsOf(ambiguous + [c]) == AttemptsOf(ambiguous) + [last];
        assert AbandonedIn(s, models) == abandoned;
      } else {
        assert AbandonedIn(s, models) == abandoned && AmbiguousIn(s, models) == ambiguous;
      }
    } else {
      NothingIsInOrder(s);
    }
  }

  lemma PrefixInOrder(s: Store, models: seq<nat>)
    requires models != [] && InOrder(s, models)
    ensures InOrder(s, models[..|models| - 1])
    ensures var front, last := models[..|models| - 1], models[|models| - 1];
            forall m :: m in front ==> Earlier(s, m, last)
  {
    var front := models[..|models| - 1];
    forall i, j | 0 <= i < j < |front| ensures Earlier(s, front[i], front[j]) {
      assert Earlier(s, models[i], models[j]);
    }
    forall m | m in front ensures Earlier(s, m, models[|models| - 1]) {
      var i :| 0 <= i < |front| && front[i] == m;
      assert Earlier(s, models[i], models[|models| - 1]);
    }
  }

  lemma NothingIsInOrder(s: Store)
    ensures InOrder(s, []) && AttemptsOf([]) == []
  {
  }

  predicate Earlier(s: Store, a: nat, b: nat) {
    && a in s.attempts && b in s.attempts
    && (s.attempts[a].createdAt < s.attempts[b].createdAt
        || (s.attempts[a].createdAt == s.attempts[b].createdAt && a < b))
  }

  /** No attempt is in both lists, and together they are the scanned attempts. */
  lemma {:induction false} ReportsPartitionTheScan(s: Store, models: seq<nat>, a: nat)
    requires forall m :: m in models ==>
               m in s.attempts && (s.attempts[m].status.Authorized? || s.attempts[m].status.Executing?)
    requires ScanCommits(s, Rows(models))
    ensures a in models <==>
            a in AbandonedIn(s, models) || (exists c :: c in AmbiguousIn(s, models) && c.attemptId == a)
    ensures a in AbandonedIn(s, models) ==> a in s.attempts && s.attempts[a].status.Authorized?
    ensures forall c :: c in AmbiguousIn(s, models) ==>
        c.attemptId in s.attempts && s.attempts[c.attemptId].status.Executing? && Names(c, s.attempts[c.attemptId])
  {
    if models != [] {
      var front, last := models[..|models| - 1], models[|models| - 1];
      assert forall m :: m in models <==> m in front || m == last;
      ReportsPartitionTheScan(s, front, a);
      if s.attempts[last].status.Executing? {
        var c := CheckpointOf(last, s.attempts[last]).value.(attemptStatus := Unknown);
        assert c in AmbiguousIn(s, models) && c.attemptId == last;
      }
      forall c | c in AmbiguousIn(s, front) ensures c in AmbiguousIn(s, models) {}
    }
  }

  /** Whether a step is one of process `p`'s own. */
  predicate OfProcess(step: Step, p: nat) {
    match step
    case Spawn(_) => false
    case Recover(_) => false
    case Resolve(_, _) => false
    case _ => step.p == p
  }

  /** Nothing already in the world's history is lost. */
  predicate Extends(w: World, w': World) {
    |w.procs| <= |w'.procs| && w.invoked <= w'.invoked
  }

  /** Process `p` stands at `pc`, and whether it has called the browser is as before. */
  predicate Advanced(w: World, w': World, p: nat, pc: Pc) {
    && Extends(w, w') && p < |w.procs|
    && w'.procs[p] == w.procs[p].(pc := pc)
    && (NoCallBy(w', p) <==> NoCallBy(w, p))
  }

  lemma CallsSurvive(w: World, w': World, q: nat)
    requires Extends(w, w') && !NoCallBy(w, q)
    ensures !NoCallBy(w', q)
  {
    var i :| 0 <= i < |w.invoked| && w.invoked[i].process == q;
    assert w'.invoked[i] == w.invoked[i];
  }

  /** The shared tables together with every executor call in flight. */
  class Deployment {
    var world: World
    ghost var start: World
    ghost var history: seq<Step>

    /** The current world is what the recorded steps make of the first one. */
    ghost predicate Valid()
      reads this
    {
      Initial(start) && world == RunSteps(start, history)
    }

    constructor (store: Store)
      requires Constrained(store)
      ensures Valid() && world == World(store, [], [], {}, {})
    {
      world := World(store, [], [], {}, {});
      start := World(store, [], [], {}, {});
      history := [];
    }

    lemma Sound()
      requires Valid()
      ensures Inv(world)
    {
      RunKeepsInv(start, history);
    }

    lemma EveryHolderIsBound()
      requires Valid()
      ensures AllBound(world)
    {
      RunKeepsBound(start, history);
    }

    /** The checkpoint of an attempt just marked UNKNOWN names the call of the process that holds it. */
    lemma RecordedIsNamed(p: nat, c: Checkpoint)
      requires Valid() && p < |world.procs| && world.procs[p].pc.Recorded?
      requires var a := world.procs[p].pc.a;
               && a in world.store.attempts && world.store.attempts[a].status.Unknown?
               && CheckpointOf(a, world.store.attempts[a]) == Some(c)
      ensures NamesCall(world, p, c)
    {
      Sound();
      EveryHolderIsBound();
      assert Bound(world, p, world.procs[p].pc.a) && ProcOk(world, p);
    }

    /** One atomic step of any participant. */
    method Do(step: Step)
      requires Valid()
      modifies this
      ensures Valid() && start == old(start) && history == old(history) + [step]
      ensures world == Next(old(world), step)
    {
      RunAppends(start, history, step);
      world := Next(world, step);
      history := history + [step];
    }

    /** Any number of steps of everyone but process `p`. */
    method Interfere(p: nat)
      requires Valid() && p < |world.procs|
      modifies this
      ensures Valid() && start == old(start)
      ensures Advanced(old(world), world, p, old(world.procs[p].pc))
    {
      var turns: nat := *;
      while turns > 0
        invariant Valid() && start == old(start)
        invariant Advanced(old(world), world, p, old(world.procs[p].pc))
      {
        var step: Step := *;
        if !OfProcess(step, p) {
          OthersLeaveAlone(world, step, p);
          Do(step);
        }
        turns := turns - 1;
      }
    }

    /** The browser call begins: a new process with its authorization request. */
    method Open(request: AttemptRequest) returns (p: nat)
      requires Valid()
      modifies this
      ensures Valid() && start == old(start)
      ensures history == old(history) + [Spawn(request)]
      ensures p == old(|world.procs|) < |world.procs| && Extends(old(world), world)
      ensures world.procs[p] == Process(Start, request) && NoCallBy(world, p)
    {
      Sound();
      p := |world.procs|;
      NoCallByNewcomer(world, p);
      Do(Spawn(request));
    }

    /** Consumes the permit and inserts the attempt, or raises and changes nothing in the tables. */
    method AuthorizeAttempt(p: nat, now: int) returns (ok: bool)
      requires Valid() && p < |world.procs| && world.procs[p].pc.Cleared?
      modifies this
      ensures Valid() && start == old(start)
      ensures exists id: nat :: history == old(history) + [Authorize(p, id, now)]
      ensures Extends(old(world), world) && p < |world.procs| && Advanced(old(world), world, p, world.procs[p].pc)
      ensures if ok then world.procs[p].pc.Holding? && Bound(world, p, world.procs[p].pc.a)
              else world.procs[p].pc == Over(Threw(Other))
    {
      var id: nat := *;
      var request := world.procs[p].request;
      var fault := AuthorizeFault(world.store, request, id, now);
      RunAppends(start, history, Authorize(p, id, now));
      if fault.None? {
        var permit := world.store.permits[request.permitId];
        var attempts := world.store.attempts[id := NewAttempt(permit, request, now)];
        var permits := world.store.permits[request.permitId := permit.(status := Consumed)];
        var store := Store(permits, attempts);
        world := Moved(world, p, Named(store, id, Holding(id))).(store := store);
      } else {
        world := Moved(world, p, Over(Threw(Other)));
      }
      history := history + [Authorize(p, id, now)];
      ok := world.procs[p].pc.Holding?;
      EveryHolderIsBound();
    }

    /** AUTHORIZED to EXECUTING on the attempt this call holds. */
    method MarkAttemptExecuting(p: nat) returns (ok: bool)
      requires Valid() && p < |world.procs| && world.procs[p].pc.Holding?
      modifies this
      ensures Valid() && start == old(start) && history == old(history) + [MarkExecuting(p)]
      ensures Advanced(old(world), world, p, if ok then Running(old(world.procs[p].pc.a)) else Over(Threw(Other)))
    {
      var a := world.procs[p].pc.a;
      RunAppends(start, history, MarkExecuting(p));
      if a in world.store.attempts && world.store.attempts[a].status == Authorized {
        var row := world.store.attempts[a].(status := Executing);
        var store := world.store.(attempts := world.store.attempts[a := row]);
        world := Moved(world, p, Named(store, a, Running(a))).(store := store);
      } else {
        world := Moved(world, p, Over(Threw(Other)));
      }
      history := history + [MarkExecuting(p)];
      ok := world.procs[p].pc.Running?;
    }

    /** EXECUTING to UNKNOWN once the browser call is behind us, whatever it answered. */
    method MarkAttemptUnknown(p: nat) returns (ok: bool)
      requires Valid() && p < |world.procs| && world.procs[p].pc.Invoked?
      modifies this
      ensures Valid() && start == old(start) && history == old(history) + [MarkUnknown(p)]
      ensures Advanced(old(world), world, p, if ok then Recorded(old(world.procs[p].pc.a)) else Over(Threw(Other)))
      ensures ok ==> var a := old(world.procs[p].pc.a);
                     a in world.store.attempts && CheckpointOf(a, world.store.attempts[a]).Some?
                         && world.store.attempts[a].status == Unknown
    {
      var a := world.procs[p].pc.a;
      RunAppends(start, history, MarkUnknown(p));
      if a in world.store.attempts && world.store.attempts[a].status == Executing {
        var row := world.store.attempts[a].(status := Unknown);
        var store := world.store.(attempts := world.store.attempts[a := row]);
        world := Moved(world, p, Named(store, a, Recorded(a))).(store := store);
      } else {
        world := Moved(world, p, Over(Threw(Other)));
      }
      history := history + [MarkUnknown(p)];
      ok := world.procs[p].pc.Recorded?;
    }

    /**
      One recovery transaction over the rows its locking query returned.  It fails AUTHORIZED rows, marks
      EXECUTING rows UNKNOWN, touches nothing else and replays nothing; a single EXECUTING row without a complete
      checkpoint rolls the whole scan back.
    */
    method RecoverAbandoned(minimumAge: int, now: int, ghost locked: set<nat>, models: seq<nat>)
      returns (r: Result<RecoveryReport, RecoveryError>)
      requires Valid()
      requires minimumAge >= 0 ==> QueryResult(world.store, now - minimumAge, locked, models)
      modifies this
      ensures Valid() && start == old(start)
      ensures r.Ok? <==> minimumAge >= 0 && ScanCommits(old(world.store), Rows(models))
      ensures r.Refused? ==> world == old(world) && (r.error == NegativeMinimumAge <==> minimumAge < 0)
      ensures r.Ok? ==> history == old(history) + [Recover(Rows(models))]
      ensures r.Ok? ==> world.store == Recovered(old(world.store), Rows(models))
      ensures r.Ok? ==> Scanned(old(world.store), world.store, models, now - minimumAge)
      ensures r.Ok? ==> r.value.abandoned == AbandonedIn(old(world.store), models)
      ensures r.Ok? ==> r.value.ambiguous == AmbiguousIn(old(world.store), models)
    {
      hide Scanned, Recovered, QueryResult, AbandonedIn, AmbiguousIn, ScanCommits, Initial;
      if minimumAge < 0 {
        return Refused(NegativeMinimumAge);
      }
      QueryIsDistinct(world.store, now - minimumAge, locked, models);
      var ok, draft, ambiguous, abandoned := ScanRows(world.store, models);
      if !ok {
        return Refused(IncompleteCheckpoint);
      }
      ghost var scanned := Rows(models);
      RecoveredIsScanned(world.store, models, now - minimumAge, locked);
      RunAppends(start, history, Recover(scanned));
      AbandonedSet(world.store, models);
      world := world.(store := draft, abandoned := world.abandoned + set a | a in abandoned);
      history := history + [Recover(scanned)];
      return Ok(RecoveryReport(ambiguous, abandoned));
    }
  }

  /** The scan settles exactly the rows it locked, all of them old enough, by where they stood. */
  predicate Scanned(s: Store, s': Store, models: seq<nat>, threshold: int) {
    && s'.permits == s.permits && s'.attempts.Keys == s.attempts.Keys
    && (forall a :: a in s.attempts && a !in models ==> s'.attempts[a] == s.attempts[a])
    && (forall a :: a in models ==>
          && a in s.attempts && s.attempts[a].createdAt <= threshold
          && s'.attempts[a] == s.attempts[a].(status := s'.attempts[a].status)
          && (s'.attempts[a].status == if s.attempts[a].status.Authorized? then Failed else Unknown)
          && (s.attempts[a].status.Authorized? || s.attempts[a].status.Executing?))
  }

  lemma RecoveredIsScanned(s: Store, models: seq<nat>, threshold: int, locked: set<nat>)
    requires QueryResult(s, threshold, locked, models)
    ensures Scanned(s, Recovered(s, Rows(models)), models, threshold)
  {
  }

  /** What one more row adds to a scan. */
  lemma ScanOneMore(s: Store, models: seq<nat>, i: nat)
    requires i < |models| && forall a :: a in models ==> a in s.attempts
    requires models[i] !in models[..i] && ScanCommits(s, Rows(models[..i]))
    ensures models[i] in models && models[..i + 1][..i] == models[..i]
            && models[i] in Recovered(s, Rows(models[..i])).attempts
    ensures var row := s.attempts[models[i]]; var before := Recovered(s, Rows(models[..i]));
            && before.attempts[models[i]] == row
            && Recovered(s, Rows(models[..i + 1]))
                 == before.(attempts := before.attempts[models[i] := row.(status := RecoveredStatus(row.status))])
    ensures ScanCommits(s, Rows(models[..i + 1])) <==>
        (s.attempts[models[i]].status.Executing? ==> CheckpointOf(models[i], s.attempts[models[i]]).Some?)
    ensures ScanCommits(s, Rows(models)) ==> ScanCommits(s, Rows(models[..i + 1]))
  {
    assert forall a :: a in models[..i + 1] <==> a in models[..i] || a == models[i];
  }

  /** The body of the recovery transaction, on the rows it holds locked. */
  method ScanRows(s: Store, models: seq<nat>)
    returns (ok: bool, draft: Store, ambiguous: seq<Checkpoint>, abandoned: seq<nat>)
    requires forall i :: 0 <= i < |models| ==> models[i] in s.attempts && models[i] !in models[..i]
    requires forall a :: a in models ==> s.attempts[a].status.Authorized? || s.attempts[a].status.Executing?
    ensures ok <==> ScanCommits(s, Rows(models))
    ensures ok ==> draft == Recovered(s, Rows(models))
    ensures ok ==> abandoned == AbandonedIn(s, models) && ambiguous == AmbiguousIn(s, models)
  {
    ok, draft, ambiguous, abandoned := true, s, [], [];
    var i := 0;
    while i < |models|
      invariant 0 <= i <= |models|
      invariant ScanCommits(s, Rows(models[..i]))
      invariant draft == Recovered(s, Rows(models[..i]))
      invariant abandoned == AbandonedIn(s, models[..i])
      invariant ambiguous == AmbiguousIn(s, models[..i])
      invariant ok
    {
      var model := models[i];
      ScanOneMore(s, models, i);
      var row := draft.attempts[model];
      if row.status.Authorized? {
        draft := draft.(attempts := draft.attempts[model := row.(status := Failed)]);
        abandoned := abandoned + [model];
      } else {
        var settled := row.(status := Unknown);
        draft := draft.(attempts := draft.attempts[model := settled]);
        var checkpoint := CheckpointOf(model, settled);
        if checkpoint.None? {
          ok := false;
          return;
        }
        ambiguous := ambiguous + [checkpoint.value];
      }
      i := i + 1;
    }
    assert models[..i] == models;
  }

  lemma OthersLeaveAlone(w: World, step: Step, p: nat)
    requires p < |w.procs| && !OfProcess(step, p)
    ensures Next(w, step).procs[p] == w.procs[p] && w.invoked <= Next(w, step).invoked
    ensures NoCallBy(Next(w, step), p) <==> NoCallBy(w, p)
  {
    var w' := Next(w, step);
    assert forall i :: 0 <= i < |w.invoked| ==> w'.invoked[i] == w.invoked[i];
  }

  lemma QueryIsDistinct(s: Store, threshold: int, locked: set<nat>, models: seq<nat>)
    requires QueryResult(s, threshold, locked, models)
    ensures forall i :: 0 <= i < |models| ==> models[i] in s.attempts && models[i] !in models[..i]
    ensures forall a :: a in models ==> s.attempts[a].status.Authorized? || s.attempts[a].status.Executing?
  {
    forall i, j | 0 <= j < i < |models| ensures models[j] != models[i] {
      assert Before(s, models[j], models[i]);
    }
  }

  lemma {:induction false} AbandonedSet(s: Store, models: seq<nat>)
    requires forall a :: a in models ==> a in s.attempts
    ensures forall a :: a in AbandonedIn(s, models) <==> a in models && s.attempts[a].status.Authorized?
  {
    if models != [] {
      AbandonedSet(s, models[..|models| - 1]);
      assert forall a :: a in models <==> a in models[..|models| - 1] || a == models[|models| - 1];
    }
  }

  lemma FinishingKeepsTheName(w: World, p: nat, c: Checkpoint)
    requires p < |w.procs| && w.procs[p].pc.Recorded? && NamesCall(w, p, c)
    ensures NamesCall(Next(w, Finish(p)), p, c)
  {
  }

  /** How one call's outcome shows in the process table. */
  function EndingOf(outcome: ExecuteOutcome): Ending {
    match outcome
    case Returned(_) => Finished
    case Raised(r) => Threw(r)
  }

  /** An executor instance; `calls` are the processes of its own that reached the browser with an external write. */
  class Executor {
    const deployment: Deployment
    const resultProbeRef: string
    /** Whether the injected fault hook may raise the browser-runtime errors the loop retries. */
    const hookMayReopen: bool
    ghost var calls: seq<nat>

    ghost predicate Valid()
      reads this, deployment
    {
      && deployment.Valid()
      && (forall i :: 0 <= i < |calls| ==> calls[i] < |deployment.world.procs| && !NoCallBy(deployment.world, calls[i]))
      && (forall i, j :: 0 <= i < j < |calls| ==> calls[i] != calls[j])
    }

    constructor (deployment: Deployment, resultProbeRef: string, hookMayReopen: bool)
      requires deployment.Valid()
      ensures Valid() && calls == []
      ensures this.deployment == deployment && this.resultProbeRef == resultProbeRef
              && this.hookMayReopen == hookMayReopen
    {
      this.deployment := deployment;
      this.resultProbeRef := resultProbeRef;
      this.hookMayReopen := hookMayReopen;
      calls := [];
    }

    function RequestFor(command: Command): AttemptRequest {
      AttemptRequest(command.authorization.permitId, command.fingerprint, command.observationId,
                     command.authorization.idempotencyKey, command.authorization.effect, command.profile,
                     resultProbeRef)
    }

    /** The fault hook at one stage: it lets the call go on, or ends it with what it raised. */
    method Hook(p: nat) returns (raised: Option<Raise>)
      requires deployment.Valid() && p < |deployment.world.procs| && AtHook(deployment.world.procs[p].pc)
      modifies deployment
      ensures deployment.Valid()
      ensures raised.None? ==>
                deployment.world == old(deployment.world) && deployment.history == old(deployment.history)
      ensures raised.Some? ==> deployment.history == old(deployment.history) + [HookRaises(p, raised.value)]
      ensures raised.Some? ==> Advanced(old(deployment.world), deployment.world, p, Over(Threw(raised.value)))
      ensures raised.Some? && Retryable(raised.value) ==> hookMayReopen
    {
      raised := *;
      if raised.Some? && (hookMayReopen || !Retryable(raised.value)) {
        deployment.Do(HookRaises(p, raised.value));
      } else {
        raised := None;
      }
    }

    /**
      The checkpoint names the attempt process `p` called the browser for, with what its permit says of task and step,
      what the command says of everything else, and an open result.
    */
    ghost predicate Identifies(command: Command, p: nat, c: Checkpoint)
      reads this, deployment
    {
      && Invocation(p, c.attemptId) in deployment.world.invoked
      && c.permitId == command.authorization.permitId && c.permitId in deployment.world.store.permits
      && c.taskId == deployment.world.store.permits[c.permitId].taskId
      && c.stepId == deployment.world.store.permits[c.permitId].stepId
      && c.fingerprint == command.fingerprint == deployment.world.store.permits[c.permitId].fingerprint
      && c.observationHash == command.observationId == deployment.world.store.permits[c.permitId].observationHash
      && c.keyDigest == KeyDigest(command.authorization.idempotencyKey)
      && c.effect == command.authorization.effect && c.probeRef == resultProbeRef && c.attemptStatus == Unknown
    }

    /**
      One call.  Anything but an external write goes straight to the runtime.  An external write is a process
      of the protocol: it reaches the browser at most once, and when it returns, its checkpoint identifies that call.
      When it ends in an error the loop would retry, it has consumed nothing and has not reached the browser at all,
      unless the hook is one that may reopen calls; and without a probe reference it consumes nothing either.
    */
    method Execute(command: Command)
      returns (outcome: ExecuteOutcome, ghost p: nat, ghost browser: Option<ActionResult>)
      requires Valid()
      modifies this, deployment
      ensures Valid() && Extends(old(deployment.world), deployment.world)
      ensures !command.authorization.effect.ExternalWrite? ==>
          calls == old(calls) && deployment.world == old(deployment.world)
      ensures command.authorization.effect.ExternalWrite? ==>
                && old(|deployment.world.procs|) <= p < |deployment.world.procs|
                && deployment.world.procs[p] == Process(Over(EndingOf(outcome)), RequestFor(command))
                && calls == (if NoCallBy(deployment.world, p) then old(calls) else old(calls) + [p])
                && (outcome.Returned? ==>
                      && !NoCallBy(deployment.world, p)
                      && outcome.result.checkpoint.Some? && Identifies(command, p, outcome.result.checkpoint.value)
                      && outcome.result == ActionResult(browser.Some? && browser.value.completed, true,
                                                        "PENDING_RESULT_PROBE", outcome.result.checkpoint))
                && (outcome.Raised? && Retryable(outcome.error) && !hookMayReopen ==>
                      calls == old(calls) && deployment.world.store == old(deployment.world.store))
                && (resultProbeRef == "" ==>
                      outcome == Raised(Other) && deployment.world.store == old(deployment.world.store))
    {
      browser := None;
      if !command.authorization.effect.ExternalWrite? {
        outcome := *;
        p := 0;
        return;
      }
      var id := deployment.Open(RequestFor(command));
      p := id;
      outcome, browser := ExecuteExternal(id);
      if !NoCallBy(deployment.world, p) {
        calls := calls + [p];
      }
      forall i | 0 <= i < |old(calls)| ensures !NoCallBy(deployment.world, old(calls)[i]) {
        CallsSurvive(old(deployment.world), deployment.world, old(calls)[i]);
      }
    }

    /** The checks before anything is consumed: a probe reference, and the runtime's own preflight. */
    method Clear(p: nat) returns (raised: Option<Raise>)
      requires deployment.Valid() && p < |deployment.world.procs|
      requires deployment.world.procs[p].pc.Start? && deployment.world.procs[p].request.probeRef == resultProbeRef
      modifies deployment
      ensures deployment.Valid() && deployment.world.store == old(deployment.world.store)
      ensures Advanced(old(deployment.world), deployment.world, p,
                       if raised.Some? then Over(Threw(raised.value)) else Cleared)
      ensures resultProbeRef == "" ==> raised == Some(Other)
    {
      var preflight: Option<Raise> := *;
      deployment.Do(Preflight(p, preflight));
      return if resultProbeRef == "" then Some(Other) else preflight;
    }

    /** The durable path of an external write, up to its EXECUTING boundary. */
    method ExecuteExternal(p: nat) returns (outcome: ExecuteOutcome, ghost browser: Option<ActionResult>)
      requires deployment.Valid() && p < |deployment.world.procs|
      requires deployment.world.procs[p].pc.Start? && deployment.world.procs[p].request.probeRef == resultProbeRef
      requires NoCallBy(deployment.world, p)
      modifies deployment
      ensures deployment.Valid() && Extends(old(deployment.world), deployment.world)
      ensures p < |deployment.world.procs|
      ensures deployment.world.procs[p] == old(deployment.world.procs[p]).(pc := Over(EndingOf(outcome)))
      ensures outcome.Returned? ==>
                && !NoCallBy(deployment.world, p) && outcome.result.checkpoint.Some?
                && NamesCall(deployment.world, p, outcome.result.checkpoint.value)
                && outcome.result == ActionResult(browser.Some? && browser.value.completed, true,
                                                  "PENDING_RESULT_PROBE", outcome.result.checkpoint)
      ensures outcome.Raised? && Retryable(outcome.error) && !hookMayReopen ==>
                NoCallBy(deployment.world, p) && deployment.world.store == old(deployment.world.store)
      ensures resultProbeRef == "" ==>
                outcome == Raised(Other) && deployment.world.store == old(deployment.world.store)
    {
      hide NamesCall, Bound, Next;
      browser := None;
      var refused := Clear(p);
      if refused.Some? {
        return Raised(refused.value), browser;
      }
      deployment.Interfere(p);
      var now: int := *;
      var ok := deployment.AuthorizeAttempt(p, now);
      if !ok {
        return Raised(Other), browser;
      }
      var raised := Hook(p);
      if raised.Some? {
        return Raised(raised.value), browser;
      }
      deployment.Interfere(p);
      ok := deployment.MarkAttemptExecuting(p);
      if !ok {
        return Raised(Other), browser;
      }
      raised := Hook(p);
      if raised.Some? {
        return Raised(raised.value), browser;
      }
      deployment.Interfere(p);
      outcome, browser := CallBrowser(p);
    }

    /** From the durable EXECUTING boundary on: the one browser call and the record of its ambiguity. */
    method CallBrowser(p: nat) returns (outcome: ExecuteOutcome, ghost answer: Option<ActionResult>)
      requires deployment.Valid() && p < |deployment.world.procs| && deployment.world.procs[p].pc.Running?
      requires NoCallBy(deployment.world, p)
      modifies deployment
      ensures deployment.Valid() && Extends(old(deployment.world), deployment.world)
      ensures p < |deployment.world.procs| && !NoCallBy(deployment.world, p)
      ensures deployment.world.procs[p] == old(deployment.world.procs[p]).(pc := Over(EndingOf(outcome)))
      ensures outcome.Returned? ==>
                && outcome.result.checkpoint.Some?
                && NamesCall(deployment.world, p, outcome.result.checkpoint.value)
                && outcome.result == ActionResult(answer.Some? && answer.value.completed, true,
                                                  "PENDING_RESULT_PROBE", outcome.result.checkpoint)
      ensures outcome.Raised? && Retryable(outcome.error) ==> hookMayReopen
    {
      hide NamesCall;
      var browser: Option<ActionResult> := *;
      answer := browser;
      deployment.Do(InvokeBrowser(p, browser.Some?));
      assert deployment.world.invoked[|deployment.world.invoked| - 1].process == p;
      assert Extends(old(deployment.world), deployment.world) && !NoCallBy(deployment.world, p);
      deployment.Interfere(p);
      if browser.Some? {
        var raised := Hook(p);
        if raised.Some? {
          return Raised(raised.value), answer;
        }
      }
      outcome := RecordAmbiguity(p, browser.Some? && browser.value.completed);
    }

    /** The durable record that the call's result is open, whatever the browser answered. */
    method RecordAmbiguity(p: nat, completed: bool) returns (outcome: ExecuteOutcome)
      requires deployment.Valid() && p < |deployment.world.procs| && deployment.world.procs[p].pc.Invoked?
      requires !NoCallBy(deployment.world, p)
      modifies deployment
      ensures deployment.Valid() && Extends(old(deployment.world), deployment.world)
      ensures p < |deployment.world.procs| && !NoCallBy(deployment.world, p)
      ensures deployment.world.procs[p] == old(deployment.world.procs[p]).(pc := Over(EndingOf(outcome)))
      ensures outcome.Returned? ==>
                && outcome.result.checkpoint.Some?
                && NamesCall(deployment.world, p, outcome.result.checkpoint.value)
                && outcome.result == ActionResult(completed, true, "PENDING_RESULT_PROBE", outcome.result.checkpoint)
      ensures outcome.Raised? && Retryable(outcome.error) ==> hookMayReopen
    {
      hide NamesCall, Bound, ProcOk, AllBound, Inv;
      var a := deployment.world.procs[p].pc.a;
      var ok := deployment.MarkAttemptUnknown(p);
      if !ok {
        return Raised(Other);
      }
      var checkpoint := CheckpointOf(a, deployment.world.store.attempts[a]);
      deployment.RecordedIsNamed(p, checkpoint.value);
      var raised := Hook(p);
      if raised.Some? {
        return Raised(raised.value);
      }
      FinishingKeepsTheName(deployment.world, p, checkpoint.value);
      deployment.Do(Finish(p));
      return Returned(ActionResult(completed, true, "PENDING_RESULT_PROBE", checkpoint));
    }
  }

  /** The checkpoint names the call of process `p`, as its permit and its request describe it. */
  predicate NamesCall(w: World, p: nat, c: Checkpoint)
    requires p < |w.procs|
  {
    && Invocation(p, c.attemptId) in w.invoked && Bound(w, p, c.attemptId)
    && Names(c, w.store.attempts[c.attemptId])
  }
}
