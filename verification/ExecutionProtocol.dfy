/**
  Crash-safe execution of external writes as a protocol: any number of executor calls,
  each a process moving through its own transactions, interleaved with crashes, recovery
  scans and result probes.  A step that is not enabled leaves the world as it was, so a
  run is simply any sequence of steps.
*/
module ExecutionProtocol {
  import opened Outcomes
  import opened AttemptStore
  import opened LoopContracts

  datatype Ending = Finished | Threw(r: Raise)

  /** Where one executor call stands; each constructor is a point between two atomic steps. */
  datatype Pc =
    | Start
    | Cleared
    | Holding(a: nat)
    | Running(a: nat)
    | Invoked(a: nat, returned: bool)
    | Recorded(a: nat)
    | Over(ending: Ending)
    | Dead

  datatype Process = Process(pc: Pc, request: AttemptRequest)

  datatype Invocation = Invocation(process: nat, attempt: nat)

  /**
    `invoked`, `abandoned` and `resolved` are history: browser calls made, attempts failed by recovery, attempts settled
    by a probe.
  */
  datatype World = World(store: Store, procs: seq<Process>, invoked: seq<Invocation>, abandoned: set<nat>,
                         resolved: set<nat>)

  datatype Step =
    | Spawn(request: AttemptRequest)
    | Preflight(p: nat, raised: Option<Raise>)
    | Authorize(p: nat, id: nat, now: int)
    | HookRaises(p: nat, r: Raise)
    | MarkExecuting(p: nat)
    | InvokeBrowser(p: nat, returned: bool)
    | MarkUnknown(p: nat)
    | Finish(p: nat)
    | Crash(p: nat)
    | Recover(models: set<nat>)
    | Resolve(a: nat, confirmed: bool)

  predicate AtHook(pc: Pc) {
    pc.Holding? || pc.Running? || (pc.Invoked? && pc.returned) || pc.Recorded?
  }

  function Moved(w: World, p: nat, pc: Pc): World
    requires p < |w.procs|
  {
    w.(procs := w.procs[p := w.procs[p].(pc := pc)])
  }

  /** After a committed transaction the executor names the checkpoint, which raises on an incomplete row. */
  function Named(s: Store, a: nat, pc: Pc): Pc {
    if a in s.attempts && CheckpointOf(a, s.attempts[a]).Some? then pc else Over(Threw(Other))
  }

  function Commit(w: World, p: nat, result: Result<Store, AttemptError>, a: nat, pc: Pc): World
    requires p < |w.procs|
  {
    match result
    case Ok(s) => Moved(w, p, Named(s, a, pc)).(store := s)
    case Refused(_) => Moved(w, p, Over(Threw(Other)))
  }

  function Next(w: World, step: Step): World {
    match step
    case Spawn(request) => w.(procs := w.procs + [Process(Start, request)])
    case Recover(models) =>
      if ScanCommits(w.store, models)
      then w.(store := Recovered(w.store, models),
              abandoned := w.abandoned + set a | a in models && a in w.store.attempts
                  && w.store.attempts[a].status.Authorized?)
      else w
    case Resolve(a, confirmed) =>
      (match TransitionTx(w.store, a, Unknown, if confirmed then Confirmed else Failed)
       case Ok(s) => w.(store := s, resolved := w.resolved + {a})
       case Refused(_) => w)
    case _ => if step.p < |w.procs| then ProcessNext(w, step) else w
  }

  function ProcessNext(w: World, step: Step): World
    requires !step.Spawn? && !step.Recover? && !step.Resolve?
    requires step.p < |w.procs|
  {
    var proc := w.procs[step.p];
    match (step, proc.pc)
    case (Preflight(p, raised), Start) =>
      if proc.request.probeRef == "" then Moved(w, p, Over(Threw(Other)))
      else if raised.Some? then Moved(w, p, Over(Threw(raised.value)))
      else Moved(w, p, Cleared)
    case (Authorize(p, id, now), Cleared) => Commit(w, p, AuthorizeTx(w.store, proc.request, id, now), id, Holding(id))
    case (MarkExecuting(p), Holding(a)) => Commit(w, p, TransitionTx(w.store, a, Authorized, Executing), a, Running(a))
    case (InvokeBrowser(p, returned), Running(a)) =>
      Moved(w, p, Pc.Invoked(a, returned)).(invoked := w.invoked + [Invocation(p, a)])
    case (MarkUnknown(p), Invoked(a, _)) => Commit(w, p, TransitionTx(w.store, a, Executing, Unknown), a, Recorded(a))
    case (Finish(p), Recorded(_)) => Moved(w, p, Over(Finished))
    case (HookRaises(p, r), pc) => if AtHook(pc) then Moved(w, p, Over(Threw(r))) else w
    case (Crash(p), pc) => if pc.Over? then w else Moved(w, p, Dead)
    case _ => w
  }

  function RunSteps(w: World, steps: seq<Step>): World {
    if steps == [] then w else Next(RunSteps(w, steps[..|steps| - 1]), steps[|steps| - 1])
  }

  lemma RunAppends(w: World, steps: seq<Step>, step: Step)
    ensures RunSteps(w, steps + [step]) == Next(RunSteps(w, steps), step)
  {
    assert (steps + [step])[..|steps|] == steps;
  }

  ghost predicate Initial(w: World) {
    Constrained(w.store) && w.procs == [] && w.invoked == [] && w.abandoned == {} && w.resolved == {}
  }

  // ----- The invariant -------------------------------------------------------

  /** No browser call was ever made for attempt `a`. */
  predicate NeverInvoked(w: World, a: nat) {
    forall i :: 0 <= i < |w.invoked| ==> w.invoked[i].attempt != a
  }

  /** Process `p` has made no browser call. */
  predicate NoCallBy(w: World, p: nat) {
    forall i :: 0 <= i < |w.invoked| ==> w.invoked[i].process != p
  }

  /** EXECUTING or UNKNOWN, until a business probe settles it. */
  predicate Durable(w: World, a: nat)
    requires a in w.store.attempts
  {
    var status := w.store.attempts[a].status;
    if a in w.resolved then status.Confirmed? || status.Failed? else status.Executing? || status.Unknown?
  }

  predicate Keyed(row: Attempt) {
    row.permitId.Some? && row.idempotencyKey.Some?
  }

  function Holds(pc: Pc): Option<nat> {
    match pc
    case Holding(a) => Some(a)
    case Running(a) => Some(a)
    case Invoked(a, _) => Some(a)
    case Recorded(a) => Some(a)
    case _ => None
  }

  /** What a process may rely on at each point of its call. */
  predicate ProcOk(w: World, p: nat)
    requires p < |w.procs|
  {
    match w.procs[p].pc
    case Start => NoCallBy(w, p)
    case Cleared => NoCallBy(w, p)
    case Holding(a) => a in w.store.attempts && Keyed(w.store.attempts[a]) && NeverInvoked(w, a) && NoCallBy(w, p)
    case Running(a) =>
      a in w.store.attempts && Keyed(w.store.attempts[a]) && NeverInvoked(w, a) && NoCallBy(w, p) && a !in w.abandoned
          && Durable(w, a)
    case Invoked(a, _) => a in w.store.attempts && Invocation(p, a) in w.invoked
    case Recorded(a) => a in w.store.attempts && Invocation(p, a) in w.invoked
    case _ => true
  }

  /** A browser call is durably visible, and is on an attempt recovery has not abandoned. */
  predicate CallOk(w: World, c: Invocation) {
    && c.process < |w.procs|
    && c.attempt in w.store.attempts
    && Keyed(w.store.attempts[c.attempt])
    && c.attempt !in w.abandoned
    && Durable(w, c.attempt)
  }

  /** An attempt is in the hands of at most one process. */
  ghost predicate HoldersDistinct(w: World) {
    forall p, q :: 0 <= p < |w.procs| && 0 <= q < |w.procs| && p != q && Holds(w.procs[p].pc).Some?
      ==> Holds(w.procs[p].pc) != Holds(w.procs[q].pc)
  }

  /** One browser call per attempt and per process. */
  ghost predicate CallsDistinct(w: World) {
    forall i, j :: 0 <= i < j < |w.invoked| ==>
      w.invoked[i].attempt != w.invoked[j].attempt && w.invoked[i].process != w.invoked[j].process
  }

  ghost predicate Inv(w: World) {
    && Constrained(w.store)
    && (forall p :: 0 <= p < |w.procs| ==> ProcOk(w, p))
    && HoldersDistinct(w)
    && (forall c :: c in w.invoked ==> CallOk(w, c))
    && CallsDistinct(w)
    && (forall a :: a in w.abandoned ==> a in w.store.attempts && w.store.attempts[a].status.Failed?)
    && (forall a :: a in w.resolved ==>
          a in w.store.attempts && (w.store.attempts[a].status.Confirmed? || w.store.attempts[a].status.Failed?))
  }

  /** A process may move to any point it satisfies, taking no attempt another one holds. */
  lemma MoveKeepsInv(w: World, p: nat, pc: Pc)
    requires Inv(w) && p < |w.procs|
    requires ProcOk(Moved(w, p, pc), p)
    requires Holds(pc).Some? ==> forall q :: 0 <= q < |w.procs| && q != p ==> Holds(w.procs[q].pc) != Holds(pc)
    ensures Inv(Moved(w, p, pc))
  {
    var w' := Moved(w, p, pc);
    forall q | 0 <= q < |w'.procs| ensures ProcOk(w', q) { assert ProcOk(w, q); }
    forall c | c in w'.invoked ensures CallOk(w', c) { assert CallOk(w, c); }
  }

  lemma SpawnKeepsInv(w: World, request: AttemptRequest)
    requires Inv(w)
    ensures Inv(Next(w, Spawn(request)))
  {
    var w' := Next(w, Spawn(request));
    forall i | 0 <= i < |w.invoked| ensures w.invoked[i].process < |w.procs| { assert CallOk(w, w.invoked[i]); }
    forall c | c in w'.invoked ensures CallOk(w', c) { assert CallOk(w, c); }
    forall q | 0 <= q < |w'.procs| ensures ProcOk(w', q) { if q < |w.procs| { assert ProcOk(w, q); } }
  }

  lemma RecoverKeepsInv(w: World, models: set<nat>)
    requires Inv(w)
    ensures Inv(Next(w, Recover(models)))
  {
    hide ProcOk, CallOk;
    RecoverKeepsProcs(w, models);
    RecoverKeepsCalls(w, models);
  }

  lemma RecoverKeepsProcs(w: World, models: set<nat>)
    requires Inv(w)
    ensures var w' := Next(w, Recover(models)); forall p :: 0 <= p < |w'.procs| ==> ProcOk(w', p)
  {
    hide CallOk;
    var w' := Next(w, Recover(models));
    forall p | 0 <= p < |w'.procs| ensures ProcOk(w', p) { assert ProcOk(w, p); }
  }

  lemma RecoverKeepsCalls(w: World, models: set<nat>)
    requires Inv(w)
    ensures var w' := Next(w, Recover(models)); forall c :: c in w'.invoked ==> CallOk(w', c)
  {
    hide ProcOk;
    var w' := Next(w, Recover(models));
    forall c | c in w'.invoked ensures CallOk(w', c) { assert CallOk(w, c); }
  }

  lemma ResolveKeepsInv(w: World, a: nat, confirmed: bool)
    requires Inv(w)
    ensures Inv(Next(w, Resolve(a, confirmed)))
  {
    var w' := Next(w, Resolve(a, confirmed));
    forall p | 0 <= p < |w'.procs| ensures ProcOk(w', p) { assert ProcOk(w, p); }
    forall c | c in w'.invoked ensures CallOk(w', c) { assert CallOk(w, c); }
  }

  lemma AuthorizedStoreKeepsInv(w: World, r: AttemptRequest, id: nat, now: int)
    requires Inv(w) && AuthorizeTx(w.store, r, id, now).Ok?
    ensures Inv(w.(store := AuthorizeTx(w.store, r, id, now).value))
  {
    var w' := w.(store := AuthorizeTx(w.store, r, id, now).value);
    AuthorizeKeepsConstraints(w.store, r, id, now);
    forall p | 0 <= p < |w'.procs| ensures ProcOk(w', p) { assert ProcOk(w, p); }
    forall c | c in w'.invoked ensures CallOk(w', c) { assert CallOk(w, c); }
  }

  lemma AuthorizeKeepsInv(w: World, p: nat, id: nat, now: int)
    requires Inv(w) && p < |w.procs| && w.procs[p].pc.Cleared?
    ensures Inv(Next(w, Authorize(p, id, now)))
  {
    var tx := AuthorizeTx(w.store, w.procs[p].request, id, now);
    assert ProcOk(w, p);
    if tx.Ok? {
      AuthorizedStoreKeepsInv(w, w.procs[p].request, id, now);
      var w1 := w.(store := tx.value);
      forall q | 0 <= q < |w.procs| ensures Holds(w.procs[q].pc) != Some(id) { assert ProcOk(w, q); }
      forall c | c in w.invoked ensures c.attempt != id { assert CallOk(w, c); }
      MoveKeepsInv(w1, p, Named(tx.value, id, Holding(id)));
    } else {
      MoveKeepsInv(w, p, Over(Threw(Other)));
    }
  }

  /** The two compare-and-sets a process makes on the attempt it holds. */
  lemma TransitionKeepsInv(w: World, a: nat, from: AttemptStatus, to: AttemptStatus)
    requires Inv(w) && TransitionTx(w.store, a, from, to).Ok?
    requires (from.Authorized? && to.Executing?) || (from.Executing? && to.Unknown?)
    ensures Inv(w.(store := TransitionTx(w.store, a, from, to).value))
    ensures a !in w.abandoned && a !in w.resolved
  {
    var w' := w.(store := TransitionTx(w.store, a, from, to).value);
    forall p | 0 <= p < |w'.procs| ensures ProcOk(w', p) { assert ProcOk(w, p); }
    forall c | c in w'.invoked ensures CallOk(w', c) { assert CallOk(w, c); }
  }

  lemma MarkExecutingKeepsInv(w: World, p: nat)
    requires Inv(w) && p < |w.procs| && w.procs[p].pc.Holding?
    ensures Inv(Next(w, MarkExecuting(p)))
  {
    var a := w.procs[p].pc.a;
    var tx := TransitionTx(w.store, a, Authorized, Executing);
    assert ProcOk(w, p);
    if tx.Ok? {
      TransitionKeepsInv(w, a, Authorized, Executing);
      MoveKeepsInv(w.(store := tx.value), p, Named(tx.value, a, Running(a)));
    } else {
      MoveKeepsInv(w, p, Over(Threw(Other)));
    }
  }

  lemma MarkUnknownKeepsInv(w: World, p: nat)
    requires Inv(w) && p < |w.procs| && w.procs[p].pc.Invoked?
    ensures Inv(Next(w, MarkUnknown(p)))
  {
    var a := w.procs[p].pc.a;
    var tx := TransitionTx(w.store, a, Executing, Unknown);
    assert ProcOk(w, p);
    if tx.Ok? {
      TransitionKeepsInv(w, a, Executing, Unknown);
      MoveKeepsInv(w.(store := tx.value), p, Named(tx.value, a, Recorded(a)));
    } else {
      MoveKeepsInv(w, p, Over(Threw(Other)));
    }
  }

  lemma InvokeKeepsInv(w: World, p: nat, returned: bool)
    requires Inv(w) && p < |w.procs| && w.procs[p].pc.Running?
    ensures Inv(Next(w, InvokeBrowser(p, returned)))
  {
    var a := w.procs[p].pc.a;
    assert ProcOk(w, p);
    var w' := Next(w, InvokeBrowser(p, returned));
    assert w'.invoked == w.invoked + [Invocation(p, a)];
    forall c | c in w'.invoked ensures CallOk(w', c) { if c in w.invoked { assert CallOk(w, c); } }
    forall q | 0 <= q < |w'.procs| ensures ProcOk(w', q) {
      assert ProcOk(w, q);
      assert q != p ==> Holds(w.procs[q].pc) != Some(a);
    }
  }

  /** Every other step of a process only ends it, or lets it past preflight. */
  lemma LeaveKeepsInv(w: World, step: Step)
    requires Inv(w) && (step.Preflight? || step.HookRaises? || step.Finish? || step.Crash?) && step.p < |w.procs|
    ensures Inv(Next(w, step))
  {
    assert ProcOk(w, step.p);
    var w' := Next(w, step);
    if w' != w { MoveKeepsInv(w, step.p, w'.procs[step.p].pc); }
  }

  lemma NextKeepsInv(w: World, step: Step)
    requires Inv(w)
    ensures Inv(Next(w, step))
  {
    match step
    case Spawn(request) => SpawnKeepsInv(w, request);
    case Recover(models) => RecoverKeepsInv(w, models);
    case Resolve(a, confirmed) => ResolveKeepsInv(w, a, confirmed);
    case Authorize(p, id, now) => if p < |w.procs| && w.procs[p].pc.Cleared? { AuthorizeKeepsInv(w, p, id, now); }
    case MarkExecuting(p) => if p < |w.procs| && w.procs[p].pc.Holding? { MarkExecutingKeepsInv(w, p); }
    case InvokeBrowser(p, returned) => if p < |w.procs| && w.procs[p].pc.Running? { InvokeKeepsInv(w, p, returned); }
    case MarkUnknown(p) => if p < |w.procs| && w.procs[p].pc.Invoked? { MarkUnknownKeepsInv(w, p); }
    case _ => if step.p < |w.procs| { LeaveKeepsInv(w, step); }
  }

  lemma {:induction false} RunKeepsInv(w: World, steps: seq<Step>)
    requires Inv(w)
    ensures Inv(RunSteps(w, steps))
  {
    if steps != [] {
      RunKeepsInv(w, steps[..|steps| - 1]);
      NextKeepsInv(RunSteps(w, steps[..|steps| - 1]), steps[|steps| - 1]);
    }
  }

  // ----- Over whole runs -----------------------------------------------------

  /** The permit an attempt was authorized under. */
  ghost function PermitOf(w: World, a: nat): Option<string> {
    if a in w.store.attempts then w.store.attempts[a].permitId else None
  }

  /**
    However calls, crashes, recovery scans and probes interleave, no permit and no (task, idempotency key) reaches the
    browser twice.
  */
  lemma AtMostOneCallPerPermit(w0: World, steps: seq<Step>, i: nat, j: nat)
    requires Initial(w0)
    requires i < |RunSteps(w0, steps).invoked| && j < |RunSteps(w0, steps).invoked| && i != j
    ensures
      var w := RunSteps(w0, steps);
      var a, b := w.invoked[i].attempt, w.invoked[j].attempt;
      && PermitOf(w, a).Some? && PermitOf(w, a) != PermitOf(w, b)
      && a in w.store.attempts && b in w.store.attempts
      && !(w.store.attempts[a].taskId == w.store.attempts[b].taskId
           && w.store.attempts[a].idempotencyKey == w.store.attempts[b].idempotencyKey)
  {
    RunKeepsInv(w0, steps);
    var w := RunSteps(w0, steps);
    assert CallOk(w, w.invoked[i]) && CallOk(w, w.invoked[j]);
  }

  /** A browser call is on the durable record, EXECUTING or UNKNOWN, for as long as no probe has settled its attempt. */
  lemma CallsStayOnRecord(w0: World, steps: seq<Step>, c: Invocation)
    requires Initial(w0) && c in RunSteps(w0, steps).invoked
    ensures
      var w := RunSteps(w0, steps);
      && c.attempt in w.store.attempts
      && var status := w.store.attempts[c.attempt].status;
      && (c.attempt !in w.resolved ==> status.Executing? || status.Unknown?)
      && (c.attempt in w.resolved ==> status.Confirmed? || status.Failed?)
  {
    RunKeepsInv(w0, steps);
    assert CallOk(RunSteps(w0, steps), c);
  }

  lemma HistoryGrows(w: World, step: Step)
    ensures w.abandoned <= Next(w, step).abandoned && w.resolved <= Next(w, step).resolved
    ensures w.invoked <= Next(w, step).invoked
    ensures |w.procs| <= |Next(w, step).procs|
  {
  }

  lemma {:induction false} HistoryGrowsOverRuns(w: World, steps: seq<Step>)
    ensures w.abandoned <= RunSteps(w, steps).abandoned
  {
    if steps != [] {
      HistoryGrowsOverRuns(w, steps[..|steps| - 1]);
      HistoryGrows(RunSteps(w, steps[..|steps| - 1]), steps[|steps| - 1]);
    }
  }

  /** What recovery failed was never handed to the browser, and stays FAILED and uncalled in every continuation. */
  lemma AbandonedIsNeverInvoked(w0: World, steps: seq<Step>, more: seq<Step>, a: nat)
    requires Initial(w0) && a in RunSteps(w0, steps).abandoned
    ensures
      var w := RunSteps(RunSteps(w0, steps), more);
      NeverInvoked(w, a) && a in w.store.attempts && w.store.attempts[a].status.Failed?
  {
    RunKeepsInv(w0, steps);
    RunKeepsInv(RunSteps(w0, steps), more);
    HistoryGrowsOverRuns(RunSteps(w0, steps), more);
    var w := RunSteps(RunSteps(w0, steps), more);
    forall i | 0 <= i < |w.invoked| ensures w.invoked[i].attempt != a { assert CallOk(w, w.invoked[i]); }
  }

  // ----- When the loop may try again after a browser call --------------------

  /** The call ended in an error the loop answers with another try, although its browser call was made. */
  predicate RetriesAfterCall(w: World, p: nat) {
    && p < |w.procs| && w.procs[p].pc.Over? && w.procs[p].pc.ending.Threw? && Retryable(w.procs[p].pc.ending.r)
    && !NoCallBy(w, p)
  }

  /** The fault hook raises a browser-runtime error at one of the two points behind the browser call. */
  predicate HookReopens(w: World, step: Step, p: nat) {
    && step.HookRaises? && step.p == p && Retryable(step.r)
    && p < |w.procs| && ((w.procs[p].pc.Invoked? && w.procs[p].pc.returned) || w.procs[p].pc.Recorded?)
  }

  lemma OneStepRetriesAfterCall(w: World, step: Step, p: nat)
    requires Inv(w)
    ensures RetriesAfterCall(Next(w, step), p) <==> RetriesAfterCall(w, p) || HookReopens(w, step, p)
  {
    if p < |w.procs| { assert ProcOk(w, p); }
    if step.InvokeBrowser? {
      if step.p < |w.procs| && w.procs[step.p].pc.Running? { CallAppends(w, step.p, step.returned, p); }
    } else {
      assert Next(w, step).invoked == w.invoked;
      if p >= |w.procs| { NoCallByNewcomer(w, p); }
    }
  }

  lemma CallAppends(w: World, p: nat, returned: bool, q: nat)
    requires Inv(w) && p < |w.procs| && w.procs[p].pc.Running?
    ensures RetriesAfterCall(Next(w, InvokeBrowser(p, returned)), q) <==> RetriesAfterCall(w, q)
  {
    var w' := Next(w, InvokeBrowser(p, returned));
    if q != p && q < |w.procs| {
      assert forall i :: 0 <= i < |w.invoked| ==> w'.invoked[i] == w.invoked[i];
      assert NoCallBy(w', q) <==> NoCallBy(w, q);
    }
  }

  lemma NoCallByNewcomer(w: World, p: nat)
    requires Inv(w) && p >= |w.procs|
    ensures NoCallBy(w, p)
  {
    forall i | 0 <= i < |w.invoked| ensures w.invoked[i].process != p { assert CallOk(w, w.invoked[i]); }
  }

  predicate ReopenedAt(w0: World, steps: seq<Step>, p: nat, k: nat)
    requires k < |steps|
  {
    HookReopens(RunSteps(w0, steps[..k]), steps[k], p)
  }

  lemma ReopenedInFront(w0: World, steps: seq<Step>, p: nat, k: nat)
    requires k < |steps| - 1
    ensures ReopenedAt(w0, steps[..|steps| - 1], p, k) <==> ReopenedAt(w0, steps, p, k)
  {
    assert steps[..|steps| - 1][..k] == steps[..k];
  }

  /**
    Over every run: a call the loop will try again after it reached the browser is exactly one whose
    fault hook raised a browser-runtime error behind the browser call.  Without such a hook it never happens.
  */
  lemma {:induction false} OnlyAHookReopensACall(w0: World, steps: seq<Step>, p: nat)
    requires Initial(w0)
    ensures RetriesAfterCall(RunSteps(w0, steps), p) <==> exists k :: 0 <= k < |steps| && ReopenedAt(w0, steps, p, k)
  {
    if steps != [] {
      var n := |steps| - 1;
      var front := steps[..n];
      OnlyAHookReopensACall(w0, front, p);
      RunKeepsInv(w0, front);
      OneStepRetriesAfterCall(RunSteps(w0, front), steps[n], p);
      assert ReopenedAt(w0, steps, p, n) <==> HookReopens(RunSteps(w0, front), steps[n], p);
      forall k | 0 <= k < n ensures ReopenedAt(w0, front, p, k) <==> ReopenedAt(w0, steps, p, k) {
        ReopenedInFront(w0, steps, p, k);
      }
    }
  }
}
