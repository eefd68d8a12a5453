/** Under which authority browser calls are made: what every call's permit was, and what its attempt says. */
module ExecutionAuthority {
  import opened Outcomes
  import opened AttemptStore
  import opened LoopContracts
  import opened ExecutionProtocol

  /** The attempt says what its permit and the request it was made for say. */
  predicate Says(row: Attempt, permit: Permit, r: AttemptRequest) {
    && row.taskId == permit.taskId && row.stepId == permit.stepId && row.permitId == Some(r.permitId)
    && row.fingerprint == permit.fingerprint && row.observationHash == permit.observationHash
    && row.idempotencyKey == Some(r.idempotencyKey) && row.keyDigest == Some(KeyDigest(r.idempotencyKey))
    && row.effect == Some(r.effect) && row.probeRef == Some(r.probeRef)
  }

  /** The permit is for this action on this observation, with this effect and profile and without further evidence. */
  predicate Permits(permit: Permit, r: AttemptRequest) {
    && permit.fingerprint == r.fingerprint && permit.observationHash == r.observationHash
    && permit.context == Some(PermitContext(r.effect, r.profile, false)) && !r.profile.mechanism.CuaCoordinate?
    && r.idempotencyKey != ""
  }

  /** Attempt `a` was made for process `p`, under the permit it asked for, in time. */
  predicate Bound(w: World, p: nat, a: nat)
    requires p < |w.procs|
  {
    && var r := w.procs[p].request;
       && a in w.store.attempts && r.permitId in w.store.permits
       && w.store.permits[r.permitId].status.Consumed? && Permits(w.store.permits[r.permitId], r)
       && Says(w.store.attempts[a], w.store.permits[r.permitId], r)
       && w.store.attempts[a].createdAt <= w.store.permits[r.permitId].expiresAt
  }

  ghost predicate AllBound(w: World) {
    && (forall p, a {:trigger Bound(w, p, a)} :: 0 <= p < |w.procs| && Holds(w.procs[p].pc) == Some(a) ==>
          Bound(w, p, a))
    && (forall c :: c in w.invoked ==> c.process < |w.procs| && Bound(w, c.process, c.attempt))
  }

  /** Nothing but the status of rows changes, and consumed permits stay consumed. */
  ghost predicate OnlyStatuses(s: Store, s': Store) {
    && (forall a :: a in s.attempts ==> a in s'.attempts && s'.attempts[a].(status := Authorized)
                                                              == s.attempts[a].(status := Authorized))
    && (forall id :: id in s.permits ==> id in s'.permits && s'.permits[id].(status := Issued)
                                                               == s.permits[id].(status := Issued))
    && (forall id :: id in s.permits && s.permits[id].status.Consumed? ==> s'.permits[id].status.Consumed?)
  }

  lemma StatusesKeepBound(w: World, w': World, p: nat, a: nat)
    requires p < |w.procs| <= |w'.procs| && w'.procs[p].request == w.procs[p].request
    requires OnlyStatuses(w.store, w'.store) && Bound(w, p, a)
    ensures Bound(w', p, a)
  {
    var id := w.procs[p].request.permitId;
    var permit, permit' := w.store.permits[id], w'.store.permits[id];
    assert permit'.(status := Issued) == permit.(status := Issued);
    assert permit' == permit'.(status := Issued).(status := permit'.status);
    assert permit == permit.(status := Issued).(status := permit.status);
    var row, row' := w.store.attempts[a], w'.store.attempts[a];
    assert row'.(status := Authorized) == row.(status := Authorized);
    assert row' == row'.(status := Authorized).(status := row'.status);
    assert row == row.(status := Authorized).(status := row.status);
  }

  lemma AuthorizingChangesOnlyStatuses(s: Store, r: AttemptRequest, id: nat, now: int)
    ensures AuthorizeTx(s, r, id, now).Ok? ==> OnlyStatuses(s, AuthorizeTx(s, r, id, now).value)
  {
  }

  lemma TransitionsChangeOnlyStatuses(s: Store, a: nat, from: AttemptStatus, to: AttemptStatus)
    ensures TransitionTx(s, a, from, to).Ok? ==> OnlyStatuses(s, TransitionTx(s, a, from, to).value)
  {
  }

  lemma RecoveryChangesOnlyStatuses(s: Store, models: set<nat>)
    ensures OnlyStatuses(s, Recovered(s, models))
  {
  }

  lemma NothingChanges(s: Store)
    ensures OnlyStatuses(s, s)
  {
  }

  lemma StepsChangeOnlyStatuses(w: World, step: Step)
    ensures OnlyStatuses(w.store, Next(w, step).store)
    ensures |w.procs| <= |Next(w, step).procs|
    ensures forall p :: 0 <= p < |w.procs| ==> Next(w, step).procs[p].request == w.procs[p].request
  {
    hide AuthorizeTx, TransitionTx, Recovered, ScanCommits, OnlyStatuses;
    NothingChanges(w.store);
    match step
    case Recover(models) => RecoveryChangesOnlyStatuses(w.store, models);
    case Resolve(a, confirmed) =>
      TransitionsChangeOnlyStatuses(w.store, a, Unknown, if confirmed then Confirmed else Failed);
    case Authorize(p, id, now) =>
      if p < |w.procs| {
        AuthorizingChangesOnlyStatuses(w.store, w.procs[p].request, id, now);
      }
    case MarkExecuting(p) =>
      if p < |w.procs| && w.procs[p].pc.Holding? {
        TransitionsChangeOnlyStatuses(w.store, w.procs[p].pc.a, Authorized, Executing);
      }
    case MarkUnknown(p) =>
      if p < |w.procs| && w.procs[p].pc.Invoked? {
        TransitionsChangeOnlyStatuses(w.store, w.procs[p].pc.a, Executing, Unknown);
      }
    case _ =>
  }

  /** A process comes to hold an attempt by having it authorized, and to have called by having held it. */
  lemma NewlyHeld(w: World, step: Step, p: nat, a: nat)
    requires p < |Next(w, step).procs| && Holds(Next(w, step).procs[p].pc) == Some(a)
    ensures p < |w.procs|
    ensures Holds(w.procs[p].pc) == Some(a)
            || (step.Authorize? && step.p == p && step.id == a && w.procs[p].pc.Cleared?
                && AuthorizeTx(w.store, w.procs[p].request, a, step.now).Ok?
                && Next(w, step).store == AuthorizeTx(w.store, w.procs[p].request, a, step.now).value)
  {
  }

  lemma NewlyCalled(w: World, step: Step, c: Invocation)
    requires c in Next(w, step).invoked && c !in w.invoked
    ensures c.process < |w.procs| && Holds(w.procs[c.process].pc) == Some(c.attempt)
    ensures Holds(Next(w, step).procs[c.process].pc) == Some(c.attempt)
  {
  }

  lemma AuthorizedIsBound(w: World, p: nat, a: nat, now: int)
    requires p < |w.procs| && AuthorizeTx(w.store, w.procs[p].request, a, now).Ok?
    requires Next(w, Authorize(p, a, now)).store == AuthorizeTx(w.store, w.procs[p].request, a, now).value
    ensures Bound(Next(w, Authorize(p, a, now)), p, a)
  {
    var w' := Next(w, Authorize(p, a, now));
    assert w'.procs[p].request == w.procs[p].request;
    assert w'.store.attempts[a] == NewAttempt(w.store.permits[w.procs[p].request.permitId], w.procs[p].request, now);
  }

  lemma NextKeepsBound(w: World, step: Step)
    requires AllBound(w)
    ensures AllBound(Next(w, step))
  {
    hide Next, Bound, OnlyStatuses, AuthorizeTx;
    var w' := Next(w, step);
    StepsChangeOnlyStatuses(w, step);
    forall p, a | 0 <= p < |w'.procs| && Holds(w'.procs[p].pc) == Some(a) ensures Bound(w', p, a) {
      NewlyHeld(w, step, p, a);
      if Holds(w.procs[p].pc) == Some(a) {
        assert Bound(w, p, a);
        StatusesKeepBound(w, w', p, a);
      } else {
        AuthorizedIsBound(w, p, a, step.now);
      }
    }
    forall c | c in w'.invoked ensures c.process < |w'.procs| && Bound(w', c.process, c.attempt) {
      if c !in w.invoked {
        NewlyCalled(w, step, c);
        assert Bound(w, c.process, c.attempt);
      }
      StatusesKeepBound(w, w', c.process, c.attempt);
    }
  }

  lemma {:induction false} RunKeepsBound(w0: World, steps: seq<Step>)
    requires Initial(w0)
    ensures AllBound(RunSteps(w0, steps))
  {
    if steps != [] {
      RunKeepsBound(w0, steps[..|steps| - 1]);
      NextKeepsBound(RunSteps(w0, steps[..|steps| - 1]), steps[|steps| - 1]);
    }
  }

  // ----- When the authority was given ----------------------------------------

  /**
    Step `k` authorized attempt `a` for process `p`: its permit was issued and not expired, and no other attempt of the
    permit's task had the same idempotency key.
  */
  predicate GrantedAt(w0: World, steps: seq<Step>, k: nat, p: nat, a: nat)
    requires k < |steps|
  {
    && steps[k].Authorize? && steps[k].p == p && steps[k].id == a
    && var w := RunSteps(w0, steps[..k]);
       && p < |w.procs|
       && var r := w.procs[p].request;
          && r.permitId in w.store.permits && w.store.permits[r.permitId].status.Issued?
          && Permits(w.store.permits[r.permitId], r) && steps[k].now <= w.store.permits[r.permitId].expiresAt
          && a !in w.store.attempts
          && forall b :: b in w.store.attempts && w.store.attempts[b].taskId == w.store.permits[r.permitId].taskId ==>
               w.store.attempts[b].idempotencyKey != Some(r.idempotencyKey)
  }

  /** Some step did, and the attempt remembers when. */
  predicate Granted(w0: World, steps: seq<Step>, p: nat, a: nat) {
    exists k :: 0 <= k < |steps| && GrantedAt(w0, steps, k, p, a)
                && a in RunSteps(w0, steps).store.attempts
                && RunSteps(w0, steps).store.attempts[a].createdAt == steps[k].now
  }

  lemma GrantIsKept(w0: World, steps: seq<Step>, p: nat, a: nat)
    requires steps != [] && Granted(w0, steps[..|steps| - 1], p, a)
    ensures Granted(w0, steps, p, a)
  {
    var n := |steps| - 1;
    var front := steps[..n];
    var w := RunSteps(w0, front);
    var k :| 0 <= k < n && GrantedAt(w0, front, k, p, a) && a in w.store.attempts
             && w.store.attempts[a].createdAt == front[k].now;
    assert front[..k] == steps[..k];
    StepsChangeOnlyStatuses(w, steps[n]);
    assert w.store.attempts[a].createdAt == w.store.attempts[a].(status := Authorized).createdAt;
    assert GrantedAt(w0, steps, k, p, a);
  }

  lemma GrantIsMade(w0: World, steps: seq<Step>, p: nat, a: nat)
    requires steps != [] && steps[|steps| - 1].Authorize? && steps[|steps| - 1].p == p && steps[|steps| - 1].id == a
    requires var w := RunSteps(w0, steps[..|steps| - 1]); var now := steps[|steps| - 1].now;
             && p < |w.procs| && AuthorizeTx(w.store, w.procs[p].request, a, now).Ok?
             && RunSteps(w0, steps).store == AuthorizeTx(w.store, w.procs[p].request, a, now).value
    ensures Granted(w0, steps, p, a)
  {
    var n := |steps| - 1;
    var w := RunSteps(w0, steps[..n]);
    assert AuthorizeFault(w.store, w.procs[p].request, a, steps[n].now).None?;
    assert GrantedAt(w0, steps, n, p, a);
  }

  lemma {:induction false} HoldersWereGranted(w0: World, steps: seq<Step>, p: nat, a: nat)
    requires Initial(w0)
    requires var w := RunSteps(w0, steps);
             (p < |w.procs| && Holds(w.procs[p].pc) == Some(a)) || Invocation(p, a) in w.invoked
    ensures Granted(w0, steps, p, a)
  {
    hide Next, Granted, AuthorizeTx;
    if steps != [] {
      var n := |steps| - 1;
      var w := RunSteps(w0, steps[..n]);
      var c := Invocation(p, a);
      if c in Next(w, steps[n]).invoked && c !in w.invoked {
        NewlyCalled(w, steps[n], c);
      } else if c !in w.invoked {
        NewlyHeld(w, steps[n], p, a);
      }
      if c in w.invoked || (p < |w.procs| && Holds(w.procs[p].pc) == Some(a)) {
        HoldersWereGranted(w0, steps[..n], p, a);
        GrantIsKept(w0, steps, p, a);
      } else {
        GrantIsMade(w0, steps, p, a);
      }
    }
  }

  /**
    Over every run: each browser call was authorized by a step of its own process, under a permit that was issued and
    not expired then and is consumed now, for the very action, observation, effect and profile the process asked for;
    and the attempt it is on record with says so.
  */
  lemma CallsAreAuthorized(w0: World, steps: seq<Step>, c: Invocation)
    requires Initial(w0) && c in RunSteps(w0, steps).invoked
    ensures var w := RunSteps(w0, steps);
            && c.process < |w.procs| && Bound(w, c.process, c.attempt) && Granted(w0, steps, c.process, c.attempt)
  {
    RunKeepsBound(w0, steps);
    HoldersWereGranted(w0, steps, c.process, c.attempt);
  }

  /**
    An attempt is authorized exactly for a request with a key under an issued, unexpired permit for just that request,
    when neither the permit nor the key in the permit's task has an attempt and the new id is free.
  */
  lemma WhenAttemptsAreAuthorized(s: Store, r: AttemptRequest, id: nat, now: int)
    ensures AuthorizeTx(s, r, id, now).Ok? <==>
              && r.permitId in s.permits && s.permits[r.permitId].status.Issued?
              && Permits(s.permits[r.permitId], r) && now <= s.permits[r.permitId].expiresAt
              && id !in s.attempts
              && forall a :: a in s.attempts ==>
                   && s.attempts[a].permitId != Some(r.permitId)
                   && !(s.attempts[a].taskId == s.permits[r.permitId].taskId
                        && s.attempts[a].idempotencyKey == Some(r.idempotencyKey))
  {
  }

  // ----- What settles an attempt ---------------------------------------------

  /** The attempt was UNKNOWN when a probe settled it, and has what that probe said for its status. */
  predicate SettledAt(w0: World, steps: seq<Step>, k: nat, a: nat)
    requires k < |steps|
  {
    && a in RunSteps(w0, steps).store.attempts && a in RunSteps(w0, steps[..k]).store.attempts
    && steps[k] == Resolve(a, RunSteps(w0, steps).store.attempts[a].status.Confirmed?)
    && RunSteps(w0, steps[..k]).store.attempts[a].status.Unknown?
  }

  lemma SettledStays(w: World, step: Step, a: nat)
    requires Inv(w) && a in w.resolved
    ensures a in w.store.attempts && a in Next(w, step).store.attempts
    ensures Next(w, step).store.attempts[a].status == w.store.attempts[a].status
  {
  }

  /** Over every run: a settled attempt is CONFIRMED or FAILED as the probe said that found it UNKNOWN. */
  lemma {:induction false} ProbesSettle(w0: World, steps: seq<Step>, a: nat)
    requires Initial(w0) && a in RunSteps(w0, steps).resolved
    ensures exists k :: 0 <= k < |steps| && SettledAt(w0, steps, k, a)
  {
    hide Next;
    if steps != [] {
      var n := |steps| - 1;
      var front := steps[..n];
      var w := RunSteps(w0, front);
      RunKeepsInv(w0, front);
      if a in w.resolved {
        ProbesSettle(w0, front, a);
        var k :| 0 <= k < n && SettledAt(w0, front, k, a);
        assert front[..k] == steps[..k];
        SettledStays(w, steps[n], a);
        assert SettledAt(w0, steps, k, a);
      } else {
        NewlySettled(w, steps[n], a);
        assert SettledAt(w0, steps, n, a);
      }
    }
  }

  lemma NewlySettled(w: World, step: Step, a: nat)
    requires a !in w.resolved && a in Next(w, step).resolved
    ensures a in w.store.attempts && w.store.attempts[a].status.Unknown? && a in Next(w, step).store.attempts
    ensures step == Resolve(a, Next(w, step).store.attempts[a].status.Confirmed?)
  {
  }
}
