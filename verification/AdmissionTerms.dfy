/** The terms of admission, subject by subject on the fields of what is submitted; every admission meets them all. */
module AdmissionTerms {
  import opened Outcomes
  import opened Planning
  import opened Interactions
  import opened Admission
  import Tallies

  /** Grant ids are unique in a projection, too. */
  ghost predicate UniqueEntries(entries: seq<Entry>) {
    forall i, j :: 0 <= i < j < |entries| ==> entries[i].grantId != entries[j].grantId
  }

  // ----- One of each throughout the submission -------------------------------

  predicate OneTask(s: Submission) {
    && s.snapshot.taskId == s.task.taskId && s.contract.taskId == s.task.taskId && s.plan.taskId == s.task.taskId
    && s.contract.goal == s.task.goal && s.task.auditOnly && s.contract.auditOnly
  }

  predicate OneTenant(s: Submission) {
    && s.snapshot.organizationId == s.task.organizationId && s.contract.organizationId == s.task.organizationId
    && s.request.tenantId == s.task.organizationId && s.projection.tenantId == s.task.organizationId
  }

  /** The person and the workload that act are the same everywhere. */
  predicate OnePrincipal(s: Submission) {
    && s.projection.principalId == s.request.principalRef && s.snapshot.initiatorId == s.request.principalRef
    && s.contract.initiatorId == Some(s.request.principalRef)
    && s.snapshot.servicePrincipalId == s.projection.workloadPrincipalId
    && s.contract.servicePrincipalId == s.projection.workloadPrincipalId
  }

  predicate OneRequest(s: Submission) {
    && s.snapshot.requestId == Some(s.request.requestId) && s.plan.requestId == Some(s.request.requestId)
    && s.request.kind.TransitionRequest?
  }

  /** The contract is the plan's, was drawn up from this snapshot, and has the request's scope and versions. */
  predicate OneContract(s: Submission) {
    && s.plan.contractId == s.contract.contractId && s.contract.authorizationSnapshot == s.snapshot
    && s.contract.scope == s.request.scope && s.snapshot.policyVersion == s.contract.policyVersion
    && "policy" in s.request.contractVersions && s.request.contractVersions["policy"] == s.contract.policyVersion
    && "task_contract" in s.request.contractVersions
    && s.request.contractVersions["task_contract"] == s.contract.version
  }

  predicate InTime(s: Submission) {
    && s.request.submittedAt <= s.now && s.projection.generatedAt <= s.now
    && (s.contract.expiresAt.None? || s.now < s.contract.expiresAt.value)
  }

  // ----- Scopes, inputs and grants -------------------------------------------

  /** `inner` has the units of `outer`, no other resources where `outer` names some, and no other attribute values. */
  predicate StaysIn(outer: Scope, inner: Scope) {
    && inner.departmentId == outer.departmentId && inner.businessLineId == outer.businessLineId
    && (|outer.resourceIds| > 0 ==> forall r :: r in inner.resourceIds ==> r in outer.resourceIds)
    && (forall key :: key in inner.attributes && key in outer.attributes ==>
                        inner.attributes[key] == outer.attributes[key])
    && (forall key :: key in inner.attributes && key !in outer.attributes ==> inner.attributes[key].JNull?)
  }

  /** The registry knows this version of the capability, and the inputs fit it. */
  predicate Takes(s: Submission, capabilityId: string, version: string, inputs: map<string, Json>) {
    && capabilityId in s.registry && s.registry[capabilityId].version == version
    && (s.registry[capabilityId].hasSchema ==> s.accepts.Some? && s.accepts.value(inputs))
    && (!s.registry[capabilityId].hasSchema ==> |inputs| == 0)
  }

  predicate MayRunNow(g: Grant, now: int) {
    && !g.denied && g.activeFrom <= now && now < g.expiresAt
    && RequestTransition in g.dimensions && ExecuteTransition in g.dimensions
  }

  /** What was shown to the principal for a grant is what the grant still says. */
  predicate ShownAs(s: Submission, e: Entry, g: Grant) {
    && e in s.projection.entries && g in s.grants && e.grantId == g.grantId && e.capabilityId == g.capabilityId
    && e.capabilityVersion == g.capabilityVersion && e.scope == g.scope && e.expiresAt == g.expiresAt
    && g.principalId == s.projection.principalId && g.workloadPrincipalId == s.projection.workloadPrincipalId
    && g.tenantId == s.projection.tenantId && g.revocationEpoch == s.projection.revocationEpoch
  }

  // ----- The request, the plan and the orders --------------------------------

  /** The request is for a capability that was shown and may be requested, within the scope shown. */
  predicate RequestIsShown(s: Submission, e: Entry) {
    && e in s.projection.entries && e.capabilityId == s.request.capabilityRef && e.grantId == s.request.grantRef
    && s.now < e.expiresAt && e.capabilityVersion == s.request.capabilityVersion && TransitionRequest in e.kinds
    && StaysIn(e.scope, s.request.scope)
    && (|e.scope.resourceIds| > 0 ==> forall r :: r in s.request.resourceRefs ==> r in e.scope.resourceIds)
  }

  /** And its grant is the snapshot's and the contract's. */
  predicate RequestIsGranted(s: Submission, g: Grant) {
    && g in s.grants && g.grantId == s.request.grantRef && g.capabilityId == s.request.capabilityRef
    && g.capabilityVersion == s.request.capabilityVersion && g.policyVersion == s.contract.policyVersion
    && s.snapshot.revocationEpoch == Some(g.revocationEpoch)
  }

  ghost predicate RequestHolds(s: Submission) {
    && (exists e :: RequestIsShown(s, e)) && (exists g :: RequestIsGranted(s, g))
    && s.request.capabilityRef in s.contract.allowedOperations
    && (|s.request.scope.resourceIds| > 0 ==>
          forall r :: r in s.request.resourceRefs ==> r in s.request.scope.resourceIds)
    && Takes(s, s.request.capabilityRef, s.request.capabilityVersion, s.request.inputs)
  }

  /** A step runs a capability of the contract, under a grant that may run now, was shown, and has the plan's scope. */
  predicate StepIsGranted(s: Submission, step: PlanStep, e: Entry, g: Grant) {
    && ShownAs(s, e, g) && e.capabilityId == step.capabilityId && g.grantId == step.grantId
    && step.capabilityVersion == Some(g.capabilityVersion) && step.contractId == s.contract.contractId
    && MayRunNow(g, s.now) && g.policyVersion == s.contract.policyVersion && StaysIn(g.scope, s.plan.scope)
    && step.capabilityId in s.contract.allowedOperations
    && Takes(s, step.capabilityId, g.capabilityVersion, step.inputs)
  }

  ghost predicate IsGranted(s: Submission, step: PlanStep) {
    exists e, g :: StepIsGranted(s, step, e, g)
  }

  ghost predicate PlanHolds(s: Submission) {
    && |s.plan.steps| > 0
    && (forall i, j :: 0 <= i < j < |s.plan.steps| ==> s.plan.steps[i].stepId != s.plan.steps[j].stepId)
    && s.plan.steps[0].capabilityId == s.request.capabilityRef && s.plan.steps[0].grantId == s.request.grantRef
    && s.plan.steps[0].inputs == s.request.inputs
    && StaysIn(s.request.scope, s.plan.scope)
    && (forall r :: r in s.request.resourceRefs ==> r in s.plan.scope.resourceIds)
    && (forall i :: 0 <= i < |s.plan.steps| ==> IsGranted(s, s.plan.steps[i]))
  }

  /** A work order for exactly this step: its task, contract and grant, and the probe of its capability. */
  predicate Serves(s: Submission, order: WorkOrder, step: PlanStep) {
    && order.stepId == step.stepId && order.grantId == step.grantId
    && (order.planTaskId == Some(s.task.taskId) || (order.planTaskId.None? && order.taskId == s.task.taskId))
    && (|| order.authorityContractId == Some(s.contract.contractId)
        || (order.authorityContractId.None? && order.contractId == s.contract.contractId))
    && (forall operation :: operation in order.allowedOperations ==> operation !in order.prohibitedOperations)
    && order.resultProbeRef != ""
    && step.capabilityId in s.registry && order.resultProbeRef == s.registry[step.capabilityId].resultProbeRef
  }

  predicate HasStep(steps: seq<PlanStep>, stepId: string) {
    exists i :: 0 <= i < |steps| && steps[i].stepId == stepId
  }

  predicate IsServed(s: Submission, step: PlanStep) {
    exists j :: 0 <= j < |s.orders| && Serves(s, s.orders[j], step)
  }

  /** No two orders are the same or for the same step; each is for a step of the plan, and each step is served. */
  ghost predicate OrdersHold(s: Submission) {
    && (forall i, j :: 0 <= i < j < |s.orders| ==> s.orders[i].workOrderId != s.orders[j].workOrderId)
    && (forall i, j :: 0 <= i < j < |s.orders| ==> s.orders[i].stepId != s.orders[j].stepId)
    && (forall j :: 0 <= j < |s.orders| ==> HasStep(s.plan.steps, s.orders[j].stepId))
    && (forall i :: 0 <= i < |s.plan.steps| ==> IsServed(s, s.plan.steps[i]))
  }

  ghost predicate Terms(s: Submission) {
    && OneTask(s) && OneTenant(s) && OnePrincipal(s) && OneRequest(s) && OneContract(s) && InTime(s)
    && RequestHolds(s) && PlanHolds(s) && OrdersHold(s)
  }

  // ----- They are what admission checks --------------------------------------

  lemma WithinStaysIn(outer: Scope, inner: Scope)
    ensures Within(outer, inner) <==> StaysIn(outer, inner)
  {
    assert |outer.resourceIds| == 0 <==> outer.resourceIds == {};
    if StaysIn(outer, inner) {
      forall key | key in inner.attributes ensures Attribute(outer.attributes, key) == inner.attributes[key] {
      }
    }
    if Within(outer, inner) {
      forall key | key in inner.attributes ensures Attribute(outer.attributes, key) == inner.attributes[key] {
      }
    }
  }

  lemma InputsTaken(s: Submission, capabilityId: string, version: string, inputs: map<string, Json>)
    ensures Takes(s, capabilityId, version, inputs) <==>
              && capabilityId in s.registry && s.registry[capabilityId].version == version
              && InputsOk(s.registry[capabilityId], s.accepts, inputs)
  {
    assert |inputs| == 0 <==> inputs == map[];
  }

  lemma {:induction false} EntryIsFound(entries: seq<Entry>, e: Entry, now: int)
    requires UniqueEntries(entries) && e in entries && now < e.expiresAt
    ensures RequireEntry(entries, e.capabilityId, e.grantId, now) == Some(e)
  {
    if entries[0] != e {
      assert e in entries[1..];
      EntryIsFound(entries[1..], e, now);
      var i :| 0 <= i < |entries| && entries[i] == e;
      assert entries[0].grantId != entries[i].grantId;
    }
  }

  lemma {:induction false} EntryIsIndexed(entries: seq<Entry>, e: Entry)
    requires UniqueEntries(entries) && e in entries
    ensures IndexedEntry(entries, e.capabilityId, e.grantId) == Some(e)
  {
    var n := |entries| - 1;
    if entries[n] != e {
      var i :| 0 <= i < |entries| && entries[i] == e;
      assert e == entries[..n][i];
      EntryIsIndexed(entries[..n], e);
    }
  }

  lemma GrantIsFound(grants: seq<Grant>, g: Grant)
    requires UniqueGrants(grants) && g in grants
    ensures GrantById(grants, g.grantId) == Some(g)
  {
  }

  lemma DimensionIsAllowed(grants: seq<Grant>, g: Grant, dimension: Dimension, now: int)
    requires UniqueGrants(grants) && g in grants
    ensures AllowsDimension(grants, g.capabilityId, g.grantId, dimension, now) <==>
              !g.denied && g.activeFrom <= now < g.expiresAt && dimension in g.dimensions
  {
    var i :| 0 <= i < |grants| && grants[i] == g;
  }

  /** The request's own terms, where everything else agrees. */
  lemma RequestsHold(s: Submission)
    requires UniqueGrants(s.grants) && UniqueEntries(s.projection.entries) && s.request.kind.TransitionRequest?
    ensures RequestHolds(s) && OnePrincipalAndTenant(s) && ShownInTime(s) <==>
              && RequestOk(s.request, s.projection, s.registry, s.accepts, s.now)
              && RequestIsOfGrant(s) && s.request.capabilityRef in s.contract.allowedOperations
  {
    hide Within, StaysIn, InputsOk, Takes, UniqueGrants, UniqueEntries;
    var r := s.request;
    InputsTaken(s, r.capabilityRef, r.capabilityVersion, r.inputs);
    assert |r.scope.resourceIds| == 0 <==> r.scope.resourceIds == {};
    if e :| RequestIsShown(s, e) {
      EntryIsFound(s.projection.entries, e, s.now);
      WithinStaysIn(e.scope, r.scope);
      assert |e.scope.resourceIds| == 0 <==> e.scope.resourceIds == {};
    }
    if g :| RequestIsGranted(s, g) {
      GrantIsFound(s.grants, g);
    }
    if RequestOk(r, s.projection, s.registry, s.accepts, s.now) && RequestIsOfGrant(s)
       && r.capabilityRef in s.contract.allowedOperations {
      var e := RequireEntry(s.projection.entries, r.capabilityRef, r.grantRef, s.now).value;
      WithinStaysIn(e.scope, r.scope);
      assert |e.scope.resourceIds| == 0 <==> e.scope.resourceIds == {};
      assert RequestIsShown(s, e);
      assert RequestIsGranted(s, GrantById(s.grants, r.grantRef).value);
    }
  }

  predicate OnePrincipalAndTenant(s: Submission) {
    s.projection.principalId == s.request.principalRef && s.projection.tenantId == s.request.tenantId
  }

  predicate ShownInTime(s: Submission) {
    s.request.submittedAt <= s.now && s.projection.generatedAt <= s.now
  }

  /** What `GrantMatches` says, but for the allowed operation. */
  predicate RequestIsOfGrant(s: Submission) {
    var grant := GrantById(s.grants, s.request.grantRef);
    grant.Some? && RequestIsGranted(s, grant.value)
  }

  lemma GrantMatchesSo(s: Submission)
    ensures GrantMatches(s) <==> RequestIsOfGrant(s) && s.request.capabilityRef in s.contract.allowedOperations
  {
  }

  /** What the checks ask of one step. */
  predicate StepPasses(s: Submission, step: PlanStep) {
    && StepOk(s.plan, step, s.projection, s.grants, s.registry, s.accepts, s.now)
    && step.capabilityId in s.contract.allowedOperations
    && (forall i :: 0 <= i < |s.grants| && s.grants[i].grantId == step.grantId ==>
                      s.grants[i].policyVersion == s.contract.policyVersion)
  }

  lemma StepsPass(s: Submission, step: PlanStep)
    requires UniqueGrants(s.grants) && UniqueEntries(s.projection.entries) && s.plan.contractId == s.contract.contractId
    ensures StepPasses(s, step) <==> IsGranted(s, step)
  {
    hide Within, StaysIn, InputsOk, Takes, UniqueEntries, AllowsDimension;
    if e, g :| StepIsGranted(s, step, e, g) {
      GrantedStepsPass(s, step, e, g);
    }
    if StepPasses(s, step) {
      var e := IndexedEntry(s.projection.entries, step.capabilityId, step.grantId).value;
      var g := GrantById(s.grants, step.grantId).value;
      WithinStaysIn(g.scope, s.plan.scope);
      InputsTaken(s, step.capabilityId, g.capabilityVersion, step.inputs);
      DimensionIsAllowed(s.grants, g, RequestTransition, s.now);
      DimensionIsAllowed(s.grants, g, ExecuteTransition, s.now);
      assert StepIsGranted(s, step, e, g);
    }
  }

  lemma GrantedStepsPass(s: Submission, step: PlanStep, e: Entry, g: Grant)
    requires UniqueGrants(s.grants) && UniqueEntries(s.projection.entries) && s.plan.contractId == s.contract.contractId
    requires StepIsGranted(s, step, e, g)
    ensures StepPasses(s, step)
  {
    hide Within, StaysIn, InputsOk, Takes, UniqueEntries, AllowsDimension;
    EntryIsIndexed(s.projection.entries, e);
    GrantIsFound(s.grants, g);
    OnlyOneGrantOfThatId(s.grants, g.grantId, g);
    WithinStaysIn(g.scope, s.plan.scope);
    InputsTaken(s, step.capabilityId, g.capabilityVersion, step.inputs);
    DimensionIsAllowed(s.grants, g, RequestTransition, s.now);
    DimensionIsAllowed(s.grants, g, ExecuteTransition, s.now);
  }

  /** The plan's terms, where the request holds. */
  lemma PlansHold(s: Submission)
    requires UniqueGrants(s.grants) && UniqueEntries(s.projection.entries) && s.plan.contractId == s.contract.contractId
    requires RequestOk(s.request, s.projection, s.registry, s.accepts, s.now)
    ensures PlanHolds(s) && s.request.kind.TransitionRequest? && s.plan.requestId == Some(s.request.requestId) <==>
              && ProposalOk(s.plan, s.request, s.projection, s.grants, s.registry, s.accepts, s.now)
              && PlanAllowed(s) && OnePolicyVersion(s)
  {
    hide Within, StaysIn, StepOk, StepPasses, IsGranted, RequestOk, UniqueGrants, UniqueEntries, PlanAllowed,
      OnePolicyVersion;
    var steps := s.plan.steps;
    WithinStaysIn(s.request.scope, s.plan.scope);
    forall i | 0 <= i < |steps| ensures StepPasses(s, steps[i]) <==> IsGranted(s, steps[i]) {
      StepsPass(s, steps[i]);
    }
    StepsPassTogether(s);
    assert (s.request.resourceRefs == {} || s.request.resourceRefs <= s.plan.scope.resourceIds)
        <==> forall r :: r in s.request.resourceRefs ==> r in s.plan.scope.resourceIds;
  }

  lemma StepsPassTogether(s: Submission)
    ensures (forall i :: 0 <= i < |s.plan.steps| ==> StepPasses(s, s.plan.steps[i])) <==>
              && (forall i :: 0 <= i < |s.plan.steps| ==>
                    StepOk(s.plan, s.plan.steps[i], s.projection, s.grants, s.registry, s.accepts, s.now))
              && PlanAllowed(s) && OnePolicyVersion(s)
  {
    hide StepOk;
  }

  /** The orders' terms, where the plan holds. */
  lemma OrdersHoldSo(s: Submission)
    requires UniqueGrants(s.grants) && OneContract(s) && OneTask(s) && PlanHolds(s)
    ensures OrdersHold(s) <==> OrdersCoverSteps(s.orders, s.plan.steps) && OrdersOk(s)
  {
    hide Serves, OrderFits, PlanHolds, OneContract, OneTask, UniqueGrants;
    forall i, j | 0 <= i < |s.plan.steps| && 0 <= j < |s.orders|
      ensures Serves(s, s.orders[j], s.plan.steps[i]) <==>
                s.orders[j].stepId == s.plan.steps[i].stepId && OrderFits(s, s.orders[j], s.plan.steps[i])
    {
      FittingOrdersServe(s, s.orders[j], i);
    }
    CoverIsMutual(s.orders, s.plan.steps);
    if OrdersHold(s) {
      forall i | 0 <= i < |s.plan.steps| ensures HasOrder(s.orders, s.plan.steps[i].stepId) {
        assert IsServed(s, s.plan.steps[i]);
      }
      forall i, j | 0 <= i < |s.plan.steps| && 0 <= j < |s.orders| && s.orders[j].stepId == s.plan.steps[i].stepId
        ensures OrderFits(s, s.orders[j], s.plan.steps[i])
      {
        assert IsServed(s, s.plan.steps[i]);
      }
    }
    if OrdersCoverSteps(s.orders, s.plan.steps) && OrdersOk(s) {
      forall i | 0 <= i < |s.plan.steps| ensures IsServed(s, s.plan.steps[i]) {
        assert HasOrder(s.orders, s.plan.steps[i].stepId);
      }
    }
  }

  predicate HasOrder(orders: seq<WorkOrder>, stepId: string) {
    exists j :: 0 <= j < |orders| && orders[j].stepId == stepId
  }

  lemma CoverIsMutual(orders: seq<WorkOrder>, steps: seq<PlanStep>)
    ensures Tallies.Members(StepsOf(orders)) == Tallies.Members(StepIdsOf(steps)) <==>
              && (forall j :: 0 <= j < |orders| ==> HasStep(steps, orders[j].stepId))
              && (forall i :: 0 <= i < |steps| ==> HasOrder(orders, steps[i].stepId))
  {
    forall id ensures id in Tallies.Members(StepsOf(orders)) <==> HasOrder(orders, id) {
      if j :| 0 <= j < |orders| && orders[j].stepId == id {
        assert StepsOf(orders)[j] == id;
      }
    }
    forall id ensures id in Tallies.Members(StepIdsOf(steps)) <==> HasStep(steps, id) {
      if i :| 0 <= i < |steps| && steps[i].stepId == id {
        assert StepIdsOf(steps)[i] == id;
      }
    }
  }

  lemma FittingOrdersServe(s: Submission, order: WorkOrder, i: nat)
    requires UniqueGrants(s.grants) && OneContract(s) && OneTask(s) && PlanHolds(s) && i < |s.plan.steps|
    ensures Serves(s, order, s.plan.steps[i]) <==>
              order.stepId == s.plan.steps[i].stepId && OrderFits(s, order, s.plan.steps[i])
  {
    hide StaysIn, Takes, AllowsDimension;
    assert IsGranted(s, s.plan.steps[i]);
    var e, g :| StepIsGranted(s, s.plan.steps[i], e, g);
    DimensionIsAllowed(s.grants, g, ExecuteTransition, s.now);
  }

  /** A submission is admitted exactly when it meets the terms. */
  lemma WhatIsAdmitted(s: Submission)
    requires UniqueGrants(s.grants) && UniqueEntries(s.projection.entries)
    ensures Admissible(s) <==> Terms(s)
  {
    hide RequestOk, ProposalOk, PlanAllowed, OnePolicyVersion, OrdersOk, OrdersCoverSteps, RequestHolds, PlanHolds,
      OrdersHold, UniqueGrants, UniqueEntries, GrantMatches, RequestIsOfGrant;
    GrantMatchesSo(s);
    if Terms(s) {
      RequestsHold(s);
      PlansHold(s);
      OrdersHoldSo(s);
    }
    if Admissible(s) {
      ProposalsAreTransitions(s);
      RequestsHold(s);
      RequestsAgree(s);
      PlansHold(s);
      OrdersHoldSo(s);
    }
  }

  lemma ProposalsAreTransitions(s: Submission)
    requires Admissible(s)
    ensures s.request.kind.TransitionRequest? && s.plan.requestId == Some(s.request.requestId)
  {
  }

  lemma RequestsAgree(s: Submission)
    requires RequestOk(s.request, s.projection, s.registry, s.accepts, s.now)
    ensures OnePrincipalAndTenant(s) && ShownInTime(s)
  {
  }
}
