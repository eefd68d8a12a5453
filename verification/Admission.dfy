/** Admission of a governed task: the checks that let a bundle through, and what an admitted bundle is. */
module Admission {
  import opened Outcomes
  import opened Planning
  import opened Interactions
  import opened Tallies

  datatype WorkOrder = WorkOrder(workOrderId: string, stepId: string, taskId: string, contractId: string,
                                 planTaskId: Option<string>,
                                 authorityContractId: Option<string>, grantId: string, allowedOperations: set<string>,
                                 prohibitedOperations: set<string>, resultProbeRef: string)

  datatype TaskDraft = TaskDraft(taskId: string, organizationId: string, goal: string, auditOnly: bool)

  datatype Snapshot = Snapshot(taskId: string, organizationId: string, requestId: Option<string>, initiatorId: string,
                               servicePrincipalId: Option<string>,
                               policyVersion: string, revocationEpoch: Option<string>)

  /** `authorizationSnapshot` is the creation snapshot the contract was drawn up from. */
  datatype Contract = Contract(contractId: string, taskId: string, organizationId: string, initiatorId: Option<string>,
                               servicePrincipalId: Option<string>,
                               goal: string, allowedOperations: set<string>, scope: Scope,
                               authorizationSnapshot: Snapshot, policyVersion: string,
                               version: string, expiresAt: Option<int>, auditOnly: bool)

  datatype AuditRecord = AuditRecord(admissionId: string, requestId: string, taskId: string, organizationId: string,
                                     contractId: string, planId: string,
                                     grantId: string, capabilityId: string, capabilityVersion: string,
                                     policyVersion: string, revocationEpoch: string,
                                     createdAt: int)

  datatype Bundle = Bundle(admissionId: string, task: TaskDraft, snapshot: Snapshot, contract: Contract,
                           request: Request, grants: seq<Grant>, plan: Plan,
                           orders: seq<WorkOrder>, audit: AuditRecord)

  /** All that is submitted for admission. */
  datatype Submission = Submission(task: TaskDraft, snapshot: Snapshot, contract: Contract, request: Request,
                                   projection: GrantProjection, grants: seq<Grant>,
                                   registry: Registry, plan: Plan, orders: seq<WorkOrder>, now: int,
                                   accepts: Option<map<string, Json> -> bool>)

  /** The work order stays within its plan, step, contract and grant. */
  predicate WorkOrderOk(order: WorkOrder, plan: Plan, step: PlanStep, grants: seq<Grant>, now: int) {
    && (if order.planTaskId.None? then order.taskId == plan.taskId else order.planTaskId == Some(plan.taskId))
    && order.stepId == step.stepId && step in plan.steps
    && (if order.authorityContractId.None? then order.contractId == plan.contractId == step.contractId
        else order.authorityContractId == Some(plan.contractId) == Some(step.contractId))
    && order.grantId == step.grantId
    && AllowsDimension(grants, step.capabilityId, step.grantId, ExecuteTransition, now)
    && order.allowedOperations !! order.prohibitedOperations && order.resultProbeRef != ""
  }

  /**
    Task, snapshot, contract, request and plan are about the same audit-only task of the same principal under the same
    policy.
  */
  predicate HeadersMatch(s: Submission) {
    && s.task.auditOnly && s.contract.auditOnly
    && (s.task.taskId, s.task.organizationId) == (s.snapshot.taskId, s.snapshot.organizationId)
         == (s.contract.taskId, s.contract.organizationId)
    && s.request.tenantId == s.task.organizationId && s.contract.goal == s.task.goal
    && s.plan.taskId == s.task.taskId && s.plan.contractId == s.contract.contractId
    && s.snapshot.requestId == Some(s.request.requestId) && s.snapshot.initiatorId == s.request.principalRef
    && s.contract.initiatorId == Some(s.request.principalRef)
    && s.snapshot.servicePrincipalId == s.projection.workloadPrincipalId == s.contract.servicePrincipalId
    && s.contract.policyVersion == s.snapshot.policyVersion && s.contract.authorizationSnapshot == s.snapshot
    && (s.contract.expiresAt.Some? ==> s.now < s.contract.expiresAt.value)
    && "policy" in s.request.contractVersions && s.request.contractVersions["policy"] == s.contract.policyVersion
    && "task_contract" in s.request.contractVersions
    && s.request.contractVersions["task_contract"] == s.contract.version
    && s.contract.scope == s.request.scope
  }

  /** The request's own grant is the contract's and the snapshot's. */
  predicate GrantMatches(s: Submission) {
    var grant := GrantById(s.grants, s.request.grantRef);
    && grant.Some?
    && grant.value.capabilityId == s.request.capabilityRef
    && grant.value.capabilityVersion == s.request.capabilityVersion
    && grant.value.policyVersion == s.contract.policyVersion
    && s.snapshot.revocationEpoch == Some(grant.value.revocationEpoch)
    && s.request.capabilityRef in s.contract.allowedOperations
  }

  predicate DistinctOrders(orders: seq<WorkOrder>) {
    forall i, j :: 0 <= i < j < |orders| ==>
      orders[i].workOrderId != orders[j].workOrderId && orders[i].stepId != orders[j].stepId
  }

  /** One work order for every plan step, and no other. */
  predicate OrdersCoverSteps(orders: seq<WorkOrder>, steps: seq<PlanStep>) {
    DistinctOrders(orders) && Members(StepsOf(orders)) == Members(StepIdsOf(steps))
  }

  /** Every order is within its step and probes what the registry names. */
  predicate OrdersOk(s: Submission) {
    forall i, j :: 0 <= i < |s.plan.steps| && 0 <= j < |s.orders| && s.orders[j].stepId == s.plan.steps[i].stepId ==>
      OrderFits(s, s.orders[j], s.plan.steps[i])
  }

  predicate OrderFits(s: Submission, order: WorkOrder, step: PlanStep) {
    && WorkOrderOk(order, s.plan, step, s.grants, s.now)
    && step.capabilityId in s.registry && order.resultProbeRef == s.registry[step.capabilityId].resultProbeRef
  }

  predicate Referenced(steps: seq<PlanStep>, g: Grant) {
    exists i :: 0 <= i < |steps| && steps[i].grantId == g.grantId
  }

  predicate OnePolicyVersion(s: Submission) {
    forall i :: 0 <= i < |s.grants| && Referenced(s.plan.steps, s.grants[i]) ==>
      s.grants[i].policyVersion == s.contract.policyVersion
  }

  predicate PlanAllowed(s: Submission) {
    forall i :: 0 <= i < |s.plan.steps| ==> s.plan.steps[i].capabilityId in s.contract.allowedOperations
  }

  predicate Admissible(s: Submission) {
    && HeadersMatch(s)
    && RequestOk(s.request, s.projection, s.registry, s.accepts, s.now)
    && GrantMatches(s)
    && ProposalOk(s.plan, s.request, s.projection, s.grants, s.registry, s.accepts, s.now)
    && PlanAllowed(s)
    && OrdersCoverSteps(s.orders, s.plan.steps)
    && OrdersOk(s)
    && OnePolicyVersion(s)
  }

  function StepsOf(orders: seq<WorkOrder>): seq<string> {
    seq(|orders|, i requires 0 <= i < |orders| => orders[i].stepId)
  }

  function IdsOf(orders: seq<WorkOrder>): seq<string> {
    seq(|orders|, i requires 0 <= i < |orders| => orders[i].workOrderId)
  }

  function StepIdsOf(steps: seq<PlanStep>): seq<string> {
    seq(|steps|, i requires 0 <= i < |steps| => steps[i].stepId)
  }

  /** Orders by the step they are for, the last one winning. */
  method IndexOrders(orders: seq<WorkOrder>) returns (byStep: map<string, WorkOrder>)
    ensures byStep.Keys == Members(StepsOf(orders))
    ensures forall id :: id in byStep ==> byStep[id] in orders && byStep[id].stepId == id
  {
    byStep := map[];
    var k := 0;
    while k < |orders|
      invariant 0 <= k <= |orders|
      invariant byStep.Keys == Members(StepsOf(orders)[..k])
      invariant forall id :: id in byStep ==> byStep[id] in orders && byStep[id].stepId == id
    {
      var steps := StepsOf(orders);
      assert steps[..k + 1] == steps[..k] + [orders[k].stepId];
      byStep := byStep[orders[k].stepId := orders[k]];
      k := k + 1;
    }
    assert StepsOf(orders)[..k] == StepsOf(orders);
  }

  /** The sizes and keys the code compares say that the orders are one for each step. */
  lemma SizesShowTheCover(orders: seq<WorkOrder>, steps: seq<PlanStep>)
    ensures OrdersCoverSteps(orders, steps) <==>
              && |Members(IdsOf(orders))| == |orders| && |Members(StepsOf(orders))| == |orders|
              && Members(StepsOf(orders)) == Members(StepIdsOf(steps))
  {
    DistinctBySize(IdsOf(orders));
    DistinctBySize(StepsOf(orders));
    DistinctIdsDistinctOrders(orders);
  }

  lemma DistinctIdsDistinctOrders(orders: seq<WorkOrder>)
    ensures DistinctOrders(orders) <==> Distinct(IdsOf(orders)) && Distinct(StepsOf(orders))
  {
    if Distinct(IdsOf(orders)) && Distinct(StepsOf(orders)) {
      forall i, j | 0 <= i < j < |orders|
        ensures orders[i].workOrderId != orders[j].workOrderId && orders[i].stepId != orders[j].stepId
      {
        assert IdsOf(orders)[i] != IdsOf(orders)[j] && StepsOf(orders)[i] != StepsOf(orders)[j];
      }
    }
  }

  /**
    One order for each step makes a bijection: there are as many orders as steps, and each step has exactly one order.
  */
  lemma OrdersAndStepsAreInBijection(orders: seq<WorkOrder>, steps: seq<PlanStep>, i: nat)
    requires UniqueStepIds(steps) && OrdersCoverSteps(orders, steps) && i < |steps|
    ensures |orders| == |steps|
    ensures exists j :: 0 <= j < |orders| && orders[j].stepId == steps[i].stepId
    ensures forall j, k :: 0 <= j < |orders| && 0 <= k < |orders| ==>
              orders[j].stepId == steps[i].stepId == orders[k].stepId ==> j == k
  {
    SizesShowTheCover(orders, steps);
    DistinctBySize(StepIdsOf(steps));
    assert Distinct(StepIdsOf(steps));
    assert StepIdsOf(steps)[i] in Members(StepsOf(orders));
  }

  /** And each order has exactly one step. */
  lemma EveryOrderHasItsStep(orders: seq<WorkOrder>, steps: seq<PlanStep>, j: nat)
    requires UniqueStepIds(steps) && OrdersCoverSteps(orders, steps) && j < |orders|
    ensures exists i :: 0 <= i < |steps| && orders[j].stepId == steps[i].stepId
    ensures forall i, k :: 0 <= i < |steps| && 0 <= k < |steps| ==>
              steps[i].stepId == orders[j].stepId == steps[k].stepId ==> i == k
  {
    assert StepsOf(orders)[j] in Members(StepIdsOf(steps));
  }

  /** The grants the plan's steps refer to. */
  method ReferencedGrants(grants: seq<Grant>, steps: seq<PlanStep>) returns (referenced: seq<Grant>)
    requires UniqueGrants(grants)
    ensures forall g :: g in referenced <==> g in grants && Referenced(steps, g)
    ensures UniqueGrants(referenced)
  {
    referenced := [];
    var k := 0;
    while k < |grants|
      invariant 0 <= k <= |grants|
      invariant forall g :: g in referenced <==> g in grants[..k] && Referenced(steps, g)
      invariant UniqueGrants(referenced)
      invariant forall i :: 0 <= i < |referenced| ==> exists j :: 0 <= j < k && referenced[i] == grants[j]
    {
      assert grants[..k + 1] == grants[..k] + [grants[k]];
      if Referenced(steps, grants[k]) {
        referenced := referenced + [grants[k]];
      }
      k := k + 1;
    }
    assert grants[..k] == grants;
  }

  /** The bijection first, then each step with its order. */
  method CheckOrders(s: Submission) returns (ok: bool)
    ensures ok <==> OrdersCoverSteps(s.orders, s.plan.steps) && OrdersOk(s)
  {
    var byStep := IndexOrders(s.orders);
    var ids := Members(IdsOf(s.orders));
    SizesShowTheCover(s.orders, s.plan.steps);
    if |ids| != |s.orders| || |byStep.Keys| != |s.orders| || byStep.Keys != Members(StepIdsOf(s.plan.steps)) {
      return false;
    }
    forall i | 0 <= i < |s.plan.steps| ensures s.plan.steps[i].stepId in byStep {
      assert StepIdsOf(s.plan.steps)[i] in Members(StepIdsOf(s.plan.steps));
    }
    ok := CheckEachOrder(s, byStep);
  }

  method CheckEachOrder(s: Submission, byStep: map<string, WorkOrder>) returns (ok: bool)
    requires DistinctOrders(s.orders)
    requires forall i :: 0 <= i < |s.plan.steps| ==> s.plan.steps[i].stepId in byStep
    requires forall id :: id in byStep ==> byStep[id] in s.orders && byStep[id].stepId == id
    ensures ok <==> OrdersOk(s)
  {
    var k := 0;
    while k < |s.plan.steps|
      invariant 0 <= k <= |s.plan.steps|
      invariant forall i :: 0 <= i < k ==> OrderFits(s, byStep[s.plan.steps[i].stepId], s.plan.steps[i])
    {
      if !OrderFits(s, byStep[s.plan.steps[k].stepId], s.plan.steps[k]) {
        return false;
      }
      k := k + 1;
    }
    forall i, j | 0 <= i < |s.plan.steps| && 0 <= j < |s.orders| && s.orders[j].stepId == s.plan.steps[i].stepId
      ensures OrderFits(s, s.orders[j], s.plan.steps[i])
    {
      assert OrderFits(s, byStep[s.plan.steps[i].stepId], s.plan.steps[i]);
    }
    return true;
  }

  lemma PolicyOfReferenced(s: Submission, referenced: seq<Grant>)
    requires forall g :: g in referenced <==> g in s.grants && Referenced(s.plan.steps, g)
    ensures OnePolicyVersion(s) <==> forall g :: g in referenced ==> g.policyVersion == s.contract.policyVersion
  {
    if forall g :: g in referenced ==> g.policyVersion == s.contract.policyVersion {
      forall i | 0 <= i < |s.grants| && Referenced(s.plan.steps, s.grants[i])
        ensures s.grants[i].policyVersion == s.contract.policyVersion
      {
        assert s.grants[i] in referenced;
      }
    }
  }

  /** The audit record names the request, the task, the contract, the plan and the grant as the submission does. */
  predicate Records(audit: AuditRecord, s: Submission) {
    && audit.requestId == s.request.requestId && audit.taskId == s.task.taskId
    && audit.organizationId == s.task.organizationId && audit.contractId == s.contract.contractId
    && audit.planId == s.plan.planId && audit.grantId == s.request.grantRef
    && audit.capabilityId == s.request.capabilityRef && audit.capabilityVersion == s.request.capabilityVersion
    && audit.policyVersion == s.contract.policyVersion && s.snapshot.revocationEpoch == Some(audit.revocationEpoch)
    && audit.createdAt == s.now
  }

  /** What the first check that fails says. */
  function FirstRefusal(s: Submission): string {
    if !HeadersMatch(s) then "Task, snapshot, contract, request and plan disagree"
    else if !RequestOk(s.request, s.projection, s.registry, s.accepts, s.now)
    then "Capability request exceeds its Grant projection"
    else if !GrantMatches(s) then "CapabilityRequest does not match its Grant"
    else if !ProposalOk(s.plan, s.request, s.projection, s.grants, s.registry, s.accepts, s.now)
    then "BusinessPlan is outside the Grant projection"
    else if !PlanAllowed(s) then "TaskContract must allow every BusinessPlan capability"
    else if !OrdersCoverSteps(s.orders, s.plan.steps) || !OrdersOk(s)
    then "Admission requires exactly one Work Order for every BusinessPlan step"
    else "Every CapabilityGrant policy version must match the TaskContract"
  }

  /**
    Lets a submission through, or not.  An admitted bundle carries exactly the grants its plan refers to, all under
    the contract's policy version, and the orders and plan as they were submitted.
  */
  method Prepare(s: Submission, admissionId: (string, string) -> string) returns (r: Result<Bundle, string>)
    requires UniqueGrants(s.grants)
    ensures r.Ok? <==> Admissible(s)
    ensures r.Ok? ==>
              && (forall g :: g in r.value.grants <==> g in s.grants && Referenced(s.plan.steps, g))
              && UniqueGrants(r.value.grants)
              && r.value.plan == s.plan && r.value.orders == s.orders && r.value.task == s.task
              && r.value.contract == s.contract
              && r.value.snapshot == s.snapshot && r.value.request == s.request
              && r.value.admissionId == admissionId(s.task.organizationId, s.request.requestId)
                   == r.value.audit.admissionId
              && Records(r.value.audit, s)
    ensures r.Refused? ==> r.error == FirstRefusal(s)
  {
    hide HeadersMatch, ProposalOk, PlanAllowed, OnePolicyVersion, OrdersOk, OrdersCoverSteps, Referenced;
    if !HeadersMatch(s) { return Refused("Task, snapshot, contract, request and plan disagree"); }
    if !RequestOk(s.request, s.projection, s.registry, s.accepts, s.now) {
      return Refused("Capability request exceeds its Grant projection");
    }
    if !GrantMatches(s) { return Refused("CapabilityRequest does not match its Grant"); }
    if !ProposalOk(s.plan, s.request, s.projection, s.grants, s.registry, s.accepts, s.now) {
      return Refused("BusinessPlan is outside the Grant projection");
    }
    if !PlanAllowed(s) { return Refused("TaskContract must allow every BusinessPlan capability"); }
    var ordersOk := CheckOrders(s);
    if !ordersOk { return Refused("Admission requires exactly one Work Order for every BusinessPlan step"); }
    var referenced := ReferencedGrants(s.grants, s.plan.steps);
    PolicyOfReferenced(s, referenced);
    if !(forall g :: g in referenced ==> g.policyVersion == s.contract.policyVersion) {
      return Refused("Every CapabilityGrant policy version must match the TaskContract");
    }
    var entry := RequireEntry(s.projection.entries, s.request.capabilityRef, s.request.grantRef, s.now).value;
    var grant := GrantById(s.grants, s.request.grantRef).value;
    var id := admissionId(s.task.organizationId, s.request.requestId);
    var audit := AuditRecord(id, s.request.requestId, s.task.taskId, s.task.organizationId, s.contract.contractId,
                             s.plan.planId, entry.grantId,
                             entry.capabilityId, entry.capabilityVersion, s.contract.policyVersion,
                             grant.revocationEpoch, s.now);
    return Ok(Bundle(id, s.task, s.snapshot, s.contract, s.request, referenced, s.plan, s.orders, audit));
  }

  /** The plan names resources wherever the grant does, and fixes every attribute the grant fixes. */
  predicate NamesItsLimits(plan: Plan, g: Grant) {
    (g.scope.resourceIds == {} || plan.scope.resourceIds != {}) && g.scope.attributes.Keys <= plan.scope.attributes.Keys
  }

  /**
    What admission amounts to, step by step and grant by grant: every step has its own order; every admitted grant is
    used, executable now, under the one policy version, allows every resource the plan names, and allows all the plan's
    scope allows exactly when the plan names its limits.
  */
  lemma AdmittedBundlesAreCovered(s: Submission, grants: seq<Grant>, i: nat)
    requires UniqueGrants(s.grants) && Admissible(s) && i < |s.plan.steps|
    requires forall g :: g in grants <==> g in s.grants && Referenced(s.plan.steps, g)
    ensures |s.orders| == |s.plan.steps|
    ensures var g := GrantById(s.grants, s.plan.steps[i].grantId);
            && g.Some? && g.value in grants && g.value.principalId == s.request.principalRef
            && g.value.tenantId == s.task.organizationId
    ensures forall g :: g in grants ==>
              && Within(g.scope, s.plan.scope) && g.Allows(ExecuteTransition, s.now)
              && g.policyVersion == s.contract.policyVersion
              && (forall r :: r in s.plan.scope.resourceIds ==> g.scope.resourceIds == {} || r in g.scope.resourceIds)
              && (Covers(g.scope, s.plan.scope) <==> NamesItsLimits(s.plan, g))
  {
    OrdersAndStepsAreInBijection(s.orders, s.plan.steps, i);
    StepsGrantIsAdmitted(s, i);
    forall g | g in grants
      ensures && Within(g.scope, s.plan.scope) && g.Allows(ExecuteTransition, s.now)
              && g.policyVersion == s.contract.policyVersion
              && (Covers(g.scope, s.plan.scope) <==> NamesItsLimits(s.plan, g))
    {
      var k :| 0 <= k < |s.plan.steps| && s.plan.steps[k].grantId == g.grantId;
      StepsGrantIsAdmitted(s, k);
      OnlyOneGrantOfThatId(s.grants, g.grantId, g);
      WhenTheCheckMeansCoverage(g.scope, s.plan.scope);
    }
  }

  lemma StepsGrantIsAdmitted(s: Submission, i: nat)
    requires UniqueGrants(s.grants) && Admissible(s) && i < |s.plan.steps|
    ensures var g := GrantById(s.grants, s.plan.steps[i].grantId);
            && g.Some? && g.value in s.grants && Referenced(s.plan.steps, g.value)
            && g.value.policyVersion == s.contract.policyVersion
            && g.value.Allows(ExecuteTransition, s.now) && Within(g.value.scope, s.plan.scope)
            && g.value.principalId == s.request.principalRef && g.value.tenantId == s.task.organizationId
  {
    ProposalsStayWithinEveryGrant(s.plan, s.request, s.projection, s.grants, s.registry, s.accepts, s.now, i);
    var g := GrantById(s.grants, s.plan.steps[i].grantId).value;
    assert s.plan.steps[i].grantId == g.grantId;
    assert Referenced(s.plan.steps, g);
    var k :| 0 <= k < |s.grants| && s.grants[k] == g;
    assert s.grants[k].policyVersion == s.contract.policyVersion;
  }

  // ----- An admitted plan that no grant covers -------------------------------

  const GRANT := Grant("grant", "transfer", "1", "alice", None, "org", Scope(None, None, {"r1"}, map[]), false,
                       {RequestTransition, ExecuteTransition}, "p1", "e1", 0, 100)

  /** Names no resource, which allows every one. */
  const OPEN := Scope(None, None, {}, map[])

  const STEP := PlanStep("step", "transfer", Some("1"), "grant", "contract", map[], map[], [])

  /** A submission under a grant for one resource whose request and plan name none. */
  function OpenSubmission(): Submission {
    var snapshot := Snapshot("task", "org", Some("request"), "alice", None, "p1", Some("e1"));
    Submission(TaskDraft("task", "org", "goal", true), snapshot,
               Contract("contract", "task", "org", Some("alice"), None, "goal", {"transfer"}, OPEN, snapshot, "p1",
                        "1", None, true),
               Request("request", 0, "alice", "org", OPEN, "transfer", "1", TransitionRequest, map[], {}, "grant",
                       map["policy" := "p1", "task_contract" := "1"]),
               GrantProjection("alice", None, "org", "e1", 0, [EntryOf(GRANT)]), [GRANT],
               map["transfer" := Definition("1", false, "probe")],
               Plan("plan", Some("request"), "task", "contract", OPEN, 1, [STEP]),
               [WorkOrder("order", "step", "task", "contract", None, None, "grant", {}, {}, "probe")], 1, None)
  }

  lemma OpenOrdersFit()
    ensures var s := OpenSubmission();
            OrdersCoverSteps(s.orders, s.plan.steps) && OrdersOk(s) && OnePolicyVersion(s) && PlanAllowed(s)
  {
    var s := OpenSubmission();
    assert s.grants[0] == GRANT && s.plan.steps[0] == STEP;
    assert AllowsDimension(s.grants, "transfer", "grant", ExecuteTransition, 1);
    assert StepsOf(s.orders) == ["step"] == StepIdsOf(s.plan.steps);
  }

  lemma OpenProposalFits()
    ensures var s := OpenSubmission();
            ProposalOk(s.plan, s.request, s.projection, s.grants, s.registry, s.accepts, s.now)
  {
    var s := OpenSubmission();
    assert s.grants[0] == GRANT && s.projection.entries[0] == EntryOf(GRANT);
    assert RequireEntry(s.projection.entries, "transfer", "grant", 1) == Some(EntryOf(GRANT));
    assert TransitionRequest in GRANT.Kinds();
    assert GrantById(s.grants, "grant") == Some(GRANT)
        && IndexedEntry(s.projection.entries, "transfer", "grant") == Some(EntryOf(GRANT));
    assert AllowsDimension(s.grants, "transfer", "grant", RequestTransition, 1)
        && AllowsDimension(s.grants, "transfer", "grant", ExecuteTransition, 1);
  }

  /** It is admitted, and its plan allows resources its only grant does not. */
  lemma AnOpenPlanIsAdmitted()
    ensures var s := OpenSubmission();
            Admissible(s) && UniqueGrants(s.grants) && Referenced(s.plan.steps, GRANT)
                && !NamesItsLimits(s.plan, GRANT) && !Covers(GRANT.scope, s.plan.scope)
  {
    hide ProposalOk, OrdersOk, OrdersCoverSteps, OnePolicyVersion, PlanAllowed;
    var s := OpenSubmission();
    OpenOrdersFit();
    OpenProposalFits();
    assert s.grants[0] == GRANT && s.plan.steps[0] == STEP;
    assert RequireEntry(s.projection.entries, "transfer", "grant", 1) == Some(EntryOf(GRANT));
    assert TransitionRequest in GRANT.Kinds();
    assert GrantById(s.grants, "grant") == Some(GRANT);
    WhenTheCheckMeansCoverage(GRANT.scope, s.plan.scope);
  }
}
