/** Capability-bound plans, grants and data scopes, as planning and admission compare them. */
module Planning {
  import opened Outcomes

  /** Structured business values; two are the same exactly when their canonical JSON texts are. */
  datatype Json = JNull | JBool(bool) | JNumber(int) | JText(string) | JList(seq<Json>) | JObject(map<string, Json>)

  datatype Scope = Scope(departmentId: Option<string>, businessLineId: Option<string>, resourceIds: set<string>,
                         attributes: map<string, Json>)

  datatype PlanStep = PlanStep(stepId: string, capabilityId: string, capabilityVersion: Option<string>,
                               grantId: string, contractId: string,
                               inputs: map<string, Json>, expectedTransition: map<string, Json>,
                               successCriteria: seq<string>)

  datatype Plan = Plan(planId: string, requestId: Option<string>, taskId: string, contractId: string, scope: Scope,
                       version: nat, steps: seq<PlanStep>)

  /** An attribute that is missing reads as null. */
  function Attribute(attributes: map<string, Json>, key: string): Json {
    if key in attributes then attributes[key] else JNull
  }

  /** Every attribute of `narrow` has the same value in `wide`, a missing one counting as null. */
  predicate AttributesWithin(wide: map<string, Json>, narrow: map<string, Json>) {
    forall key :: key in narrow ==> Attribute(wide, key) == narrow[key]
  }

  /** The attributes that say something. */
  function Visible(attributes: map<string, Json>): map<string, Json> {
    map key | key in attributes && !attributes[key].JNull? :: attributes[key]
  }

  predicate SameUnits(a: Scope, b: Scope) {
    a.departmentId == b.departmentId && a.businessLineId == b.businessLineId
  }
}
