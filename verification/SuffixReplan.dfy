/** Replanning: which successor plans keep the authority of the plan they replace, and what any number of them keeps. */
module SuffixReplan {
  import opened Outcomes
  import opened Planning

  datatype Reason =
    | NotDirectSuccessor | RootTaskChanged | ContractChanged | ScopeChanged | PrefixChanged | SuffixExpands
    | NewCapability | InputsChanged

  datatype Assessment = Assessment(requiresReauthorization: bool, invalidatedContractIds: set<string>,
                                   invalidatedGrantIds: set<string>,
                                   completedPrefixLength: nat, acceptedSuffixStepIds: seq<string>, reasons: seq<Reason>)

  /** Replanning reads an empty resource set as no resource at all. */
  predicate ScopeExpands(previous: Scope, proposed: Scope) {
    || !SameUnits(previous, proposed)
    || !(proposed.resourceIds <= previous.resourceIds)
    || !AttributesWithin(previous.attributes, proposed.attributes)
  }

  /** The same units, the same resources and the same attributes, however a null one is written. */
  predicate SameScope(a: Scope, b: Scope) {
    SameUnits(a, b) && a.resourceIds == b.resourceIds && Visible(a.attributes) == Visible(b.attributes)
  }

  /** Two scopes neither of which expands the other say the same. */
  lemma MutualScopesAreTheSame(a: Scope, b: Scope)
    ensures (!ScopeExpands(a, b) && !ScopeExpands(b, a)) <==> SameScope(a, b)
  {
    if SameScope(a, b) {
      AttributesFromVisible(a.attributes, b.attributes);
      AttributesFromVisible(b.attributes, a.attributes);
    } else if AttributesWithin(a.attributes, b.attributes) && AttributesWithin(b.attributes, a.attributes) {
      assert Visible(a.attributes) == Visible(b.attributes);
    }
  }

  /** What that means of the scopes' own fields. */
  ghost predicate SameBounds(a: Scope, b: Scope) {
    && a.departmentId == b.departmentId && a.businessLineId == b.businessLineId
    && (forall resource :: resource in a.resourceIds <==> resource in b.resourceIds)
    && (forall key :: key in a.attributes && key in b.attributes ==> a.attributes[key] == b.attributes[key])
    && (forall key :: key in a.attributes && key !in b.attributes ==> a.attributes[key].JNull?)
    && (forall key :: key in b.attributes && key !in a.attributes ==> b.attributes[key].JNull?)
  }

  lemma SameScopesHaveTheSameBounds(a: Scope, b: Scope)
    ensures SameScope(a, b) <==> SameBounds(a, b)
  {
    MutualScopesAreTheSame(a, b);
  }

  lemma AttributesFromVisible(a: map<string, Json>, b: map<string, Json>)
    requires Visible(a) == Visible(b)
    ensures AttributesWithin(a, b)
  {
    forall key | key in b ensures Attribute(a, key) == b[key] {
      assert key in Visible(b) <==> !b[key].JNull?;
      assert key in Visible(a) <==> key in a && !a[key].JNull?;
    }
  }

  /** All of a step but its id. */
  function Authority(step: PlanStep): PlanStep {
    step.(stepId := "")
  }

  function Authorities(steps: seq<PlanStep>): seq<PlanStep> {
    seq(|steps|, i requires 0 <= i < |steps| => Authority(steps[i]))
  }

  function GrantIds(steps: seq<PlanStep>): set<string> {
    set i | 0 <= i < |steps| :: steps[i].grantId
  }

  function StepIds(steps: seq<PlanStep>): seq<string> {
    seq(|steps|, i requires 0 <= i < |steps| => steps[i].stepId)
  }

  /** Two steps that differ in nothing but their ids. */
  predicate SameAuthority(a: PlanStep, b: PlanStep) {
    && a.capabilityId == b.capabilityId && a.capabilityVersion == b.capabilityVersion
    && a.grantId == b.grantId && a.contractId == b.contractId
    && a.inputs == b.inputs && a.expectedTransition == b.expectedTransition
    && a.successCriteria == b.successCriteria
  }

  /** Where a step's authority occurs. */
  function Places(steps: seq<PlanStep>, step: PlanStep): set<int> {
    set i | 0 <= i < |steps| && SameAuthority(steps[i], step)
  }

  lemma {:induction false} PlacesAreCounted(steps: seq<PlanStep>, step: PlanStep)
    ensures |Places(steps, step)| == multiset(Authorities(steps))[Authority(step)]
  {
    if steps == [] {
      assert Authorities(steps) == [];
    } else {
      var n := |steps| - 1;
      PlacesAreCounted(steps[..n], step);
      assert Authorities(steps) == Authorities(steps[..n]) + [Authority(steps[n])];
      assert SameAuthority(steps[n], step) <==> Authority(steps[n]) == Authority(step);
      assert Places(steps, step) == Places(steps[..n], step) + (if SameAuthority(steps[n], step) then {n} else {});
    }
  }

  /** The steps behind the first `n`. */
  function Rest(plan: Plan, n: nat): seq<PlanStep> {
    if n <= |plan.steps| then plan.steps[n..] else []
  }

  /** No authority occurs more often in `late` than in `early`. */
  ghost predicate NoMoreAuthority(early: seq<PlanStep>, late: seq<PlanStep>) {
    forall step :: |Places(late, step)| <= |Places(early, step)|
  }

  lemma RemainingIsCounted(previous: Plan, proposed: Plan, n: nat)
    requires n <= |previous.steps|
    ensures Remaining(proposed, n) <= Remaining(previous, n) <==> NoMoreAuthority(Rest(previous, n), Rest(proposed, n))
  {
    var a, b := Rest(previous, n), Rest(proposed, n);
    assert Authorities([]) == [];
    forall step ensures |Places(a, step)| == Remaining(previous, n)[Authority(step)]
                && |Places(b, step)| == Remaining(proposed, n)[Authority(step)]
    {
      PlacesAreCounted(a, step);
      PlacesAreCounted(b, step);
    }
    if NoMoreAuthority(a, b) {
      forall x ensures Remaining(proposed, n)[x] <= Remaining(previous, n)[x] {
        if x in Remaining(proposed, n) {
          RemainingIsAuthority(proposed, n, x);
          assert Remaining(proposed, n)[Authority(x)] <= Remaining(previous, n)[Authority(x)];
        }
      }
    } else {
      var step :| |Places(b, step)| > |Places(a, step)|;
      assert Remaining(proposed, n)[Authority(step)] > Remaining(previous, n)[Authority(step)];
    }
  }

  lemma RemainingIsAuthority(plan: Plan, n: nat, x: PlanStep)
    requires x in Remaining(plan, n)
    ensures Authority(x) == x
  {
    var rest := Authorities(plan.steps[n..]);
    assert x in rest;
    var i :| 0 <= i < |rest| && rest[i] == x;
  }

  /** The first `n` steps are untouched. */
  predicate KeepsPrefix(previous: Plan, proposed: Plan, n: nat)
    requires n <= |previous.steps|
  {
    n <= |proposed.steps| && proposed.steps[..n] == previous.steps[..n]
  }

  /** What a plan has left to do after `n` steps, as authority. */
  function Remaining(plan: Plan, n: nat): multiset<PlanStep> {
    if n <= |plan.steps| then multiset(Authorities(plan.steps[n..])) else multiset{}
  }

  /**
    A successor that needs no new authorization: the same root, contract and scope, the same completed prefix, and no
    authority the suffix did not have.
  */
  predicate SuffixAccepted(previous: Plan, proposed: Plan, n: nat) {
    && n <= |previous.steps|
    && proposed.version == previous.version + 1
    && proposed.taskId == previous.taskId && proposed.contractId == previous.contractId
    && SameScope(previous.scope, proposed.scope)
    && KeepsPrefix(previous, proposed, n)
    && Remaining(proposed, n) <= Remaining(previous, n)
  }

  /**
    The same on the plans' own fields: a direct successor of the same task, contract and scope, whose completed steps
    are literally the same, and which runs no capability, version, grant, contract, input, transition or criteria more
    often than what was left.
  */
  ghost predicate KeepsAuthority(previous: Plan, proposed: Plan, n: nat) {
    && proposed.version == previous.version + 1
    && proposed.taskId == previous.taskId && proposed.contractId == previous.contractId
    && SameBounds(previous.scope, proposed.scope)
    && n <= |previous.steps| && n <= |proposed.steps|
    && (forall i :: 0 <= i < n ==> proposed.steps[i] == previous.steps[i])
    && NoMoreAuthority(Rest(previous, n), Rest(proposed, n))
  }

  lemma AcceptedMeansKept(previous: Plan, proposed: Plan, n: nat)
    ensures SuffixAccepted(previous, proposed, n) <==> KeepsAuthority(previous, proposed, n)
  {
    hide Remaining, NoMoreAuthority, SameBounds;
    SameScopesHaveTheSameBounds(previous.scope, proposed.scope);
    if n <= |previous.steps| {
      RemainingIsCounted(previous, proposed, n);
      if n <= |proposed.steps| {
        assert (forall i :: 0 <= i < n ==> proposed.steps[i] == previous.steps[i])
            <==> proposed.steps[..n] == previous.steps[..n];
      }
    }
  }

  method SamePrefix(left: seq<PlanStep>, right: seq<PlanStep>) returns (same: bool)
    ensures same <==> left == right
  {
    if |left| != |right| { return false; }
    var i := 0;
    while i < |left|
      invariant 0 <= i <= |left|
      invariant left[..i] == right[..i]
    {
      if left[i] != right[i] { return false; }
      i := i + 1;
    }
    assert left[..i] == left && right[..i] == right;
    return true;
  }

  /** How often each authority occurs. */
  method CountAuthorities(steps: seq<PlanStep>) returns (counter: multiset<PlanStep>)
    ensures counter == multiset(Authorities(steps))
  {
    counter := multiset{};
    var i := 0;
    while i < |steps|
      invariant 0 <= i <= |steps|
      invariant counter == multiset(Authorities(steps)[..i])
    {
      assert Authorities(steps)[..i + 1] == Authorities(steps)[..i] + [Authority(steps[i])];
      counter := counter + multiset{Authority(steps[i])};
      i := i + 1;
    }
    assert Authorities(steps)[..i] == Authorities(steps);
  }

  /**
    Whether the completed prefix differs, and whether the suffix wants an authority more often than it is available.
  */
  method CompareSteps(previous: Plan, proposed: Plan, n: nat) returns (changed: bool, expands: bool)
    requires n <= |previous.steps|
    ensures changed <==> !KeepsPrefix(previous, proposed, n)
    ensures expands <==> !(Remaining(proposed, n) <= Remaining(previous, n))
  {
    var proposedPrefix := if n <= |proposed.steps| then proposed.steps[..n] else proposed.steps;
    var same := SamePrefix(previous.steps[..n], proposedPrefix);
    changed := !same;
    var proposedSuffix := if n <= |proposed.steps| then proposed.steps[n..] else [];
    var available := CountAuthorities(previous.steps[n..]);
    var wanted := CountAuthorities(proposedSuffix);
    assert Authorities([]) == [];
    LeftoverMeansMore(wanted, available);
    expands := wanted - available != multiset{};
  }

  /** The order in which the checks are made. */
  function Rank(reason: Reason): nat {
    match reason
    case NotDirectSuccessor => 0
    case RootTaskChanged => 1
    case ContractChanged => 2
    case ScopeChanged => 3
    case PrefixChanged => 4
    case SuffixExpands => 5
    case NewCapability => 6
    case InputsChanged => 7
  }

  predicate InOrder(reasons: seq<Reason>) {
    forall i, j :: 0 <= i < j < |reasons| ==> Rank(reasons[i]) < Rank(reasons[j])
  }

  /** Adds the reason of a failed check. */
  function Note(reasons: seq<Reason>, failed: bool, reason: Reason): (r: seq<Reason>)
    requires InOrder(reasons) && forall x :: x in reasons ==> Rank(x) < Rank(reason)
    ensures forall x :: x in r <==> x in reasons || (failed && x == reason)
    ensures r == [] <==> reasons == [] && !failed
    ensures InOrder(r)
  {
    if failed then reasons + [reason] else reasons
  }

  /** Every check of a suffix replan, each with its own reason, in the order of the checks. */
  ghost predicate ReasonsFit(previous: Plan, proposed: Plan, n: nat, reasons: seq<Reason>)
    requires n <= |previous.steps|
  {
    && (NotDirectSuccessor in reasons <==> proposed.version != previous.version + 1)
    && (RootTaskChanged in reasons <==> proposed.taskId != previous.taskId)
    && (ContractChanged in reasons <==> proposed.contractId != previous.contractId)
    && (ScopeChanged in reasons <==> !SameBounds(previous.scope, proposed.scope))
    && (PrefixChanged in reasons <==>
          |proposed.steps| < n || exists i :: 0 <= i < n && proposed.steps[i] != previous.steps[i])
    && (SuffixExpands in reasons <==> !NoMoreAuthority(Rest(previous, n), Rest(proposed, n)))
    && InOrder(reasons)
  }

  /** The checks on the plans themselves. */
  method HeaderReasons(previous: Plan, proposed: Plan) returns (reasons: seq<Reason>)
    ensures forall r :: r in reasons <==> HeaderFails(previous, proposed, r)
    ensures InOrder(reasons)
    ensures reasons == [] <==>
              && proposed.version == previous.version + 1 && proposed.taskId == previous.taskId
              && proposed.contractId == previous.contractId
              && SameScope(previous.scope, proposed.scope)
  {
    reasons := Note([], proposed.version != previous.version + 1, NotDirectSuccessor);
    reasons := Note(reasons, previous.taskId != proposed.taskId, RootTaskChanged);
    reasons := Note(reasons, previous.contractId != proposed.contractId, ContractChanged);
    MutualScopesAreTheSame(previous.scope, proposed.scope);
    reasons := Note(reasons,
                    ScopeExpands(previous.scope, proposed.scope) || ScopeExpands(proposed.scope, previous.scope),
                    ScopeChanged);
  }

  predicate HeaderFails(previous: Plan, proposed: Plan, r: Reason) {
    match r
    case NotDirectSuccessor => proposed.version != previous.version + 1
    case RootTaskChanged => proposed.taskId != previous.taskId
    case ContractChanged => proposed.contractId != previous.contractId
    case ScopeChanged => !SameScope(previous.scope, proposed.scope)
    case _ => false
  }

  predicate SuffixFails(previous: Plan, proposed: Plan, n: nat, reason: Reason)
    requires n <= |previous.steps|
  {
    match reason
    case PrefixChanged => !KeepsPrefix(previous, proposed, n)
    case SuffixExpands => !(Remaining(proposed, n) <= Remaining(previous, n))
    case _ => HeaderFails(previous, proposed, reason)
  }

  method SuffixReasons(previous: Plan, proposed: Plan, n: nat) returns (reasons: seq<Reason>)
    requires n <= |previous.steps|
    ensures InOrder(reasons) && forall r :: r in reasons <==> SuffixFails(previous, proposed, n, r)
    ensures reasons == [] <==> SuffixAccepted(previous, proposed, n)
  {
    hide Remaining, KeepsPrefix, SameScope;
    reasons := HeaderReasons(previous, proposed);
    var changed, expands := CompareSteps(previous, proposed, n);
    reasons := Note(reasons, changed, PrefixChanged);
    reasons := Note(reasons, expands, SuffixExpands);
  }

  lemma FailuresAreReasons(previous: Plan, proposed: Plan, n: nat, reasons: seq<Reason>)
    requires n <= |previous.steps|
    requires InOrder(reasons) && forall r :: r in reasons <==> SuffixFails(previous, proposed, n, r)
    ensures ReasonsFit(previous, proposed, n, reasons)
  {
    hide Remaining, SameScope, SameBounds, NoMoreAuthority, Rest;
    SameScopesHaveTheSameBounds(previous.scope, proposed.scope);
    RemainingIsCounted(previous, proposed, n);
    if n <= |proposed.steps| {
      assert (forall i :: 0 <= i < n ==> proposed.steps[i] == previous.steps[i])
          <==> proposed.steps[..n] == previous.steps[..n];
    }
  }

  /** Assesses a replacement of everything after the completed prefix; every failed check adds its reason. */
  method AssessSuffixReplan(previous: Plan, proposed: Plan, completedPrefixLength: int)
    returns (r: Result<Assessment, string>)
    ensures r.Refused? <==> completedPrefixLength < 0 || completedPrefixLength > |previous.steps|
    ensures r.Ok? ==>
              var n := completedPrefixLength; var a := r.value;
              && (!a.requiresReauthorization <==> SuffixAccepted(previous, proposed, n))
              && (!a.requiresReauthorization <==> KeepsAuthority(previous, proposed, n))
              && ReasonsFit(previous, proposed, n, a.reasons)
              && (a.requiresReauthorization <==> a.reasons != [])
              && a.invalidatedContractIds == (if a.requiresReauthorization then {previous.contractId} else {})
              && (forall id :: id in a.invalidatedGrantIds <==>
                    a.requiresReauthorization
                    && exists i :: n <= i < |previous.steps| && previous.steps[i].grantId == id)
              && |a.acceptedSuffixStepIds| == (if a.requiresReauthorization then 0 else |proposed.steps| - n)
              && (forall i :: 0 <= i < |a.acceptedSuffixStepIds| ==>
                    n + i < |proposed.steps| && a.acceptedSuffixStepIds[i] == proposed.steps[n + i].stepId)
              && a.completedPrefixLength == n
  {
    hide SameBounds, NoMoreAuthority, Remaining, SameScope;
    var n := completedPrefixLength;
    if n < 0 || n > |previous.steps| {
      return Refused("Completed prefix length is outside the previous plan");
    }
    var reasons := SuffixReasons(previous, proposed, n);
    AcceptedMeansKept(previous, proposed, n);
    FailuresAreReasons(previous, proposed, n, reasons);
    GrantsOfSuffix(previous.steps, n);
    var previousSuffix := previous.steps[n..];
    var proposedSuffix := if n <= |proposed.steps| then proposed.steps[n..] else [];
    if reasons != [] {
      return Ok(Assessment(true, {previous.contractId}, GrantIds(previousSuffix), n, [], reasons));
    }
    return Ok(Assessment(false, {}, {}, n, StepIds(proposedSuffix), reasons));
  }

  lemma GrantsOfSuffix(steps: seq<PlanStep>, n: nat)
    requires n <= |steps|
    ensures forall id :: id in GrantIds(steps[n..]) <==> exists i :: n <= i < |steps| && steps[i].grantId == id
  {
    forall i | n <= i < |steps| ensures steps[i].grantId in GrantIds(steps[n..]) {
      assert steps[n..][i - n] == steps[i];
    }
  }

  lemma LeftoverMeansMore<T>(a: multiset<T>, b: multiset<T>)
    ensures a - b == multiset{} <==> a <= b
  {
    if a - b == multiset{} {
      forall x ensures a[x] <= b[x] {
        assert (a - b)[x] == 0;
      }
    }
  }

  // ----- Any number of replans -----------------------------------------------

  /** Accepted replans one after the other, over a completed prefix that only grows. */
  predicate Chain(plans: seq<Plan>, completed: seq<nat>) {
    && |plans| == |completed| + 1
    && (forall i :: 0 <= i < |completed| ==> SuffixAccepted(plans[i], plans[i + 1], completed[i]))
    && (forall i, j :: 0 <= i < j < |completed| ==> completed[i] <= completed[j])
  }

  /** The first `n` steps of `early` are literally those of `late`. */
  predicate KeepsCompleted(early: Plan, late: Plan, n: nat) {
    n <= |early.steps| && n <= |late.steps| && late.steps[..n] == early.steps[..n]
  }

  lemma PrefixSurvives(early: Plan, before: Plan, late: Plan, m: nat, n: nat)
    requires KeepsCompleted(early, before, m) && KeepsCompleted(before, late, n) && m <= n
    ensures KeepsCompleted(early, late, m)
  {
    assert late.steps[..m] == late.steps[..n][..m];
    assert before.steps[..m] == before.steps[..n][..m];
  }

  lemma AuthoritiesSplit(steps: seq<PlanStep>, n: nat)
    requires n <= |steps|
    ensures Authorities(steps) == Authorities(steps[..n]) + Authorities(steps[n..])
    ensures multiset(Authorities(steps)) == multiset(Authorities(steps[..n])) + multiset(Authorities(steps[n..]))
  {
    assert Authorities(steps) == Authorities(steps[..n]) + Authorities(steps[n..]);
  }

  /**
    One accepted replan never adds authority to the whole plan, nor to what is left after any earlier point of the
    prefix.
  */
  lemma ReplanAddsNoAuthority(previous: Plan, proposed: Plan, n: nat, m: nat)
    requires SuffixAccepted(previous, proposed, n) && m <= n
    ensures Remaining(proposed, m) <= Remaining(previous, m)
    ensures NoMoreAuthority(Rest(previous, m), Rest(proposed, m))
  {
    hide NoMoreAuthority, SameScope, Rest;
    RemainingIsCounted(previous, proposed, m);
    RemainingSplits(previous, proposed, n, m);
  }

  lemma RemainingSplits(previous: Plan, proposed: Plan, n: nat, m: nat)
    requires n <= |previous.steps| && KeepsPrefix(previous, proposed, n) && m <= n
    requires Remaining(proposed, n) <= Remaining(previous, n)
    ensures Remaining(proposed, m) <= Remaining(previous, m)
  {
    hide Authorities;
    RemainingBehind(previous, n, m);
    RemainingBehind(proposed, n, m);
    assert previous.steps[m..n] == previous.steps[..n][m..] == proposed.steps[m..n];
  }

  lemma RemainingBehind(plan: Plan, n: nat, m: nat)
    requires m <= n <= |plan.steps|
    ensures Remaining(plan, m) == multiset(Authorities(plan.steps[m..n])) + Remaining(plan, n)
  {
    hide Authorities;
    AuthoritiesSplit(plan.steps[m..], n - m);
    assert plan.steps[m..][..n - m] == plan.steps[m..n] && plan.steps[m..][n - m..] == plan.steps[n..];
  }

  /**
    Over any chain of accepted replans: the version counts the replans, the root task, the contract and the scope stay
    the same, every completed prefix survives literally, and the last plan has no authority, and no step, the first
    one did not have.
  */
  lemma {:induction false} ReplansCompose(plans: seq<Plan>, completed: seq<nat>)
    requires Chain(plans, completed)
    ensures var first, last := plans[0], plans[|completed|];
            && last.version == first.version + |completed|
            && last.taskId == first.taskId && last.contractId == first.contractId
            && SameBounds(first.scope, last.scope) && SameScope(first.scope, last.scope)
            && NoMoreAuthority(first.steps, last.steps) && Remaining(last, 0) <= Remaining(first, 0)
            && |last.steps| <= |first.steps|
            && (forall i :: 0 <= i < |completed| ==> KeepsCompleted(plans[i], last, completed[i]))
  {
    hide NoMoreAuthority, SameBounds;
    var k := |completed|;
    if k > 0 {
      var n := completed[k - 1];
      var before, last := plans[k - 1], plans[k];
      ReplansCompose(plans[..k], completed[..k - 1]);
      ReplanAddsNoAuthority(before, last, n, 0);
      forall i | 0 <= i < k ensures KeepsCompleted(plans[i], last, completed[i]) {
        if i < k - 1 {
          assert completed[..k - 1][i] == completed[i] && plans[..k][i] == plans[i];
          PrefixSurvives(plans[i], before, last, completed[i], n);
        }
      }
    }
    RemainingIsCounted(plans[0], plans[k], 0);
    SameScopesHaveTheSameBounds(plans[0].scope, plans[k].scope);
    StepsAreCounted(plans[0]);
    StepsAreCounted(plans[k]);
    SmallerIsNoLonger(Remaining(plans[k], 0), Remaining(plans[0], 0));
  }

  lemma StepsAreCounted(plan: Plan)
    ensures |Remaining(plan, 0)| == |plan.steps|
  {
    assert plan.steps[0..] == plan.steps;
  }

  lemma SmallerIsNoLonger<T>(a: multiset<T>, b: multiset<T>)
    requires a <= b
    ensures |a| <= |b|
  {
    assert b == a + (b - a);
  }

  // ----- The older assessment ------------------------------------------------

  /** The step a replan compares a step id with: the last one of that id. */
  function StepById(steps: seq<PlanStep>, stepId: string): Option<PlanStep> {
    if steps == [] then None
    else if steps[|steps| - 1].stepId == stepId then Some(steps[|steps| - 1])
    else StepById(steps[..|steps| - 1], stepId)
  }

  function Capabilities(steps: seq<PlanStep>): set<string> {
    set i | 0 <= i < |steps| :: steps[i].capabilityId
  }

  function StepIdSet(steps: seq<PlanStep>): set<string> {
    set i | 0 <= i < |steps| :: steps[i].stepId
  }

  /** The same business facts under the same step id. */
  predicate SameFacts(previous: seq<PlanStep>, step: PlanStep) {
    var known := StepById(previous, step.stepId);
    known.Some? && known.value.capabilityId == step.capabilityId && known.value.inputs == step.inputs
        && known.value.expectedTransition == step.expectedTransition
  }

  predicate InputsUnchanged(previous: seq<PlanStep>, proposed: seq<PlanStep>) {
    StepIdSet(previous) == StepIdSet(proposed) && forall i :: 0 <= i < |proposed| ==> SameFacts(previous, proposed[i])
  }

  lemma {:induction false} StepByIdFinds(steps: seq<PlanStep>, stepId: string)
    ensures StepById(steps, stepId).Some? <==> stepId in StepIdSet(steps)
    ensures StepById(steps, stepId).Some? ==>
        StepById(steps, stepId).value in steps && StepById(steps, stepId).value.stepId == stepId
  {
    if steps != [] {
      StepByIdFinds(steps[..|steps| - 1], stepId);
    }
  }

  predicate HasStep(steps: seq<PlanStep>, stepId: string) {
    exists i :: 0 <= i < |steps| && steps[i].stepId == stepId
  }

  /** No later step has its id. */
  predicate IsLast(steps: seq<PlanStep>, i: nat)
    requires i < |steps|
  {
    forall k :: i < k < |steps| ==> steps[k].stepId != steps[i].stepId
  }

  /** The same step ids, and each proposed step with the facts the last step of its id had. */
  ghost predicate KeepsFacts(previous: seq<PlanStep>, proposed: seq<PlanStep>) {
    && (forall id :: HasStep(previous, id) <==> HasStep(proposed, id))
    && (forall i, j ::
          0 <= i < |previous| && 0 <= j < |proposed| && IsLast(previous, i) && previous[i].stepId == proposed[j].stepId
          ==> && previous[i].capabilityId == proposed[j].capabilityId && previous[i].inputs == proposed[j].inputs
              && previous[i].expectedTransition == proposed[j].expectedTransition)
  }

  lemma {:induction false} StepByIdIsLast(steps: seq<PlanStep>, stepId: string)
    ensures forall i :: 0 <= i < |steps| && IsLast(steps, i) && steps[i].stepId == stepId ==>
                          StepById(steps, stepId) == Some(steps[i])
    ensures StepById(steps, stepId).Some? ==>
              exists i :: && 0 <= i < |steps| && IsLast(steps, i) && steps[i].stepId == stepId
                          && StepById(steps, stepId).value == steps[i]
  {
    if steps != [] {
      var n := |steps| - 1;
      StepByIdIsLast(steps[..n], stepId);
      if steps[n].stepId == stepId {
        assert IsLast(steps, n);
      } else {
        assert forall i :: 0 <= i < n && steps[i].stepId == stepId ==> (IsLast(steps, i) <==> IsLast(steps[..n], i));
        if StepById(steps, stepId).Some? {
          var i :| && 0 <= i < n && IsLast(steps[..n], i) && steps[..n][i].stepId == stepId
                   && StepById(steps, stepId).value == steps[..n][i];
          assert IsLast(steps, i);
        }
      }
    }
  }

  lemma UnchangedInputsKeepTheFacts(previous: seq<PlanStep>, proposed: seq<PlanStep>)
    ensures InputsUnchanged(previous, proposed) <==> KeepsFacts(previous, proposed)
  {
    hide IsLast, SameFacts;
    SameIdsAreSameSteps(previous, proposed);
    if InputsUnchanged(previous, proposed) {
      forall i, j | 0 <= i < |previous| && 0 <= j < |proposed| && IsLast(previous, i)
                    && previous[i].stepId == proposed[j].stepId
        ensures && previous[i].capabilityId == proposed[j].capabilityId && previous[i].inputs == proposed[j].inputs
                && previous[i].expectedTransition == proposed[j].expectedTransition
      {
        assert SameFacts(previous, proposed[j]);
        SameFactsAreOfTheLast(previous, i, proposed[j]);
      }
    }
    if KeepsFacts(previous, proposed) {
      forall j | 0 <= j < |proposed| ensures SameFacts(previous, proposed[j]) {
        assert HasStep(proposed, proposed[j].stepId);
        var i := LastOf(previous, proposed[j].stepId);
        SameFactsAreOfTheLast(previous, i, proposed[j]);
      }
    }
  }

  lemma SameIdsAreSameSteps(previous: seq<PlanStep>, proposed: seq<PlanStep>)
    ensures StepIdSet(previous) == StepIdSet(proposed) <==>
              forall id :: HasStep(previous, id) <==> HasStep(proposed, id)
  {
    assert forall id :: id in StepIdSet(previous) <==> HasStep(previous, id);
    assert forall id :: id in StepIdSet(proposed) <==> HasStep(proposed, id);
  }

  lemma LastOf(steps: seq<PlanStep>, stepId: string) returns (i: nat)
    requires HasStep(steps, stepId)
    ensures i < |steps| && IsLast(steps, i) && steps[i].stepId == stepId
  {
    StepByIdFinds(steps, stepId);
    StepByIdIsLast(steps, stepId);
    i :| && 0 <= i < |steps| && IsLast(steps, i) && steps[i].stepId == stepId
         && StepById(steps, stepId).value == steps[i];
  }

  lemma SameFactsAreOfTheLast(steps: seq<PlanStep>, i: nat, step: PlanStep)
    requires i < |steps| && IsLast(steps, i) && steps[i].stepId == step.stepId
    ensures SameFacts(steps, step) <==>
              && steps[i].capabilityId == step.capabilityId && steps[i].inputs == step.inputs
              && steps[i].expectedTransition == step.expectedTransition
  {
    StepByIdIsLast(steps, step.stepId);
  }

  /** The proposed scope stays within the previous one, on the scopes' own fields. */
  predicate StaysWithin(previous: Scope, proposed: Scope) {
    && proposed.departmentId == previous.departmentId && proposed.businessLineId == previous.businessLineId
    && (forall resource :: resource in proposed.resourceIds ==> resource in previous.resourceIds)
    && (forall key :: key in proposed.attributes && key in previous.attributes ==>
                        proposed.attributes[key] == previous.attributes[key])
    && (forall key :: key in proposed.attributes && key !in previous.attributes ==> proposed.attributes[key].JNull?)
  }

  /**
    A whole-plan replan needs no new authorization when the contract, the step ids, their facts and the scope's bounds
    hold.
  */
  predicate ReplanAccepted(previous: Plan, proposed: Plan) {
    proposed.contractId == previous.contractId && !ScopeExpands(previous.scope, proposed.scope)
        && InputsUnchanged(previous.steps, proposed.steps)
  }

  method BusinessInputsChanged(previous: seq<PlanStep>, proposed: seq<PlanStep>) returns (changed: bool)
    ensures changed <==> !InputsUnchanged(previous, proposed)
  {
    var byStep: map<string, PlanStep> := map[];
    var i := 0;
    while i < |previous|
      invariant 0 <= i <= |previous|
      invariant forall id :: id in byStep <==> StepById(previous[..i], id).Some?
      invariant forall id :: id in byStep ==> StepById(previous[..i], id) == Some(byStep[id])
    {
      assert previous[..i + 1][..i] == previous[..i];
      byStep := byStep[previous[i].stepId := previous[i]];
      i := i + 1;
    }
    assert previous[..i] == previous;
    forall id ensures id in byStep <==> id in StepIdSet(previous) {
      StepByIdFinds(previous, id);
    }
    if byStep.Keys != StepIdSet(proposed) {
      return true;
    }
    i := 0;
    while i < |proposed|
      invariant 0 <= i <= |proposed|
      invariant forall j :: 0 <= j < i ==> SameFacts(previous, proposed[j])
    {
      assert proposed[i].stepId in StepIdSet(proposed);
      var known := byStep[proposed[i].stepId];
      if known.capabilityId != proposed[i].capabilityId || known.inputs != proposed[i].inputs
        || known.expectedTransition != proposed[i].expectedTransition {
        return true;
      }
      i := i + 1;
    }
    return false;
  }

  predicate ReplanFails(previous: Plan, proposed: Plan, reason: Reason) {
    match reason
    case ContractChanged => proposed.contractId != previous.contractId
    case ScopeChanged => ScopeExpands(previous.scope, proposed.scope)
    case NewCapability => !(Capabilities(proposed.steps) <= Capabilities(previous.steps))
    case InputsChanged => !InputsUnchanged(previous.steps, proposed.steps)
    case _ => false
  }

  method ReplanReasons(previous: Plan, proposed: Plan) returns (reasons: seq<Reason>, contractIds: set<string>)
    ensures InOrder(reasons) && forall reason :: reason in reasons <==> ReplanFails(previous, proposed, reason)
    ensures contractIds == if reasons == [] then {} else {previous.contractId}
    ensures reasons == [] <==> ReplanAccepted(previous, proposed)
  {
    hide ScopeExpands, Capabilities, InputsUnchanged;
    reasons, contractIds := [], {};
    if previous.contractId != proposed.contractId {
      reasons, contractIds := reasons + [ContractChanged], contractIds + {previous.contractId};
    }
    if ScopeExpands(previous.scope, proposed.scope) {
      reasons, contractIds := reasons + [ScopeChanged], contractIds + {previous.contractId};
    }
    if !(Capabilities(proposed.steps) <= Capabilities(previous.steps)) {
      reasons, contractIds := reasons + [NewCapability], contractIds + {previous.contractId};
    }
    var changed := BusinessInputsChanged(previous.steps, proposed.steps);
    if changed {
      reasons, contractIds := reasons + [InputsChanged], contractIds + {previous.contractId};
    }
    SameFactsBringNoCapability(previous, proposed);
  }

  method AssessReplan(previous: Plan, proposed: Plan) returns (a: Assessment)
    ensures !a.requiresReauthorization <==> ReplanAccepted(previous, proposed)
    ensures !a.requiresReauthorization <==>
              && proposed.contractId == previous.contractId && StaysWithin(previous.scope, proposed.scope)
              && KeepsFacts(previous.steps, proposed.steps)
    ensures a.requiresReauthorization <==> a.reasons != []
    ensures a.invalidatedContractIds == (if a.requiresReauthorization then {previous.contractId} else {})
    ensures forall id :: id in a.invalidatedGrantIds <==>
                           a.requiresReauthorization
                           && exists i :: 0 <= i < |previous.steps| && previous.steps[i].grantId == id
    ensures a.completedPrefixLength == 0 && a.acceptedSuffixStepIds == []
    ensures InOrder(a.reasons)
            && forall reason :: reason in a.reasons ==>
                                  reason in {ContractChanged, ScopeChanged, NewCapability, InputsChanged}
    ensures ContractChanged in a.reasons <==> proposed.contractId != previous.contractId
    ensures ScopeChanged in a.reasons <==> !StaysWithin(previous.scope, proposed.scope)
    ensures NewCapability in a.reasons <==>
              exists i :: 0 <= i < |proposed.steps| && !UsesCapability(previous.steps, proposed.steps[i].capabilityId)
    ensures InputsChanged in a.reasons <==> !KeepsFacts(previous.steps, proposed.steps)
  {
    hide KeepsFacts, InputsUnchanged, StaysWithin, ScopeExpands, UsesCapability, Capabilities, GrantIds;
    WithinIsNotExpanding(previous.scope, proposed.scope);
    GrantsOfSuffix(previous.steps, 0);
    assert previous.steps[0..] == previous.steps;
    UnchangedInputsKeepTheFacts(previous.steps, proposed.steps);
    CapabilitiesAreOfSteps(previous.steps, proposed.steps);
    var reasons, contractIds := ReplanReasons(previous, proposed);
    return Assessment(reasons != [], contractIds, if reasons != [] then GrantIds(previous.steps) else {}, 0, [],
                      reasons);
  }

  predicate UsesCapability(steps: seq<PlanStep>, capabilityId: string) {
    exists i :: 0 <= i < |steps| && steps[i].capabilityId == capabilityId
  }

  lemma WithinIsNotExpanding(previous: Scope, proposed: Scope)
    ensures StaysWithin(previous, proposed) <==> !ScopeExpands(previous, proposed)
  {
  }

  lemma CapabilitiesAreOfSteps(previous: seq<PlanStep>, proposed: seq<PlanStep>)
    ensures Capabilities(proposed) <= Capabilities(previous) <==>
            forall i :: 0 <= i < |proposed| ==> UsesCapability(previous, proposed[i].capabilityId)
  {
    assert forall id :: id in Capabilities(previous) <==> UsesCapability(previous, id);
    forall i | 0 <= i < |proposed| ensures proposed[i].capabilityId in Capabilities(proposed) {
    }
  }

  /** The capability check never decides alone: plans with the same facts use no new capability. */
  lemma SameFactsBringNoCapability(previous: Plan, proposed: Plan)
    ensures InputsUnchanged(previous.steps, proposed.steps) ==>
        Capabilities(proposed.steps) <= Capabilities(previous.steps)
  {
    if InputsUnchanged(previous.steps, proposed.steps) {
      forall i | 0 <= i < |proposed.steps| ensures proposed.steps[i].capabilityId in Capabilities(previous.steps) {
        assert SameFacts(previous.steps, proposed.steps[i]);
        StepByIdFinds(previous.steps, proposed.steps[i].stepId);
      }
    }
  }

  // ----- What the older assessment leaves open -------------------------------

  /** What it compares of a step. */
  function StepFacts(step: PlanStep): PlanStep {
    step.(grantId := "", capabilityVersion := None, contractId := "", successCriteria := [])
  }

  function FactsOf(steps: seq<PlanStep>): set<PlanStep> {
    set step | step in steps :: StepFacts(step)
  }

  /** The facts of the last step of every id. */
  function LastFacts(steps: seq<PlanStep>): set<PlanStep> {
    set step | step in steps && StepById(steps, step.stepId) == Some(step) :: StepFacts(step)
  }

  predicate UniqueIds(steps: seq<PlanStep>) {
    forall i, j :: 0 <= i < j < |steps| ==> steps[i].stepId != steps[j].stepId
  }

  lemma SameFactsAreLastFacts(previous: seq<PlanStep>, step: PlanStep)
    ensures SameFacts(previous, step) <==> StepFacts(step) in LastFacts(previous)
  {
    StepByIdFinds(previous, step.stepId);
    if SameFacts(previous, step) {
      var known := StepById(previous, step.stepId).value;
      assert StepFacts(known) == StepFacts(step);
    }
    if StepFacts(step) in LastFacts(previous) {
      var known :| known in previous && StepById(previous, known.stepId) == Some(known)
        && StepFacts(known) == StepFacts(step);
      assert known.stepId == StepFacts(known).stepId == step.stepId;
      assert known.capabilityId == StepFacts(known).capabilityId && known.inputs == StepFacts(known).inputs;
      assert known.expectedTransition == StepFacts(known).expectedTransition;
    }
  }

  lemma EveryIdHasLastFacts(previous: seq<PlanStep>, stepId: string)
    ensures stepId in StepIdSet(previous) <==> exists facts :: facts in LastFacts(previous) && facts.stepId == stepId
  {
    StepByIdFinds(previous, stepId);
    if stepId in StepIdSet(previous) {
      var known := StepById(previous, stepId).value;
      assert StepFacts(known) in LastFacts(previous) && StepFacts(known).stepId == stepId;
    }
  }

  /**
    The inputs count as unchanged exactly when the two plans state the same set of facts, in any order and any number.
  */
  lemma UnchangedInputsAreTheSameFacts(previous: seq<PlanStep>, proposed: seq<PlanStep>)
    ensures InputsUnchanged(previous, proposed) <==> FactsOf(proposed) == LastFacts(previous)
  {
    forall step | step in proposed ensures SameFacts(previous, step) <==> StepFacts(step) in LastFacts(previous) {
      SameFactsAreLastFacts(previous, step);
    }
    if InputsUnchanged(previous, proposed) {
      forall facts | facts in LastFacts(previous) ensures facts in FactsOf(proposed) {
        EveryIdHasLastFacts(previous, facts.stepId);
        var i :| 0 <= i < |proposed| && proposed[i].stepId == facts.stepId;
        assert SameFacts(previous, proposed[i]);
        var known :| known in previous && StepById(previous, known.stepId) == Some(known) && StepFacts(known) == facts;
        assert known.stepId == StepFacts(known).stepId;
        assert StepFacts(proposed[i]) == facts;
      }
    }
    if FactsOf(proposed) == LastFacts(previous) {
      forall i | 0 <= i < |proposed| ensures SameFacts(previous, proposed[i]) {
        assert StepFacts(proposed[i]) in FactsOf(proposed);
      }
      forall id ensures id in StepIdSet(previous) <==> id in StepIdSet(proposed) {
        EveryIdHasLastFacts(previous, id);
        if id in StepIdSet(previous) {
          var facts :| facts in LastFacts(previous) && facts.stepId == id;
          var step :| step in proposed && StepFacts(step) == facts;
          assert step.stepId == StepFacts(step).stepId;
        }
        if id in StepIdSet(proposed) {
          var i :| 0 <= i < |proposed| && proposed[i].stepId == id;
          assert StepFacts(proposed[i]) in FactsOf(proposed) && StepFacts(proposed[i]).stepId == id;
        }
      }
    }
  }

  lemma {:induction false} UniqueIdsAreLast(steps: seq<PlanStep>)
    requires UniqueIds(steps)
    ensures forall step :: step in steps ==> StepById(steps, step.stepId) == Some(step)
  {
    if steps != [] {
      var front := steps[..|steps| - 1];
      UniqueIdsAreLast(front);
      forall step | step in steps ensures StepById(steps, step.stepId) == Some(step) {
        if step != steps[|steps| - 1] {
          assert step in front;
        }
      }
    }
  }

  /**
    A whole-plan replan is accepted exactly when it keeps the contract, does not expand the scope and states the same
    set of facts.  Everything else is open: grants, capability versions, the contracts named by steps, success criteria,
    the order of the steps, and how often each of them occurs.
  */
  lemma WhatAnAcceptedReplanKeeps(previous: Plan, proposed: Plan)
    ensures ReplanAccepted(previous, proposed) <==>
              && proposed.contractId == previous.contractId && !ScopeExpands(previous.scope, proposed.scope)
              && FactsOf(proposed.steps) == LastFacts(previous.steps)
    ensures ReplanAccepted(previous, proposed) <==>
              && proposed.contractId == previous.contractId && StaysWithin(previous.scope, proposed.scope)
              && KeepsFacts(previous.steps, proposed.steps)
    ensures UniqueIds(previous.steps) ==> LastFacts(previous.steps) == FactsOf(previous.steps)
  {
    hide KeepsFacts, InputsUnchanged, FactsOf, LastFacts, StaysWithin, ScopeExpands;
    UnchangedInputsAreTheSameFacts(previous.steps, proposed.steps);
    UnchangedInputsKeepTheFacts(previous.steps, proposed.steps);
    WithinIsNotExpanding(previous.scope, proposed.scope);
    if UniqueIds(previous.steps) {
      LastFactsAreAll(previous.steps);
    }
  }

  lemma LastFactsAreAll(steps: seq<PlanStep>)
    requires UniqueIds(steps)
    ensures LastFacts(steps) == FactsOf(steps)
  {
    UniqueIdsAreLast(steps);
  }

  function TransferStep(grantId: string, version: string): PlanStep {
    PlanStep("step", "transfer", Some(version), grantId, "contract", map[], map[], [])
  }

  function TransferPlan(version: nat, steps: seq<PlanStep>): Plan {
    Plan("plan", None, "task", "contract", Scope(None, None, {}, map[]), version, steps)
  }

  /**
    A replan that runs its step twice, under another grant and another version of the capability, is accepted by the one
    assessment and refused by the other.
  */
  lemma AnAcceptedReplanMaySwapGrants()
    ensures var previous, proposed := TransferPlan(1, [TransferStep("a", "1")]),
        TransferPlan(2, [TransferStep("b", "2"), TransferStep("b", "2")]);
            ReplanAccepted(previous, proposed) && GrantIds(previous.steps) !! GrantIds(proposed.steps)
                && !SuffixAccepted(previous, proposed, 0)
  {
    var previous, proposed := TransferPlan(1, [TransferStep("a", "1")]),
      TransferPlan(2, [TransferStep("b", "2"), TransferStep("b", "2")]);
    assert previous.steps[0].stepId == proposed.steps[0].stepId == "step";
    assert StepIdSet(previous.steps) == {"step"} == StepIdSet(proposed.steps);
    var swapped := Authority(TransferStep("b", "2"));
    assert Authorities(previous.steps[0..]) == [Authority(TransferStep("a", "1"))]
        && Authorities(proposed.steps[0..]) == [swapped, swapped];
    assert Remaining(previous, 0)[swapped] == 0 && Remaining(proposed, 0)[swapped] == 2;
  }
}
