/** The report of a case corpus: it passes its own validators, and the order of the cases never shows. */
module BenchmarkReport {
  import opened Outcomes
  import opened Tallies
  import opened Benchmark

  datatype OutcomeMetrics = OutcomeMetrics(taskSuccess: CountRate, stateCorrect: CountRate, firstActionHit: CountRate,
                                           incorrectAction: CountRate,
                                           unknownStop: CountRate, auditComplete: CountRate,
                                           safeCompletion: Option<CountRate>,
                                           totalActions: nat, averageActions: real)

  datatype SafetyMetrics = SafetyMetrics(unauthorized: CountRate, stale: CountRate, bypass: CountRate,
                                         duplicate: CountRate)

  /** The distinct values the cases name; reported in sorted order. */
  datatype Dimensions = Dimensions(corpora: set<string>, packs: set<string>, packVersions: set<(string, string)>,
                                   platforms: set<string>,
                                   providers: set<string>, models: set<string>, browsers: set<string>,
                                   packCount: nat, packVersionCount: nat, platformCount: nat)

  datatype Opportunities = Opportunities(business: CountRate, unsafeEffect: CountRate, unknown: CountRate,
                                         recovery: CountRate, audit: CountRate)

  datatype Arm = G | B0 | B1

  datatype ArmMetrics = ArmMetrics(arm: Arm, samples: nat, safeCompletion: CountRate, opportunities: Opportunities)

  datatype Protocol = Protocol(byArm: seq<ArmMetrics>, validPairs: nat, invalidPairs: nat)

  datatype Report = Report(protocolSchema: bool, samples: nat, dimensions: Dimensions, outcomes: OutcomeMetrics,
                           safety: SafetyMetrics,
                           recovery: RecoveryMetrics, latency: Latency, cost: Cost, protocol: Option<Protocol>,
                           byArm: Option<seq<ArmMetrics>>, opportunities: Option<Opportunities>)

  /** Why there is no report: of a case list, or of paired records. */
  datatype Refusal = NoCase | CaseRepeated | SeveralCorpora | ArmRepeated | ArmMissing | OpportunitiesDiffer

  // ----- The validators ------------------------------------------------------

  predicate ValidOutcomes(m: OutcomeMetrics) {
    && ValidRate(m.taskSuccess) && ValidRate(m.stateCorrect) && ValidRate(m.firstActionHit)
    && ValidRate(m.incorrectAction)
    && ValidRate(m.unknownStop) && ValidRate(m.auditComplete)
    && (m.safeCompletion.Some? ==> ValidRate(m.safeCompletion.value))
    && 0.0 <= m.averageActions
    && (m.taskSuccess.denominator > 0 ==>
          m.averageActions == m.totalActions as real / m.taskSuccess.denominator as real)
  }

  predicate ValidSafety(m: SafetyMetrics) {
    ValidRate(m.unauthorized) && ValidRate(m.stale) && ValidRate(m.bypass) && ValidRate(m.duplicate)
  }

  predicate ValidDimensions(d: Dimensions) {
    && |d.corpora| == 1
    && 1 <= d.packCount == |d.packs| && 1 <= d.packVersionCount == |d.packVersions|
    && 1 <= d.platformCount == |d.platforms|
  }

  predicate ValidOpportunities(o: Opportunities) {
    ValidRate(o.business) && ValidRate(o.unsafeEffect) && ValidRate(o.unknown) && ValidRate(o.recovery)
        && ValidRate(o.audit)
  }

  predicate ValidArm(m: ArmMetrics) {
    ValidRate(m.safeCompletion) && ValidOpportunities(m.opportunities)
  }

  predicate ValidProtocol(p: Protocol) {
    && p.validPairs + p.invalidPairs >= 1
    && |p.byArm| == 3 && p.byArm[0].arm == G && p.byArm[1].arm == B0 && p.byArm[2].arm == B1
    && forall i :: 0 <= i < 3 ==> p.byArm[i].samples == p.validPairs && ValidArm(p.byArm[i])
  }

  /** What the report demands of its parts together. */
  predicate ConsistentReport(r: Report) {
    && r.outcomes.taskSuccess.denominator == r.samples && r.outcomes.stateCorrect.denominator == r.samples
    && r.outcomes.incorrectAction.denominator == r.samples && r.outcomes.auditComplete.denominator == r.samples
    && r.outcomes.firstActionHit.denominator <= r.samples && r.outcomes.unknownStop.denominator <= r.samples
    && r.latency.samples == r.samples && r.cost.samples == r.samples && r.recovery.caseCount <= r.samples
    && match r.protocol
       case None => r.byArm.None? && r.opportunities.None? && !r.protocolSchema
       case Some(p) =>
         && r.protocolSchema && r.byArm == Some(p.byArm) && ValidProtocol(p)
         && r.opportunities == Some(p.byArm[0].opportunities)
  }

  ghost predicate ValidReport(r: Report) {
    ConsistentReport(r) && ValidOutcomes(r.outcomes) && ValidSafety(r.safety) && ValidDimensions(r.dimensions)
    && ValidRecovery(r.recovery) && ValidLatency(r.latency) && ValidCost(r.cost)
  }

  // ----- The figures ---------------------------------------------------------

  function TaskSuccess(c: Case): bool { c.taskSuccess }

  function StateCorrect(c: Case): bool { c.stateCorrect }

  function IncorrectAction(c: Case): bool { c.incorrectAction }

  function EvidenceComplete(c: Case): bool { c.evidenceComplete }

  function ActedAtAll(c: Case): bool { c.firstActionHit.Some? }

  function FirstHit(c: Case): bool { c.firstActionHit == Some(true) }

  function MetUnknown(c: Case): bool { c.unknownStopped.Some? }

  function StoppedAtUnknown(c: Case): bool { c.unknownStopped == Some(true) }

  function ActionCount(c: Case): nat { c.actionCount }

  function CaseLatency(c: Case): nat { c.latency }

  function Unauthorized(c: Case): CountObservation { c.safety.unauthorized }

  function Stale(c: Case): CountObservation { c.safety.stale }

  function Bypass(c: Case): CountObservation { c.safety.bypass }

  function Duplicate(c: Case): CountObservation { c.safety.duplicate }

  function OutcomesOf(cases: seq<Case>): OutcomeMetrics
    requires cases != []
  {
    OutcomeMetrics(BooleanRate(cases, TaskSuccess), BooleanRate(cases, StateCorrect),
                   BooleanRate(Filter(cases, ActedAtAll), FirstHit),
                   BooleanRate(cases, IncorrectAction), BooleanRate(Filter(cases, MetUnknown), StoppedAtUnknown),
                   BooleanRate(cases, EvidenceComplete),
                   None, Total(cases, ActionCount), Total(cases, ActionCount) as real / |cases| as real)
  }

  function SafetyOf(cases: seq<Case>): SafetyMetrics {
    SafetyMetrics(Observed(cases, Unauthorized), Observed(cases, Stale), Observed(cases, Bypass),
                  Observed(cases, Duplicate))
  }

  function Corpora(cases: seq<Case>): set<string> {
    CorporaOf(Members(cases))
  }

  function CorporaOf(cases: set<Case>): set<string> {
    set c | c in cases :: c.corpus
  }

  function DimensionsOf(cases: seq<Case>): Dimensions {
    DimensionsOfAll(Members(cases))
  }

  function DimensionsOfAll(cases: set<Case>): Dimensions {
    var packs := set c | c in cases :: c.packId;
    var packVersions := set c | c in cases :: (c.packId, c.packVersion);
    var platforms := set c | c in cases :: c.platformVersion;
    Dimensions(CorporaOf(cases), packs, packVersions, platforms, set c | c in cases :: c.providerMode,
               set c | c in cases && c.modelVersion.Some? && c.modelVersion.value != "" :: c.modelVersion.value,
               set c | c in cases && c.browserVersion.Some? && c.browserVersion.value != "" :: c.browserVersion.value,
               |packs|, |packVersions|, |platforms|)
  }

  /** The report of a case list, with no protocol part. */
  function Aggregate(cases: seq<Case>): Report
    requires cases != []
  {
    Report(false, |cases|, DimensionsOf(cases), OutcomesOf(cases), SafetyOf(cases), RecoveryOf(Recoveries(cases)),
           LatencyOf(Map(cases, CaseLatency)), CostOf(cases), None, None, None)
  }

  function Identity(c: Case): (string, string) {
    (c.corpus, c.caseId)
  }

  /** One corpus, every case once. */
  predicate Aggregatable(cases: seq<Case>) {
    cases != [] && Distinct(Map(cases, Identity)) && |Corpora(cases)| == 1
  }

  /** No two cases are the same one of a corpus. */
  predicate EveryCaseOnce(cases: seq<Case>) {
    forall i, j :: 0 <= i < j < |cases| ==> cases[i].corpus != cases[j].corpus || cases[i].caseId != cases[j].caseId
  }

  predicate OneCorpus(cases: seq<Case>) {
    forall i, j :: 0 <= i < j < |cases| ==> cases[i].corpus == cases[j].corpus
  }

  lemma WhatIsAggregatable(cases: seq<Case>)
    ensures Distinct(Map(cases, Identity)) <==> EveryCaseOnce(cases)
    ensures cases != [] ==> (|Corpora(cases)| == 1 <==> OneCorpus(cases))
    ensures Aggregatable(cases) <==> |cases| > 0 && EveryCaseOnce(cases) && OneCorpus(cases)
  {
    forall i, j | 0 <= i < j < |cases|
      ensures Map(cases, Identity)[i] != Map(cases, Identity)[j] <==>
                cases[i].corpus != cases[j].corpus || cases[i].caseId != cases[j].caseId
    {
    }
    if cases != [] {
      OneCorpusBySize(cases);
    }
  }

  lemma OneCorpusBySize(cases: seq<Case>)
    requires cases != []
    ensures |Corpora(cases)| == 1 <==> OneCorpus(cases)
  {
    var corpus := cases[0].corpus;
    assert cases[0] in Members(cases);
    assert corpus in Corpora(cases);
    if |Corpora(cases)| == 1 {
      assert |Corpora(cases) - {corpus}| == 0;
      forall i | 0 <= i < |cases| ensures cases[i].corpus == corpus {
        assert cases[i] in Members(cases);
        assert cases[i].corpus in Corpora(cases);
      }
    }
    if OneCorpus(cases) {
      assert Corpora(cases) == {corpus};
    }
  }

  // ----- Aggregation never trips a validator ---------------------------------

  lemma OutcomesAreValid(cases: seq<Case>)
    requires cases != []
    ensures ValidOutcomes(OutcomesOf(cases))
  {
  }

  lemma SafetyIsValid(cases: seq<Case>)
    requires CasesOk(cases)
    ensures ValidSafety(SafetyOf(cases))
  {
    ObservedIsValid(cases, Unauthorized);
    ObservedIsValid(cases, Stale);
    ObservedIsValid(cases, Bypass);
    ObservedIsValid(cases, Duplicate);
  }

  lemma DimensionsAreValid(cases: seq<Case>)
    requires cases != [] && |Corpora(cases)| == 1
    ensures ValidDimensions(DimensionsOf(cases))
  {
    var d, c := DimensionsOf(cases), cases[0];
    assert c in Members(cases);
    assert c.packId in d.packs && (c.packId, c.packVersion) in d.packVersions && c.platformVersion in d.platforms;
  }

  lemma RecoveriesAreOk(cases: seq<Case>)
    requires CasesOk(cases)
    ensures ObservationsOk(Recoveries(cases)) && |Recoveries(cases)| <= |cases|
  {
    var recovering := Filter(cases, HasRecovery);
    FilteredPass(cases, HasRecovery);
    forall i | 0 <= i < |recovering| ensures ObservationOk(Recoveries(cases)[i].duplicate) {
      assert recovering[i] in cases && HasRecovery(recovering[i]);
    }
  }

  /** Every admissible case list gives a report that passes every validator. */
  lemma AggregateIsValid(cases: seq<Case>)
    requires CasesOk(cases) && cases != [] && |Corpora(cases)| == 1
    ensures ValidReport(Aggregate(cases))
  {
    OutcomesAreValid(cases);
    FilteredPass(cases, ActedAtAll);
    FilteredPass(cases, MetUnknown);
    SafetyIsValid(cases);
    DimensionsAreValid(cases);
    RecoveriesAreOk(cases);
    RecoveryIsValid(Recoveries(cases));
    CostIsValid(cases);
  }

  // ----- The order of the cases never shows ----------------------------------

  lemma RateIgnoresOrder<T>(xs: seq<T>, ys: seq<T>, p: T -> bool)
    requires multiset(xs) == multiset(ys)
    ensures BooleanRate(xs, p) == BooleanRate(ys, p)
  {
    TotalIgnoresOrder(xs, ys, Indicator(p));
    assert |multiset(xs)| == |xs| && |multiset(ys)| == |ys|;
  }

  lemma FilteredRateIgnoresOrder<T>(xs: seq<T>, ys: seq<T>, p: T -> bool, q: T -> bool)
    requires multiset(xs) == multiset(ys)
    ensures BooleanRate(Filter(xs, p), q) == BooleanRate(Filter(ys, p), q)
  {
    FilterIgnoresOrder(xs, ys, p);
    RateIgnoresOrder(Filter(xs, p), Filter(ys, p), q);
  }

  lemma ObservedIgnoresOrder<T>(xs: seq<T>, ys: seq<T>, f: T -> CountObservation)
    requires multiset(xs) == multiset(ys)
    ensures Observed(xs, f) == Observed(ys, f)
  {
    TotalIgnoresOrder(xs, ys, Events(f));
    TotalIgnoresOrder(xs, ys, Denominators(f));
  }

  lemma LatencyIgnoresOrder(xs: seq<nat>, ys: seq<nat>)
    requires multiset(xs) == multiset(ys)
    ensures LatencyOf(xs) == LatencyOf(ys)
  {
    SortedIgnoresOrder(xs, ys);
    TotalIgnoresOrder(xs, ys, Itself);
    assert |multiset(xs)| == |xs| && |multiset(ys)| == |ys|;
  }

  lemma CostIgnoresOrder(a: seq<Case>, b: seq<Case>)
    requires multiset(a) == multiset(b) && a != [] && b != []
    ensures CostOf(a) == CostOf(b)
  {
    MapIgnoresOrder(a, b, ModelCost);
    SumIgnoresOrder(Map(a, ModelCost), Map(b, ModelCost));
    assert |multiset(a)| == |a| && |multiset(b)| == |b|;
  }

  lemma OutcomesIgnoreOrder(a: seq<Case>, b: seq<Case>)
    requires multiset(a) == multiset(b) && a != [] && b != []
    ensures OutcomesOf(a) == OutcomesOf(b)
  {
    RateIgnoresOrder(a, b, TaskSuccess);
    RateIgnoresOrder(a, b, StateCorrect);
    RateIgnoresOrder(a, b, IncorrectAction);
    RateIgnoresOrder(a, b, EvidenceComplete);
    FilteredRateIgnoresOrder(a, b, ActedAtAll, FirstHit);
    FilteredRateIgnoresOrder(a, b, MetUnknown, StoppedAtUnknown);
    TotalIgnoresOrder(a, b, ActionCount);
    assert |multiset(a)| == |a| && |multiset(b)| == |b|;
  }

  lemma SafetyIgnoresOrder(a: seq<Case>, b: seq<Case>)
    requires multiset(a) == multiset(b)
    ensures SafetyOf(a) == SafetyOf(b)
  {
    ObservedIgnoresOrder(a, b, Unauthorized);
    ObservedIgnoresOrder(a, b, Stale);
    ObservedIgnoresOrder(a, b, Bypass);
    ObservedIgnoresOrder(a, b, Duplicate);
  }

  lemma DimensionsIgnoreOrder(a: seq<Case>, b: seq<Case>)
    requires multiset(a) == multiset(b)
    ensures DimensionsOf(a) == DimensionsOf(b)
  {
    forall c ensures c in a <==> c in b {
      assert c in multiset(a) <==> c in multiset(b);
    }
    assert Members(a) == Members(b);
  }

  lemma CategoryIgnoresOrder(k: string, a: seq<Recovery>, b: seq<Recovery>)
    requires multiset(a) == multiset(b)
    ensures CategoryOf(k, a) == CategoryOf(k, b)
  {
    RateIgnoresOrder(a, b, HasSucceeded);
    FilteredRateIgnoresOrder(a, b, Probed, Resolved);
    ObservedIgnoresOrder(a, b, DuplicateOf);
    MapIgnoresOrder(a, b, RecoveryLatency);
    LatencyIgnoresOrder(Map(a, RecoveryLatency), Map(b, RecoveryLatency));
    assert |multiset(a)| == |a| && |multiset(b)| == |b|;
  }

  lemma RecoveryIgnoresOrder(a: seq<Recovery>, b: seq<Recovery>)
    requires multiset(a) == multiset(b)
    ensures RecoveryOf(a) == RecoveryOf(b)
  {
    RateIgnoresOrder(a, b, HasSucceeded);
    FilteredRateIgnoresOrder(a, b, Probed, Resolved);
    ObservedIgnoresOrder(a, b, DuplicateOf);
    assert |multiset(a)| == |a| && |multiset(b)| == |b|;
    CategoriesIgnoreOrder(a, b);
    CategoriesIgnoreOrder(b, a);
    forall k | k in Categories(a) ensures ByCategory(a)[k] == ByCategory(b)[k] {
      FilterIgnoresOrder(a, b, Named(Category, k));
      CategoryIgnoresOrder(k, Group(a, k), Group(b, k));
    }
    assert ByCategory(a) == ByCategory(b);
  }

  lemma CategoriesIgnoreOrder(a: seq<Recovery>, b: seq<Recovery>)
    requires multiset(a) == multiset(b)
    ensures Categories(a) <= Categories(b)
  {
    forall i | 0 <= i < |a| ensures a[i].category in Categories(b) {
      assert a[i] in multiset(b);
      var j :| 0 <= j < |b| && b[j] == a[i];
    }
  }

  /** Reordering the cases changes nothing in the report, nor whether there is one. */
  lemma AggregateIgnoresOrder(a: seq<Case>, b: seq<Case>)
    requires multiset(a) == multiset(b) && a != []
    ensures b != [] && Aggregate(a) == Aggregate(b)
    ensures Aggregatable(a) <==> Aggregatable(b)
  {
    assert |multiset(a)| == |a| && |multiset(b)| == |b|;
    OutcomesIgnoreOrder(a, b);
    SafetyIgnoresOrder(a, b);
    DimensionsIgnoreOrder(a, b);
    CostIgnoresOrder(a, b);
    MapIgnoresOrder(a, b, CaseLatency);
    LatencyIgnoresOrder(Map(a, CaseLatency), Map(b, CaseLatency));
    FilterIgnoresOrder(a, b, HasRecovery);
    MapIgnoresOrder(Filter(a, HasRecovery), Filter(b, HasRecovery), TheRecovery);
    RecoveryIgnoresOrder(Recoveries(a), Recoveries(b));
    MapIgnoresOrder(a, b, Identity);
    DistinctIgnoresOrder(Map(a, Identity), Map(b, Identity));
    assert Corpora(a) == DimensionsOf(a).corpora == DimensionsOf(b).corpora == Corpora(b);
  }

  lemma DistinctIgnoresOrder<T(!new)>(xs: seq<T>, ys: seq<T>)
    requires multiset(xs) == multiset(ys)
    ensures Distinct(xs) <==> Distinct(ys)
  {
    DistinctBySize(xs);
    DistinctBySize(ys);
    forall x ensures x in xs <==> x in ys {
      assert x in multiset(xs) <==> x in multiset(ys);
    }
    assert Members(xs) == Members(ys);
    assert |multiset(xs)| == |xs| && |multiset(ys)| == |ys|;
  }

  function PerGroup(groups: map<string, seq<Recovery>>): map<string, CategoryMetrics> {
    map k | k in groups :: CategoryOf(k, groups[k])
  }

  lemma GroupsGiveCategories(observations: seq<Recovery>)
    ensures PerGroup(GroupsOf(observations)) == ByCategory(observations)
  {
    var groups, m := GroupsOf(observations), ByCategory(observations);
    forall k | k in Categories(observations) ensures PerGroup(groups)[k] == m[k] {
      assert groups[k] == Group(observations, k);
    }
    assert PerGroup(groups).Keys == m.Keys;
  }

  method AggregateRecovery(observations: seq<Recovery>) returns (m: RecoveryMetrics)
    ensures m == RecoveryOf(observations)
  {
    var groups := GroupRecoveries(observations);
    GroupsGiveCategories(observations);
    m := RecoveryMetrics(|observations|, BooleanRate(observations, HasSucceeded),
                         BooleanRate(Filter(observations, Probed), Resolved),
                         Observed(observations, DuplicateOf), PerGroup(groups));
  }

  /** Aggregates a corpus, or says why it cannot; whatever it returns passes every validator. */
  method AggregateBenchmark(cases: seq<Case>) returns (r: Result<Report, Refusal>)
    requires CasesOk(cases)
    ensures r.Ok? <==> Aggregatable(cases)
    ensures r.Ok? <==> |cases| > 0 && EveryCaseOnce(cases) && OneCorpus(cases)
    ensures r == Refused(NoCase) <==> |cases| == 0
    ensures r == Refused(CaseRepeated) <==> |cases| > 0 && !EveryCaseOnce(cases)
    ensures r == Refused(SeveralCorpora) <==> |cases| > 0 && EveryCaseOnce(cases) && !OneCorpus(cases)
    ensures r.Ok? ==> r.value == Aggregate(cases) && ValidReport(r.value)
  {
    hide ValidReport, EveryCaseOnce, OneCorpus;
    WhatIsAggregatable(cases);
    if cases == [] { return Refused(NoCase); }
    DistinctBySize(Map(cases, Identity));
    if |Members(Map(cases, Identity))| != |cases| {
      return Refused(CaseRepeated);
    }
    if |Corpora(cases)| != 1 {
      return Refused(SeveralCorpora);
    }
    var recovery := AggregateRecovery(Recoveries(cases));
    AggregateIsValid(cases);
    return Ok(Report(false, |cases|, DimensionsOf(cases), OutcomesOf(cases), SafetyOf(cases), recovery,
                     LatencyOf(Map(cases, CaseLatency)),
                     CostOf(cases), None, None, None));
  }
}
