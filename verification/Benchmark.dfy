/** Aggregation of benchmark cases into a report, against the validators the report must pass. */
module Benchmark {
  import opened Outcomes
  import opened Tallies
  import opened Quantiles

  /** A count of events with its explicit denominator. */
  datatype CountObservation = CountObservation(events: nat, denominator: nat)

  datatype Safety = Safety(unauthorized: CountObservation, stale: CountObservation, bypass: CountObservation,
                           duplicate: CountObservation)

  /** `probeResolved` is present exactly when a result probe was required. */
  datatype Recovery = Recovery(category: string, succeeded: bool, latency: nat, probeResolved: Option<bool>,
                               duplicate: CountObservation)

  datatype Case = Case(caseId: string, corpus: string, packId: string, packVersion: string, platformVersion: string,
                       providerMode: string,
                       modelVersion: Option<string>, browserVersion: Option<string>, taskSuccess: bool,
                       stateCorrect: bool,
                       firstActionHit: Option<bool>, incorrectAction: bool, unknownStopped: Option<bool>,
                       evidenceComplete: bool,
                       actionCount: nat, latency: nat, modelCost: real, safety: Safety, recovery: Option<Recovery>)

  predicate ObservationOk(o: CountObservation) {
    o.events <= o.denominator
  }

  /** What the case record's own validators guarantee. */
  predicate CaseOk(c: Case) {
    && ObservationOk(c.safety.unauthorized) && ObservationOk(c.safety.stale) && ObservationOk(c.safety.bypass)
    && ObservationOk(c.safety.duplicate)
    && (c.recovery.Some? ==> ObservationOk(c.recovery.value.duplicate))
    && c.modelCost >= 0.0
  }

  predicate CasesOk(cases: seq<Case>) {
    forall i :: 0 <= i < |cases| ==> CaseOk(cases[i])
  }

  // ----- Rates ---------------------------------------------------------------

  /** A rate is absent exactly when nothing was counted. */
  datatype CountRate = CountRate(events: nat, denominator: nat, rate: Option<real>)

  predicate ValidRate(m: CountRate) {
    && m.events <= m.denominator
    && m.rate == (if m.denominator == 0 then None else Some(m.events as real / m.denominator as real))
    && (m.rate.Some? ==> 0.0 <= m.rate.value <= 1.0)
  }

  function Rate(events: nat, denominator: nat): (m: CountRate)
    ensures events <= denominator ==> ValidRate(m)
  {
    if denominator == 0 then CountRate(events, denominator, None)
    else
      ShareOfOne(events, denominator);
      CountRate(events, denominator, Some(events as real / denominator as real))
  }

  lemma ShareOfOne(events: nat, denominator: nat)
    requires denominator > 0
    ensures events <= denominator ==> 0.0 <= events as real / denominator as real <= 1.0
  {
  }

  function BooleanRate<T>(xs: seq<T>, p: T -> bool): (m: CountRate)
    ensures ValidRate(m) && m.denominator == |xs|
  {
    CountBound(xs, p);
    Rate(Count(xs, p), |xs|)
  }

  function Events<T>(f: T -> CountObservation): T -> nat {
    x => f(x).events
  }

  function Denominators<T>(f: T -> CountObservation): T -> nat {
    x => f(x).denominator
  }

  function Observed<T>(xs: seq<T>, f: T -> CountObservation): CountRate {
    Rate(Total(xs, Events(f)), Total(xs, Denominators(f)))
  }

  lemma {:induction false} ObservedIsValid<T>(xs: seq<T>, f: T -> CountObservation)
    requires forall i :: 0 <= i < |xs| ==> ObservationOk(f(xs[i]))
    ensures ValidRate(Observed(xs, f))
  {
    TotalsOrdered(xs, f);
  }

  lemma {:induction false} TotalsOrdered<T>(xs: seq<T>, f: T -> CountObservation)
    requires forall i :: 0 <= i < |xs| ==> ObservationOk(f(xs[i]))
    ensures Total(xs, Events(f)) <= Total(xs, Denominators(f))
  {
    if xs != [] {
      TotalsOrdered(xs[..|xs| - 1], f);
    }
  }

  // ----- Latency and cost ----------------------------------------------------

  datatype Latency = Latency(samples: nat, average: real, p50: real, p95: real)

  predicate ValidLatency(m: Latency) {
    0.0 <= m.average && 0.0 <= m.p50 <= m.p95
  }

  function Itself(n: nat): nat {
    n
  }

  function LatencyOf(values: seq<nat>): (m: Latency)
    ensures ValidLatency(m) && m.samples == |values|
  {
    if values == [] then Latency(0, 0.0, 0.0, 0.0)
    else
      SortedSorts(values);
      QuantilesAreMonotoneAndBounded(Sorted(values), 0.5, 0.95);
      Latency(|values|, Total(values, Itself) as real / |values| as real, Quantile(Sorted(values), 0.5),
              Quantile(Sorted(values), 0.95))
  }

  /** The reported quantiles are between the smallest and the largest latency. */
  lemma LatencyStaysInRange(values: seq<nat>, low: nat, high: nat)
    requires values != [] && forall i :: 0 <= i < |values| ==> low <= values[i] <= high
    ensures var m := LatencyOf(values); low as real <= m.p50 <= m.p95 <= high as real
  {
    SortedSorts(values);
    var ordered := Sorted(values);
    QuantilesAreMonotoneAndBounded(ordered, 0.5, 0.95);
    forall i | 0 <= i < |ordered| ensures low <= ordered[i] <= high {
      assert ordered[i] in multiset(ordered);
      assert ordered[i] in values;
    }
  }

  datatype Cost = Cost(samples: nat, total: real, average: real)

  predicate ValidCost(m: Cost) {
    0.0 <= m.total && 0.0 <= m.average && m.average == if m.samples == 0 then 0.0 else m.total / m.samples as real
  }

  function ModelCost(c: Case): real {
    c.modelCost
  }

  function CostOf(cases: seq<Case>): Cost
    requires cases != []
  {
    var total := Sum(Map(cases, ModelCost));
    Cost(|cases|, total, total / |cases| as real)
  }

  lemma CostIsValid(cases: seq<Case>)
    requires cases != [] && CasesOk(cases)
    ensures ValidCost(CostOf(cases))
  {
    SumIsNotNegative(Map(cases, ModelCost));
  }

  // ----- Recovery ------------------------------------------------------------

  function HasRecovery(c: Case): bool {
    c.recovery.Some?
  }

  function TheRecovery(c: Case): Recovery {
    if c.recovery.Some? then c.recovery.value else Recovery("", false, 0, None, CountObservation(0, 0))
  }

  function Recoveries(cases: seq<Case>): seq<Recovery> {
    Map(Filter(cases, HasRecovery), TheRecovery)
  }

  function Category(r: Recovery): string {
    r.category
  }

  function HasSucceeded(r: Recovery): bool {
    r.succeeded
  }

  function Probed(r: Recovery): bool {
    r.probeResolved.Some?
  }

  function Resolved(r: Recovery): bool {
    r.probeResolved == Some(true)
  }

  function DuplicateOf(r: Recovery): CountObservation {
    r.duplicate
  }

  function RecoveryLatency(r: Recovery): nat {
    r.latency
  }

  datatype CategoryMetrics = CategoryMetrics(category: string, caseCount: nat, success: CountRate, probe: CountRate,
                                             duplicate: CountRate, latency: Latency)

  predicate ValidCategory(m: CategoryMetrics) {
    && m.caseCount >= 1 && ValidRate(m.success) && ValidRate(m.probe) && ValidRate(m.duplicate)
    && ValidLatency(m.latency)
    && m.success.denominator == m.caseCount == m.latency.samples
    && m.probe.denominator <= m.caseCount
  }

  function CategoryOf(category: string, group: seq<Recovery>): CategoryMetrics {
    CategoryMetrics(category, |group|, BooleanRate(group, HasSucceeded), BooleanRate(Filter(group, Probed), Resolved),
                    Observed(group, DuplicateOf),
                    LatencyOf(Map(group, RecoveryLatency)))
  }

  /** By category; reported in alphabetical order. */
  datatype RecoveryMetrics = RecoveryMetrics(caseCount: nat, success: CountRate, probe: CountRate,
                                             duplicate: CountRate, byCategory: map<string, CategoryMetrics>)

  function PerCategory(m: map<string, CategoryMetrics>, f: CategoryMetrics -> nat): string -> nat {
    k => if k in m then f(m[k]) else 0
  }

  ghost function CategorySum(m: map<string, CategoryMetrics>, f: CategoryMetrics -> nat): nat {
    SumOver(m.Keys, PerCategory(m, f))
  }

  function CasesIn(c: CategoryMetrics): nat {
    c.caseCount
  }

  function SuccessesIn(c: CategoryMetrics): nat {
    c.success.events
  }

  function SuccessCasesIn(c: CategoryMetrics): nat {
    c.success.denominator
  }

  function ResolvedIn(c: CategoryMetrics): nat {
    c.probe.events
  }

  function ProbedIn(c: CategoryMetrics): nat {
    c.probe.denominator
  }

  function DuplicatesIn(c: CategoryMetrics): nat {
    c.duplicate.events
  }

  function DuplicateChancesIn(c: CategoryMetrics): nat {
    c.duplicate.denominator
  }

  /** An overall rate is the sum of the categories' counts over the sum of their denominators. */
  ghost predicate SumsTo(m: map<string, CategoryMetrics>, whole: CountRate, events: CategoryMetrics -> nat,
                         denominators: CategoryMetrics -> nat) {
    whole.events == CategorySum(m, events) && whole.denominator == CategorySum(m, denominators)
  }

  ghost predicate AddsUp(m: RecoveryMetrics) {
    && CategorySum(m.byCategory, CasesIn) == m.caseCount
    && SumsTo(m.byCategory, m.success, SuccessesIn, SuccessCasesIn)
    && SumsTo(m.byCategory, m.probe, ResolvedIn, ProbedIn)
    && SumsTo(m.byCategory, m.duplicate, DuplicatesIn, DuplicateChancesIn)
  }

  ghost predicate ValidRecovery(m: RecoveryMetrics) {
    && ValidRate(m.success) && ValidRate(m.probe) && ValidRate(m.duplicate)
    && m.success.denominator == m.caseCount && m.probe.denominator <= m.caseCount
    && (forall k :: k in m.byCategory ==> m.byCategory[k].category == k && ValidCategory(m.byCategory[k]))
    && AddsUp(m)
  }

  function Categories(observations: seq<Recovery>): set<string> {
    set i | 0 <= i < |observations| :: observations[i].category
  }

  function GroupsOf(observations: seq<Recovery>): map<string, seq<Recovery>> {
    map k | k in Categories(observations) :: Group(observations, k)
  }

  function ByCategory(observations: seq<Recovery>): map<string, CategoryMetrics> {
    map k | k in Categories(observations) :: CategoryOf(k, Group(observations, k))
  }

  function RecoveryOf(observations: seq<Recovery>): RecoveryMetrics {
    RecoveryMetrics(|observations|, BooleanRate(observations, HasSucceeded),
                    BooleanRate(Filter(observations, Probed), Resolved),
                    Observed(observations, DuplicateOf), ByCategory(observations))
  }

  function Group(observations: seq<Recovery>, k: string): seq<Recovery> {
    Filter(observations, Named(Category, k))
  }

  /** A figure that is a total over each category's group adds up to the same total over everything. */
  lemma CategoriesAddUp(observations: seq<Recovery>, f: CategoryMetrics -> nat, g: Recovery -> nat)
    requires forall k :: k in Categories(observations) ==>
        f(ByCategory(observations)[k]) == Total(Group(observations, k), g)
    ensures CategorySum(ByCategory(observations), f) == Total(observations, g)
  {
    var m := ByCategory(observations);
    forall k | k in m.Keys ensures PerCategory(m, f)(k) == GroupTotals(observations, Category, g)(k) {
      assert f(m[k]) == Total(Group(observations, k), g);
    }
    SumOverAgrees(m.Keys, PerCategory(m, f), GroupTotals(observations, Category, g));
    GroupTotalsAddUp(observations, Category, m.Keys, g);
  }

  /** Every figure of a group of recoveries is a total over it. */
  lemma FiguresAreTotals(group: seq<Recovery>)
    ensures |group| == Total(group, One())
    ensures BooleanRate(group, HasSucceeded).events == Total(group, Indicator(HasSucceeded))
            && BooleanRate(group, HasSucceeded).denominator == |group|
    ensures var probe := BooleanRate(Filter(group, Probed), Resolved);
            probe.events == Total(group, Only(Probed, Indicator(Resolved)))
                && probe.denominator == Total(group, Indicator(Probed))
    ensures var duplicate := Observed(group, DuplicateOf);
            duplicate.events == Total(group, Events(DuplicateOf))
                && duplicate.denominator == Total(group, Denominators(DuplicateOf))
  {
    SizeIsTotal(group);
    TotalOfFiltered(group, Probed, Indicator(Resolved));
    SizeOfFiltered(group, Probed);
  }

  /** The overall counts are the sums of the categories' counts: nothing is lost and nothing is counted twice. */
  lemma RecoveryAddsUp(observations: seq<Recovery>)
    ensures AddsUp(RecoveryOf(observations))
  {
    var m := ByCategory(observations);
    FiguresAreTotals(observations);
    forall k | k in m
      ensures CasesIn(m[k]) == SuccessCasesIn(m[k]) == Total(Group(observations, k), One())
      ensures SuccessesIn(m[k]) == Total(Group(observations, k), Indicator(HasSucceeded))
      ensures ResolvedIn(m[k]) == Total(Group(observations, k), Only(Probed, Indicator(Resolved)))
              && ProbedIn(m[k]) == Total(Group(observations, k), Indicator(Probed))
      ensures DuplicatesIn(m[k]) == Total(Group(observations, k), Events(DuplicateOf))
              && DuplicateChancesIn(m[k]) == Total(Group(observations, k), Denominators(DuplicateOf))
    {
      FiguresAreTotals(Group(observations, k));
    }
    CategoriesAddUp(observations, CasesIn, One());
    CategoriesAddUp(observations, SuccessCasesIn, One());
    CategoriesAddUp(observations, SuccessesIn, Indicator(HasSucceeded));
    CategoriesAddUp(observations, ResolvedIn, Only(Probed, Indicator(Resolved)));
    CategoriesAddUp(observations, ProbedIn, Indicator(Probed));
    CategoriesAddUp(observations, DuplicatesIn, Events(DuplicateOf));
    CategoriesAddUp(observations, DuplicateChancesIn, Denominators(DuplicateOf));
  }

  predicate ObservationsOk(observations: seq<Recovery>) {
    forall i :: 0 <= i < |observations| ==> ObservationOk(observations[i].duplicate)
  }

  lemma RecoveryIsValid(observations: seq<Recovery>)
    requires ObservationsOk(observations)
    ensures ValidRecovery(RecoveryOf(observations))
  {
    RecoveryAddsUp(observations);
    FilteredPass(observations, Probed);
    ObservedIsValid(observations, DuplicateOf);
    forall k | k in Categories(observations) ensures ValidCategory(CategoryOf(k, Group(observations, k))) {
      GroupIsValid(observations, k);
    }
  }

  lemma GroupIsValid(observations: seq<Recovery>, k: string)
    requires ObservationsOk(observations) && k in Categories(observations)
    ensures ValidCategory(CategoryOf(k, Group(observations, k)))
  {
    var group := Group(observations, k);
    var i :| 0 <= i < |observations| && observations[i].category == k;
    assert Category(observations[i]) == k;
    assert Named(Category, k)(observations[i]);
    FilteredPass(observations, Named(Category, k));
    FilteredPass(group, Probed);
    assert observations[i] in group;
    ObservedIsValid(group, DuplicateOf);
  }

  /** Groups the recoveries by category, in the order they are met. */
  method GroupRecoveries(observations: seq<Recovery>) returns (groups: map<string, seq<Recovery>>)
    ensures groups == GroupsOf(observations)
  {
    groups := map[];
    var i := 0;
    while i < |observations|
      invariant 0 <= i <= |observations|
      invariant groups == GroupsOf(observations[..i])
    {
      var o := observations[i];
      ghost var before := groups;
      NextInGroups(observations, i);
      if o.category !in groups {
        NobodyThere(observations[..i], o.category);
        groups := groups[o.category := []];
      }
      groups := groups[o.category := groups[o.category] + [o]];
      i := i + 1;
      GroupsGrow(observations, i - 1, before, groups);
    }
    assert observations[..i] == observations;
  }

  lemma GroupsGrow(observations: seq<Recovery>, i: nat, before: map<string, seq<Recovery>>,
                   after: map<string, seq<Recovery>>)
    requires i < |observations| && before == GroupsOf(observations[..i])
    requires var o := observations[i];
             after == before[o.category := Group(observations[..i], o.category) + [o]]
    ensures after == GroupsOf(observations[..i + 1])
  {
    NextInGroups(observations, i);
    var o, grown := observations[i], GroupsOf(observations[..i + 1]);
    assert after.Keys == grown.Keys;
    forall k | k in grown ensures after[k] == grown[k] {
      assert grown[k] == Group(observations[..i + 1], k);
    }
  }

  /** One more recovery joins its own group and leaves the others as they are. */
  lemma NextInGroups(observations: seq<Recovery>, i: nat)
    requires i < |observations|
    ensures var before, after := observations[..i], observations[..i + 1];
            && Categories(after) == Categories(before) + {observations[i].category}
            && (forall k :: k in Categories(after) ==>
                Group(after, k) == Group(before, k) + if k == observations[i].category then [observations[i]] else [])
  {
    NewCategory(observations, i);
    var after := observations[..i + 1];
    assert after[..i] == observations[..i] && after[i] == observations[i];
    forall k | k in Categories(after)
      ensures Group(after, k) ==
              Group(observations[..i], k) + if k == observations[i].category then [observations[i]] else []
    {
      assert Named(Category, k)(after[i]) <==> after[i].category == k;
    }
  }

  lemma NewCategory(observations: seq<Recovery>, i: nat)
    requires i < |observations|
    ensures Categories(observations[..i + 1]) == Categories(observations[..i]) + {observations[i].category}
  {
    forall k | k in Categories(observations[..i]) ensures k in Categories(observations[..i + 1]) {
      var j :| 0 <= j < i && observations[..i][j].category == k;
      assert observations[..i + 1][j].category == k;
    }
    assert observations[..i + 1][i].category in Categories(observations[..i + 1]);
    forall k | k in Categories(observations[..i + 1])
      ensures k in Categories(observations[..i]) + {observations[i].category}
    {
      var j :| 0 <= j < i + 1 && observations[..i + 1][j].category == k;
      assert j < i ==> observations[..i][j].category == k;
    }
  }

  lemma {:induction false} NobodyThere(observations: seq<Recovery>, k: string)
    requires k !in Categories(observations)
    ensures Group(observations, k) == []
  {
    if observations != [] {
      var n := |observations| - 1;
      assert observations[..n + 1] == observations;
      NewCategory(observations, n);
      NobodyThere(observations[..n], k);
      assert Category(observations[n]) != k;
      assert !Named(Category, k)(observations[n]);
    }
  }
}
