/** What every figure of a report counts: how each of them changes when the corpus has one case more. */
module BenchmarkFigures {
  import opened Outcomes
  import opened Tallies
  import opened Quantiles
  import opened Benchmark
  import opened BenchmarkReport

  function Bit(b: bool): nat {
    if b then 1 else 0
  }

  /** The rate counts this many more events in this many more chances. */
  predicate Adds(before: CountRate, after: CountRate, events: nat, chances: nat) {
    var e, d := before.events + events, before.denominator + chances;
    after == CountRate(e, d, if d == 0 then None else Some(e as real / d as real))
  }

  const NO_RATE := CountRate(0, 0, None)

  // ----- One case more -------------------------------------------------------

  predicate OutcomesAdd(before: OutcomeMetrics, after: OutcomeMetrics, c: Case) {
    && Adds(before.taskSuccess, after.taskSuccess, Bit(c.taskSuccess), 1)
    && Adds(before.stateCorrect, after.stateCorrect, Bit(c.stateCorrect), 1)
    && Adds(before.firstActionHit, after.firstActionHit, Bit(c.firstActionHit == Some(true)),
            Bit(c.firstActionHit.Some?))
    && Adds(before.incorrectAction, after.incorrectAction, Bit(c.incorrectAction), 1)
    && Adds(before.unknownStop, after.unknownStop, Bit(c.unknownStopped == Some(true)), Bit(c.unknownStopped.Some?))
    && Adds(before.auditComplete, after.auditComplete, Bit(c.evidenceComplete), 1)
    && after.safeCompletion.None?
    && after.totalActions == before.totalActions + c.actionCount
    && after.averageActions == after.totalActions as real / after.taskSuccess.denominator as real
  }

  predicate SafetyAdds(before: SafetyMetrics, after: SafetyMetrics, s: Safety) {
    && Adds(before.unauthorized, after.unauthorized, s.unauthorized.events, s.unauthorized.denominator)
    && Adds(before.stale, after.stale, s.stale.events, s.stale.denominator)
    && Adds(before.bypass, after.bypass, s.bypass.events, s.bypass.denominator)
    && Adds(before.duplicate, after.duplicate, s.duplicate.events, s.duplicate.denominator)
  }

  /** A version that is missing or empty is not named. */
  function NamedVersion(version: Option<string>): set<string> {
    if version.Some? && version.value != "" then {version.value} else {}
  }

  predicate DimensionsAdd(before: Dimensions, after: Dimensions, c: Case) {
    && after.corpora == before.corpora + {c.corpus}
    && after.packs == before.packs + {c.packId}
    && after.packVersions == before.packVersions + {(c.packId, c.packVersion)}
    && after.platforms == before.platforms + {c.platformVersion}
    && after.providers == before.providers + {c.providerMode}
    && after.models == before.models + NamedVersion(c.modelVersion)
    && after.browsers == before.browsers + NamedVersion(c.browserVersion)
    && (after.packCount, after.packVersionCount, after.platformCount)
         == (|after.packs|, |after.packVersions|, |after.platforms|)
  }

  predicate CostAdds(before: Cost, after: Cost, cost: real) {
    && after.samples == before.samples + 1 && after.total == before.total + cost
    && after.average == after.total / after.samples as real
  }

  /** One latency more, in the number and in the average. */
  predicate LatencyAdds(before: Latency, after: Latency, latency: nat) {
    && after.samples == before.samples + 1
    && after.average * after.samples as real == before.average * before.samples as real + latency as real
  }

  predicate CategoryAdds(before: CategoryMetrics, after: CategoryMetrics, r: Recovery) {
    && after.category == r.category && after.caseCount == before.caseCount + 1
    && Adds(before.success, after.success, Bit(r.succeeded), 1)
    && Adds(before.probe, after.probe, Bit(r.probeResolved == Some(true)), Bit(r.probeResolved.Some?))
    && Adds(before.duplicate, after.duplicate, r.duplicate.events, r.duplicate.denominator)
    && LatencyAdds(before.latency, after.latency, r.latency)
  }

  const NO_LATENCY := Latency(0, 0.0, 0.0, 0.0)

  const NO_CATEGORY := CategoryMetrics("", 0, NO_RATE, NO_RATE, NO_RATE, NO_LATENCY)

  /** A recovery counts once among all and once in its own category, and in no other. */
  predicate RecoveryAdds(before: RecoveryMetrics, after: RecoveryMetrics, r: Recovery) {
    && after.caseCount == before.caseCount + 1
    && Adds(before.success, after.success, Bit(r.succeeded), 1)
    && Adds(before.probe, after.probe, Bit(r.probeResolved == Some(true)), Bit(r.probeResolved.Some?))
    && Adds(before.duplicate, after.duplicate, r.duplicate.events, r.duplicate.denominator)
    && after.byCategory.Keys == before.byCategory.Keys + {r.category}
    && (forall k :: k in after.byCategory && k != r.category ==> after.byCategory[k] == before.byCategory[k])
    && CategoryAdds(if r.category in before.byCategory then before.byCategory[r.category] else NO_CATEGORY,
                    after.byCategory[r.category], r)
  }

  /** The report of a corpus with one case more. */
  predicate ReportAdds(before: Report, after: Report, c: Case) {
    && after.samples == before.samples + 1
    && DimensionsAdd(before.dimensions, after.dimensions, c)
    && OutcomesAdd(before.outcomes, after.outcomes, c)
    && SafetyAdds(before.safety, after.safety, c.safety)
    && LatencyAdds(before.latency, after.latency, c.latency)
    && CostAdds(before.cost, after.cost, c.modelCost)
    && (if c.recovery.Some? then RecoveryAdds(before.recovery, after.recovery, c.recovery.value)
        else after.recovery == before.recovery)
  }

  /** The figures of no case at all. */
  const EMPTY := Report(false, 0, Dimensions({}, {}, {}, {}, {}, {}, {}, 0, 0, 0),
                        OutcomeMetrics(NO_RATE, NO_RATE, NO_RATE, NO_RATE, NO_RATE, NO_RATE, None, 0, 0.0),
                        SafetyMetrics(NO_RATE, NO_RATE, NO_RATE, NO_RATE),
                        RecoveryMetrics(0, NO_RATE, NO_RATE, NO_RATE, map[]), NO_LATENCY, Cost(0, 0.0, 0.0),
                        None, None, None)

  /** The report of the cases so far, starting from nothing. */
  function ReportOf(cases: seq<Case>): Report {
    if cases == [] then EMPTY else Aggregate(cases)
  }

  // ----- Proofs --------------------------------------------------------------

  lemma OneMoreTotal<T>(xs: seq<T>, x: T, f: T -> nat)
    ensures Total(xs + [x], f) == Total(xs, f) + f(x)
  {
    assert (xs + [x])[..|xs|] == xs;
  }

  lemma OneMoreFiltered<T>(xs: seq<T>, x: T, p: T -> bool)
    ensures Filter(xs + [x], p) == Filter(xs, p) + if p(x) then [x] else []
  {
    assert (xs + [x])[..|xs|] == xs;
  }

  lemma OneMoreRate<T>(xs: seq<T>, x: T, p: T -> bool)
    ensures Adds(BooleanRate(xs, p), BooleanRate(xs + [x], p), Bit(p(x)), 1)
  {
    OneMoreTotal(xs, x, Indicator(p));
  }

  lemma OneMoreFilteredRate<T>(xs: seq<T>, x: T, p: T -> bool, q: T -> bool)
    requires q(x) ==> p(x)
    ensures Adds(BooleanRate(Filter(xs, p), q), BooleanRate(Filter(xs + [x], p), q), Bit(q(x)), Bit(p(x)))
  {
    OneMoreFiltered(xs, x, p);
    if p(x) {
      OneMoreRate(Filter(xs, p), x, q);
    } else {
      assert Filter(xs, p) + [] == Filter(xs, p);
    }
  }

  lemma OneMoreObserved<T>(xs: seq<T>, x: T, f: T -> CountObservation)
    ensures Adds(Observed(xs, f), Observed(xs + [x], f), f(x).events, f(x).denominator)
  {
    OneMoreTotal(xs, x, Events(f));
    OneMoreTotal(xs, x, Denominators(f));
  }

  lemma OneMoreLatency(values: seq<nat>, v: nat)
    ensures LatencyAdds(LatencyOf(values), LatencyOf(values + [v]), v)
  {
    hide LatencyOf;
    OneMoreTotal(values, v, Itself);
    AverageTimesNumber(values);
    AverageTimesNumber(values + [v]);
  }

  lemma AverageTimesNumber(values: seq<nat>)
    ensures var m := LatencyOf(values);
            m.samples == |values| && m.average * |values| as real == Total(values, Itself) as real
  {
    hide Quantile, Sorted;
  }

  lemma OutcomesSoFar(cases: seq<Case>)
    ensures var o := ReportOf(cases).outcomes;
            && o.taskSuccess == BooleanRate(cases, TaskSuccess) && o.stateCorrect == BooleanRate(cases, StateCorrect)
            && o.firstActionHit == BooleanRate(Filter(cases, ActedAtAll), FirstHit)
            && o.incorrectAction == BooleanRate(cases, IncorrectAction)
            && o.unknownStop == BooleanRate(Filter(cases, MetUnknown), StoppedAtUnknown)
            && o.auditComplete == BooleanRate(cases, EvidenceComplete) && o.totalActions == Total(cases, ActionCount)
  {
  }

  lemma OneMoreOutcome(cases: seq<Case>, c: Case)
    ensures OutcomesAdd(ReportOf(cases).outcomes, OutcomesOf(cases + [c]), c)
  {
    hide BooleanRate, Filter, Total, Adds, ReportOf;
    OutcomesSoFar(cases);
    OneMoreRate(cases, c, TaskSuccess);
    OneMoreRate(cases, c, StateCorrect);
    OneMoreFilteredRate(cases, c, ActedAtAll, FirstHit);
    OneMoreRate(cases, c, IncorrectAction);
    OneMoreFilteredRate(cases, c, MetUnknown, StoppedAtUnknown);
    OneMoreRate(cases, c, EvidenceComplete);
    OneMoreTotal(cases, c, ActionCount);
  }

  lemma OneMoreSafety(cases: seq<Case>, c: Case)
    ensures SafetyAdds(ReportOf(cases).safety, SafetyOf(cases + [c]), c.safety)
  {
    OneMoreObserved(cases, c, Unauthorized);
    OneMoreObserved(cases, c, Stale);
    OneMoreObserved(cases, c, Bypass);
    OneMoreObserved(cases, c, Duplicate);
  }

  lemma OneMoreMember(cases: seq<Case>, c: Case)
    ensures Members(cases + [c]) == Members(cases) + {c}
  {
  }

  /** The values the cases have of some kind. */
  function Values<T>(cases: set<Case>, f: Case -> T): set<T> {
    set c | c in cases :: f(c)
  }

  lemma OneMoreValue<T>(cases: set<Case>, c: Case, f: Case -> T)
    ensures Values(cases + {c}, f) == Values(cases, f) + {f(c)}
  {
    assert c in cases + {c};
  }

  lemma OneMorePack(cases: set<Case>, c: Case)
    ensures var before, after := DimensionsOfAll(cases), DimensionsOfAll(cases + {c});
            && after.corpora == before.corpora + {c.corpus} && after.packs == before.packs + {c.packId}
            && after.packVersions == before.packVersions + {(c.packId, c.packVersion)}
  {
    OneMoreValue(cases, c, (x: Case) => x.corpus);
    OneMoreValue(cases, c, (x: Case) => x.packId);
    OneMoreValue(cases, c, (x: Case) => (x.packId, x.packVersion));
    forall all: set<Case>
      ensures DimensionsOfAll(all).corpora == Values(all, (x: Case) => x.corpus)
      ensures DimensionsOfAll(all).packs == Values(all, (x: Case) => x.packId)
      ensures DimensionsOfAll(all).packVersions == Values(all, (x: Case) => (x.packId, x.packVersion))
    {
    }
  }

  lemma OneMorePlatform(cases: set<Case>, c: Case)
    ensures var before, after := DimensionsOfAll(cases), DimensionsOfAll(cases + {c});
            && after.platforms == before.platforms + {c.platformVersion}
            && after.providers == before.providers + {c.providerMode}
  {
    assert c in cases + {c};
  }

  lemma OneMoreModel(cases: set<Case>, c: Case)
    ensures var before, after := DimensionsOfAll(cases), DimensionsOfAll(cases + {c});
            && after.models == before.models + NamedVersion(c.modelVersion)
            && after.browsers == before.browsers + NamedVersion(c.browserVersion)
  {
    assert c in cases + {c};
  }

  lemma DimensionsAreCounted(cases: set<Case>)
    ensures var d := DimensionsOfAll(cases);
            d.packCount == |d.packs| && d.packVersionCount == |d.packVersions| && d.platformCount == |d.platforms|
  {
  }

  lemma OneMoreInDimensions(cases: set<Case>, c: Case)
    ensures DimensionsAdd(DimensionsOfAll(cases), DimensionsOfAll(cases + {c}), c)
  {
    hide DimensionsOfAll;
    OneMorePack(cases, c);
    OneMorePlatform(cases, c);
    OneMoreModel(cases, c);
    DimensionsAreCounted(cases);
    DimensionsAreCounted(cases + {c});
  }

  lemma OneMoreDimension(cases: seq<Case>, c: Case)
    ensures DimensionsAdd(ReportOf(cases).dimensions, DimensionsOf(cases + [c]), c)
  {
    hide DimensionsOfAll;
    OneMoreMember(cases, c);
    OneMoreInDimensions(Members(cases), c);
    DimensionsSoFar(cases);
  }

  lemma DimensionsSoFar(cases: seq<Case>)
    ensures ReportOf(cases).dimensions == DimensionsOfAll(Members(cases))
  {
    if cases == [] {
      assert Members(cases) == {};
      assert DimensionsOfAll({}) == EMPTY.dimensions;
    }
  }

  lemma OneMoreCost(cases: seq<Case>, c: Case)
    ensures CostAdds(ReportOf(cases).cost, CostOf(cases + [c]), c.modelCost)
  {
    MapAppend(cases, [c], ModelCost);
    SumAppend(Map(cases, ModelCost), Map([c], ModelCost));
    assert Map([c], ModelCost)[..0] == [];
  }

  lemma OneMoreInCategory(k: string, group: seq<Recovery>, r: Recovery)
    requires r.category == k
    ensures CategoryAdds(if group == [] then NO_CATEGORY else CategoryOf(k, group), CategoryOf(k, group + [r]), r)
  {
    OneMoreRate(group, r, HasSucceeded);
    OneMoreFilteredRate(group, r, Probed, Resolved);
    OneMoreObserved(group, r, DuplicateOf);
    MapAppend(group, [r], RecoveryLatency);
    OneMoreLatency(Map(group, RecoveryLatency), r.latency);
    assert Map([r], RecoveryLatency) == [r.latency];
  }

  lemma OneMoreGroup(observations: seq<Recovery>, r: Recovery, k: string)
    ensures Categories(observations + [r]) == Categories(observations) + {r.category}
    ensures Group(observations + [r], k) == Group(observations, k) + if k == r.category then [r] else []
    ensures k in Categories(observations) <==> Group(observations, k) != []
  {
    var all := observations + [r];
    assert all[..|observations|] == observations && all[..|all|] == all;
    NewCategory(all, |observations|);
    OneMoreFiltered(observations, r, Named(Category, k));
    assert Category(r) == r.category;
    assert Named(Category, k)(r) <==> r.category == k;
    if k !in Categories(observations) {
      NobodyThere(observations, k);
    } else {
      var i :| 0 <= i < |observations| && observations[i].category == k;
      FilteredPass(observations, Named(Category, k));
      assert Category(observations[i]) == k;
      assert Named(Category, k)(observations[i]);
    }
  }

  lemma OneMoreByCategory(observations: seq<Recovery>, r: Recovery)
    ensures var before, after := ByCategory(observations), ByCategory(observations + [r]);
            && after.Keys == before.Keys + {r.category}
            && (forall k :: k in after && k != r.category ==> after[k] == before[k])
            && CategoryAdds(if r.category in before then before[r.category] else NO_CATEGORY, after[r.category], r)
  {
    hide CategoryOf, Group, CategoryAdds, Categories;
    var before, after := ByCategory(observations), ByCategory(observations + [r]);
    OneMoreGroup(observations, r, r.category);
    forall k | k in after && k != r.category ensures after[k] == before[k] {
      OneMoreGroup(observations, r, k);
      assert Group(observations, k) + [] == Group(observations, k);
    }
    OneMoreInCategory(r.category, Group(observations, r.category), r);
  }

  lemma OneMoreRecovery(observations: seq<Recovery>, r: Recovery)
    ensures RecoveryAdds(RecoveryOf(observations), RecoveryOf(observations + [r]), r)
  {
    hide BooleanRate, Observed, Filter, ByCategory, Adds, CategoryAdds;
    OneMoreRate(observations, r, HasSucceeded);
    OneMoreFilteredRate(observations, r, Probed, Resolved);
    OneMoreObserved(observations, r, DuplicateOf);
    OneMoreByCategory(observations, r);
  }

  lemma OneMoreAmongRecoveries(cases: seq<Case>, c: Case)
    ensures Recoveries(cases + [c]) == Recoveries(cases) + if c.recovery.Some? then [c.recovery.value] else []
  {
    hide Filter, Map;
    OneMoreFiltered(cases, c, HasRecovery);
    if c.recovery.Some? {
      MapAppend(Filter(cases, HasRecovery), [c], TheRecovery);
      assert Map([c], TheRecovery) == [c.recovery.value];
    } else {
      assert Filter(cases, HasRecovery) + [] == Filter(cases, HasRecovery);
    }
  }

  lemma PartsSoFar(cases: seq<Case>)
    ensures ReportOf(cases).samples == |cases|
    ensures ReportOf(cases).latency == LatencyOf(Map(cases, CaseLatency))
    ensures ReportOf(cases).recovery == RecoveryOf(Recoveries(cases))
  {
    assert Categories([]) == {};
    assert ByCategory([]) == map[];
  }

  /**
    Every count of a report goes up by what the new case says in that one respect, and by nothing else; so every figure
    but the quantiles is what its name says of every corpus.
  */
  lemma OneMoreCase(cases: seq<Case>, c: Case)
    ensures ReportAdds(ReportOf(cases), ReportOf(cases + [c]), c)
  {
    hide OutcomesAdd, SafetyAdds, DimensionsAdd, CostAdds, LatencyAdds, RecoveryAdds;
    hide LatencyOf, RecoveryOf, OutcomesOf, SafetyOf, DimensionsOf, CostOf, Filter;
    OneMoreOutcome(cases, c);
    OneMoreSafety(cases, c);
    OneMoreDimension(cases, c);
    OneMoreCost(cases, c);
    MapAppend(cases, [c], CaseLatency);
    assert Map([c], CaseLatency) == [c.latency];
    OneMoreLatency(Map(cases, CaseLatency), c.latency);
    OneMoreAmongRecoveries(cases, c);
    PartsSoFar(cases);
    if c.recovery.Some? {
      OneMoreRecovery(Recoveries(cases), c.recovery.value);
    } else {
      assert Recoveries(cases) + [] == Recoveries(cases);
    }
  }

  // ----- The quantiles -------------------------------------------------------

  /**
    The median is the middle latency, or the mean of the two middle ones; the other percentile leaves just one latency
    in twenty above it wherever the number of latencies lets it fall on one of them.
  */
  lemma LatencyQuantiles(values: seq<nat>, k: nat)
    requires values != []
    ensures var m, ordered := LatencyOf(values), Sorted(values);
            && Ordered(ordered) && multiset(ordered) == multiset(values) && |ordered| == |values|
            && (|values| == 2 * k + 1 ==> m.p50 == ordered[k] as real)
            && (|values| == 2 * k + 2 ==> m.p50 == (ordered[k] as real + ordered[k + 1] as real) / 2.0)
            && (|values| == 20 * k + 1 ==> m.p95 == ordered[19 * k] as real)
  {
    SortedSorts(values);
    MedianIsTheMiddle(Sorted(values), k);
    if |values| == 20 * k + 1 {
      QuantileAtSample(Sorted(values), 19 * k, 0.95);
    }
  }

  /** The latencies of a report are those of its cases. */
  lemma LatenciesAreTheCases(cases: seq<Case>)
    requires cases != []
    ensures Aggregate(cases).latency == LatencyOf(seq(|cases|, i requires 0 <= i < |cases| => cases[i].latency))
  {
    assert Map(cases, CaseLatency) == seq(|cases|, i requires 0 <= i < |cases| => cases[i].latency);
  }

  /** And those of a category are those of its recoveries. */
  lemma LatenciesAreTheCategorys(observations: seq<Recovery>, k: string)
    requires k in Categories(observations)
    ensures var own := Filter(observations, (o: Recovery) => o.category == k);
            ByCategory(observations)[k].latency
              == LatencyOf(seq(|own|, i requires 0 <= i < |own| => own[i].latency))
  {
    hide LatencyOf;
    var p := (o: Recovery) => o.category == k;
    SameFilter(observations, Named(Category, k), p);
    var own := Filter(observations, p);
    assert Map(own, RecoveryLatency) == seq(|own|, i requires 0 <= i < |own| => own[i].latency);
  }

  lemma {:induction false} SameFilter<T>(xs: seq<T>, p: T -> bool, q: T -> bool)
    requires forall i :: 0 <= i < |xs| ==> p(xs[i]) == q(xs[i])
    ensures Filter(xs, p) == Filter(xs, q)
  {
    if xs != [] {
      SameFilter(xs[..|xs| - 1], p, q);
    }
  }
}
