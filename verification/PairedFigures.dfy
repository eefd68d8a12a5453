/** Which records a paired report counts, and what for. */
module PairedFigures {
  import opened Outcomes
  import opened Tallies
  import opened Benchmark
  import opened BenchmarkReport
  import opened BenchmarkFigures
  import opened PairedBenchmark
  import opened PairedAggregation
  import opened PairedOrder

  // ----- Pairs ---------------------------------------------------------------

  /** Two records of one case in one pair. */
  predicate SamePair(a: PairedCase, b: PairedCase) {
    a.pairId == b.pairId && a.record.caseId == b.record.caseId && a.record.corpus == b.record.corpus
  }

  /** Some record of its pair reports unfairness or a fault of the environment. */
  predicate Spoiled(records: seq<PairedCase>, r: PairedCase) {
    exists s :: s in records && SamePair(s, r) && (s.invalidFairness || s.environmentFault)
  }

  /** The pair of `r` has a record of the arm that declares the same opportunities. */
  predicate HasArm(records: seq<PairedCase>, r: PairedCase, a: Arm) {
    exists i :: 0 <= i < |records| && SamePair(records[i], r) && records[i].arm == a
                && records[i].opportunity == r.opportunity
  }

  /** Exactly one record of each arm belongs to the pair of `r`, and all of them declare the same opportunities. */
  predicate WholePair(records: seq<PairedCase>, r: PairedCase) {
    && (forall a: Arm :: HasArm(records, r, a))
    && (forall i, j :: 0 <= i < j < |records| && SamePair(records[i], r) && SamePair(records[j], r) ==>
          records[i].arm != records[j].arm)
  }

  lemma PairsAreKeys(a: PairedCase, b: PairedCase)
    ensures SamePair(a, b) <==> KeyOf(a) == KeyOf(b)
  {
  }

  lemma ArmOfPair(records: seq<PairedCase>, r: PairedCase, a: Arm)
    requires WellPaired(records) && r in records
    ensures HasArm(records, r, a)
  {
    var k := KeyOf(r);
    var pair := PairOf(records, k);
    PairHasEveryArm(records, k, a);
    FilteredPass(pair, OfArm(a));
    FilteredPass(records, InKeys({k}));
    var x := Filter(pair, OfArm(a))[0];
    assert x in pair && x in records && x.arm == a;
    var j :| 0 <= j < |records| && records[j] == r;
    assert InKeys({k})(records[j]);
    assert r in pair;
    assert GroupOk(pair);
    var i :| 0 <= i < |records| && records[i] == x;
  }

  lemma ArmsOfPairDiffer(records: seq<PairedCase>, i: nat, j: nat)
    requires Distinct(Map(records, ArmIdentity)) && i < j < |records| && SamePair(records[i], records[j])
    ensures records[i].arm != records[j].arm
  {
    assert Map(records, ArmIdentity)[i] != Map(records, ArmIdentity)[j];
  }

  lemma WholePairsAreGroups(records: seq<PairedCase>, r: PairedCase)
    requires r in records && WholePair(records, r)
    ensures GroupOk(PairOf(records, KeyOf(r)))
  {
    var k := KeyOf(r);
    var pair := PairOf(records, k);
    FilteredPass(records, InKeys({k}));
    forall a: Arm ensures |Filter(pair, OfArm(a))| == 1 && exists s :: s in pair && s.arm == a {
      OneOfArm(records, r, a);
    }
    ThreeParts(pair);
    forall x, y | x in pair && y in pair ensures x.opportunity == y.opportunity {
      OpportunityOfPair(records, r, x);
      OpportunityOfPair(records, r, y);
    }
  }

  lemma OpportunityOfPair(records: seq<PairedCase>, r: PairedCase, x: PairedCase)
    requires WholePair(records, r) && x in PairOf(records, KeyOf(r))
    ensures x.opportunity == r.opportunity
  {
    FilteredPass(records, InKeys({KeyOf(r)}));
    var n :| 0 <= n < |PairOf(records, KeyOf(r))| && PairOf(records, KeyOf(r))[n] == x;
    var i :| 0 <= i < |records| && records[i] == x;
    assert HasArm(records, r, x.arm);
    var j :| 0 <= j < |records| && SamePair(records[j], r) && records[j].arm == x.arm
             && records[j].opportunity == r.opportunity;
    assert i == j;
  }

  lemma OneOfArm(records: seq<PairedCase>, r: PairedCase, a: Arm)
    requires WholePair(records, r)
    ensures |Filter(PairOf(records, KeyOf(r)), OfArm(a))| == 1
    ensures exists s :: s in PairOf(records, KeyOf(r)) && s.arm == a
  {
    var p := (s: PairedCase) => SamePair(s, r) && s.arm == a;
    FilterTwice(records, InKeys({KeyOf(r)}), OfArm(a), p);
    assert HasArm(records, r, a);
    var i :| 0 <= i < |records| && SamePair(records[i], r) && records[i].arm == a;
    FilterKeepsOne(records, p, i);
    FilteredPass(records, InKeys({KeyOf(r)}));
    assert InKeys({KeyOf(r)})(records[i]);
  }

  lemma {:induction false} FilterTwice<T>(xs: seq<T>, p: T -> bool, q: T -> bool, both: T -> bool)
    requires forall i :: 0 <= i < |xs| ==> (both(xs[i]) <==> p(xs[i]) && q(xs[i]))
    ensures Filter(Filter(xs, p), q) == Filter(xs, both)
  {
    if xs != [] {
      var front, x := xs[..|xs| - 1], xs[|xs| - 1];
      FilterTwice(front, p, q, both);
      FilterAppend(Filter(front, p), if p(x) then [x] else [], q);
      assert [x][..0] == [];
    }
  }

  lemma {:induction false} FilterKeepsOne<T>(xs: seq<T>, p: T -> bool, i: nat)
    requires i < |xs| && p(xs[i]) && forall j :: 0 <= j < |xs| && p(xs[j]) ==> j == i
    ensures Filter(xs, p) == [xs[i]]
  {
    var n := |xs| - 1;
    if i == n {
      FilterKeepsNone(xs[..n], p);
    } else {
      FilterKeepsOne(xs[..n], p, i);
    }
  }

  /** One of each arm makes three. */
  lemma ThreeParts(group: seq<PairedCase>)
    requires forall a: Arm :: |Filter(group, OfArm(a))| == 1 && exists s :: s in group && s.arm == a
    ensures |group| == 3 && Arms(group) == {G, B0, B1}
  {
    SizeOfFiltered(group, OfArm(G));
    SizeOfFiltered(group, OfArm(B0));
    SizeOfFiltered(group, OfArm(B1));
    ArmsPartition(group);
    forall a: Arm ensures a in Arms(group) {
      var s :| s in group && s.arm == a;
    }
  }

  lemma {:induction false} ArmsPartition(group: seq<PairedCase>)
    ensures |group| == Count(group, OfArm(G)) + Count(group, OfArm(B0)) + Count(group, OfArm(B1))
  {
    if group != [] {
      ArmsPartition(group[..|group| - 1]);
    }
  }

  /** A list is made of complete pairs exactly when every record has its whole pair in it, every arm once. */
  lemma WhatCompletePairsAre(records: seq<PairedCase>)
    ensures WellPaired(records) <==> records != [] && forall r :: r in records ==> WholePair(records, r)
  {
    if WellPaired(records) {
      forall r | r in records ensures WholePair(records, r) {
        forall a: Arm ensures HasArm(records, r, a) {
          ArmOfPair(records, r, a);
        }
        forall i, j | 0 <= i < j < |records| && SamePair(records[i], r) && SamePair(records[j], r)
          ensures records[i].arm != records[j].arm
        {
          ArmsOfPairDiffer(records, i, j);
        }
      }
    }
    if records != [] && forall r :: r in records ==> WholePair(records, r) {
      forall i, j | 0 <= i < j < |records| ensures Map(records, ArmIdentity)[i] != Map(records, ArmIdentity)[j] {
        assert WholePair(records, records[i]);
      }
      forall k | k in Keys(records) ensures GroupOk(PairOf(records, k)) {
        var r :| r in records && KeyOf(r) == k;
        WholePairsAreGroups(records, r);
      }
    }
  }

  // ----- Who is counted ------------------------------------------------------

  /** The records of unspoiled pairs, in their order. */
  function Counted(records: seq<PairedCase>): seq<PairedCase> {
    Filter(records, (r: PairedCase) => !Spoiled(records, r))
  }

  /** Of these, the records of one arm. */
  function CountedOf(records: seq<PairedCase>, a: Arm): seq<PairedCase> {
    Filter(Counted(records), (r: PairedCase) => r.arm == a)
  }

  /** The pairs in which some record fits. */
  function PairsWith(records: seq<PairedCase>, p: PairedCase -> bool): set<(string, string, string)> {
    set r | r in records && p(r) :: (r.pairId, r.record.caseId, r.record.corpus)
  }

  lemma SpoiledIsInvalid(records: seq<PairedCase>, r: PairedCase)
    ensures Spoiled(records, r) <==> PairInvalid(records, KeyOf(r))
  {
    FlaggedRecord(records, KeyOf(r));
  }

  lemma CountedAreValid(records: seq<PairedCase>)
    ensures ValidRecords(records) == Counted(records)
    ensures ValidKeys(records) == PairsWith(records, (r: PairedCase) => !Spoiled(records, r))
    ensures InvalidKeys(records) == PairsWith(records, (r: PairedCase) => Spoiled(records, r))
  {
    forall i | 0 <= i < |records|
      ensures InKeys(ValidKeys(records))(records[i]) <==> !Spoiled(records, records[i])
    {
      SpoiledIsInvalid(records, records[i]);
      assert records[i] in records;
    }
    SameFilter(records, InKeys(ValidKeys(records)), (r: PairedCase) => !Spoiled(records, r));
    forall r | r in records ensures PairInvalid(records, KeyOf(r)) <==> Spoiled(records, r) {
      SpoiledIsInvalid(records, r);
    }
  }

  lemma OfArmIsArm(records: seq<PairedCase>, a: Arm)
    ensures Filter(ValidRecords(records), OfArm(a)) == CountedOf(records, a)
  {
    CountedAreValid(records);
    SameFilter(Counted(records), OfArm(a), (r: PairedCase) => r.arm == a);
  }

  /** How an arm is measured. */
  function ArmOn(records: seq<PairedCase>, a: Arm): ArmMetrics {
    var own := CountedOf(records, a);
    ArmMetrics(a, |own|, OpportunitiesOf(own).business, OpportunitiesOf(own))
  }

  /** Two reports agree on everything but the protocol's own parts. */
  predicate SameHeadlines(r: Report, headline: Report) {
    && r.samples == headline.samples && r.dimensions == headline.dimensions && r.safety == headline.safety
    && r.outcomes.(safeCompletion := None) == headline.outcomes
    && r.recovery == headline.recovery && r.latency == headline.latency && r.cost == headline.cost
  }

  /** The cases the records are of. */
  function CasesIn(records: seq<PairedCase>): (cases: seq<Case>)
    ensures |cases| == |records| && forall i :: 0 <= i < |records| ==> cases[i] == records[i].record
  {
    seq(|records|, i requires 0 <= i < |records| => records[i].record)
  }

  /** The headline of a paired report is the report of the governed records of the unspoiled pairs. */
  lemma GovernedRecordsMakeTheHeadline(records: seq<PairedCase>)
    requires records != [] && CountedOf(records, G) != []
    ensures var governed := CountedOf(records, G);
            SameHeadlines(PairedReport(records), Aggregate(CasesIn(governed)))
  {
    hide Aggregate;
    CountedAreValid(records);
    OfArmIsArm(records, G);
    var governed := CountedOf(records, G);
    assert Map(governed, TheCase) == CasesIn(governed);
    HeadlinesLackCompletion(Map(governed, TheCase));
  }

  /**
    There is a headline exactly when the governed records of the unspoiled pairs are of one corpus, and no two of them
    of one case.
  */
  lemma WhatHasAHeadline(records: seq<PairedCase>)
    ensures var reps := Representatives(ValidRecords(records)); var governed := CountedOf(records, G);
            (reps == [] || Aggregatable(reps)) <==>
              forall i, j :: 0 <= i < j < |governed| ==>
                               && governed[i].record.corpus == governed[j].record.corpus
                               && governed[i].record.caseId != governed[j].record.caseId
  {
    CountedAreValid(records);
    OfArmIsArm(records, G);
    var reps, governed := Representatives(ValidRecords(records)), CountedOf(records, G);
    assert |reps| == |governed| && forall i :: 0 <= i < |reps| ==> reps[i] == governed[i].record;
    WhatIsAggregatable(reps);
  }

  lemma HeadlinesLackCompletion(cases: seq<Case>)
    requires cases != []
    ensures Aggregate(cases).outcomes.safeCompletion.None?
  {
  }

  /** Each arm is measured on its own records of those pairs, in the order G, B0, B1, and both kinds of pairs count. */
  lemma ArmsAndPairsAreCounted(records: seq<PairedCase>)
    requires records != []
    ensures var r := PairedReport(records);
            && r.protocolSchema
            && r.protocol == Some(Protocol([ArmOn(records, G), ArmOn(records, B0), ArmOn(records, B1)],
                                           |PairsWith(records, (x: PairedCase) => !Spoiled(records, x))|,
                                           |PairsWith(records, (x: PairedCase) => Spoiled(records, x))|))
            && r.byArm == Some([ArmOn(records, G), ArmOn(records, B0), ArmOn(records, B1)])
            && r.opportunities == Some(ArmOn(records, G).opportunities)
            && r.outcomes.safeCompletion == Some(ArmOn(records, G).opportunities.business)
  {
    hide Headline, OpportunitiesOf;
    CountedAreValid(records);
    OfArmIsArm(records, G);
    OfArmIsArm(records, B0);
    OfArmIsArm(records, B1);
  }

  // ----- What an opportunity counts ------------------------------------------

  /** Nothing unauthorized, stale, bypassing or duplicate happened. */
  predicate NothingHappened(s: Safety) {
    (s.unauthorized.events, s.stale.events, s.bypass.events, s.duplicate.events) == (0, 0, 0, 0)
  }

  /** An opportunity that was declared, and one that was declared and met. */
  predicate ChanceAdds(before: CountRate, after: CountRate, due: bool, met: bool) {
    Adds(before, after, Bit(due && met), Bit(due))
  }

  /** One record more. */
  predicate OpportunitiesAdd(before: Opportunities, after: Opportunities, r: PairedCase) {
    && ChanceAdds(before.business, after.business, r.opportunity.business,
                  r.record.stateCorrect && r.violations == 0)
    && ChanceAdds(before.unsafeEffect, after.unsafeEffect, r.opportunity.unsafeEffect,
                  !NothingHappened(r.record.safety))
    && ChanceAdds(before.unknown, after.unknown, r.opportunity.unknown,
                  r.record.unknownStopped == Some(true) && r.violations == 0 && NothingHappened(r.record.safety))
    && ChanceAdds(before.recovery, after.recovery, r.opportunity.recovery,
                  && r.record.recovery.Some? && r.record.recovery.value.succeeded && r.record.stateCorrect
                  && r.record.recovery.value.duplicate.events == 0)
    && ChanceAdds(before.audit, after.audit, r.opportunity.audit, r.record.evidenceComplete)
  }

  lemma OneMoreChance(records: seq<PairedCase>, r: PairedCase, due: PairedCase -> bool, met: PairedCase -> bool)
    ensures ChanceAdds(Chance(records, due, met), Chance(records + [r], due, met), due(r), met(r))
  {
    OneMoreTotal(records, r, Indicator(Both(due, met)));
    OneMoreTotal(records, r, Indicator(due));
  }

  /** A record counts only for the opportunities it was declared to offer, as met exactly when it says so itself. */
  lemma OneMoreRecord(records: seq<PairedCase>, r: PairedCase)
    ensures OpportunitiesAdd(OpportunitiesOf(records), OpportunitiesOf(records + [r]), r)
    ensures OpportunitiesOf([]) == Opportunities(NO_RATE, NO_RATE, NO_RATE, NO_RATE, NO_RATE)
  {
    hide Chance;
    OneMoreChance(records, r, Business, SafelyCompleted);
    OneMoreChance(records, r, UnsafeEffect, Unsafe);
    OneMoreChance(records, r, UnknownMet, StoppedSafely);
    OneMoreChance(records, r, RecoveryDue, RecoveredCleanly);
    OneMoreChance(records, r, AuditDue, Audited);
    NoChances();
  }

  lemma NoChances()
    ensures forall due, met :: Chance([], due, met) == NO_RATE
  {
  }

  // ----- The seed ------------------------------------------------------------

  /** One text comes before another where they first differ, or where the first one ends. */
  predicate ComesFirstAt(a: string, b: string, n: int) {
    0 <= n <= |a| && n < |b| && a[..n] == b[..n] && (n == |a| || a[n] < b[n])
  }

  lemma SameStart(a: string, b: string, n: int)
    requires ComesFirstAt(a, b, n)
    ensures n > 0 ==> a != "" && b != "" && a[0] == b[0]
  {
    if n > 0 {
      assert a[..n][0] == b[..n][0];
    }
  }

  lemma {:induction false} BeforeIsAlphabetical(a: string, b: string)
    ensures Before(a, b) <==> exists n :: ComesFirstAt(a, b, n)
  {
    if a == "" || b == "" || a[0] != b[0] {
      if Before(a, b) {
        assert ComesFirstAt(a, b, 0);
      }
      if n :| ComesFirstAt(a, b, n) {
        SameStart(a, b, n);
      }
    } else {
      BeforeIsAlphabetical(a[1..], b[1..]);
      if Before(a, b) {
        var n :| ComesFirstAt(a[1..], b[1..], n);
        assert a[..n + 1] == [a[0]] + a[1..][..n] && b[..n + 1] == [b[0]] + b[1..][..n];
        assert ComesFirstAt(a, b, n + 1);
      }
      if n :| ComesFirstAt(a, b, n) {
        assert n > 0;
        assert a[1..][..n - 1] == a[..n][1..] && b[1..][..n - 1] == b[..n][1..];
        assert ComesFirstAt(a[1..], b[1..], n - 1);
      }
    }
  }

  /** The case ids of all records before it come after its own. */
  predicate IsFirst(records: seq<PairedCase>, i: int) {
    && 0 <= i < |records|
    && forall j :: 0 <= j < i ==> Before(records[i].record.caseId, records[j].record.caseId)
  }

  lemma EarlierOnesComeAfter(front: seq<PairedCase>, best: PairedCase, last: PairedCase)
    requires Least(front, best) && Before(last.record.caseId, best.record.caseId)
    ensures IsFirst(front + [last], |front|)
  {
    hide Before;
    forall j | 0 <= j < |front| ensures Before(last.record.caseId, front[j].record.caseId) {
      BeforeIsStrict(last.record.caseId, best.record.caseId, front[j].record.caseId);
      BeforeIsStrict(best.record.caseId, front[j].record.caseId, "");
    }
  }

  lemma {:induction false} SeedIsFirst(records: seq<PairedCase>)
    requires records != []
    ensures exists i :: IsFirst(records, i) && records[i] == Seed(records)
  {
    hide Before, Least;
    var n := |records| - 1;
    if n == 0 {
      assert IsFirst(records, 0);
    } else {
      var front, last := records[..n], records[n];
      assert records == front + [last];
      SeedIsFirst(front);
      SeedIsLeast(front);
      var i :| IsFirst(front, i) && front[i] == Seed(front);
      if Before(last.record.caseId, front[i].record.caseId) {
        EarlierOnesComeAfter(front, front[i], last);
      } else {
        assert IsFirst(records, i);
      }
    }
  }

  /**
    Without an unspoiled pair the report samples nothing, and keeps only what the first record with the alphabetically
    least case id says of safety and dimensions.
  */
  lemma NobodyIsCounted(records: seq<PairedCase>)
    requires records != [] && Counted(records) == []
    ensures var r := PairedReport(records); var seed := Seed(records);
            && Least(records, seed) && (exists i :: IsFirst(records, i) && records[i] == seed)
            && SameHeadlines(r, EMPTY.(outcomes := r.outcomes.(safeCompletion := None), safety := r.safety,
                                       dimensions := r.dimensions))
            && r.outcomes == OutcomeMetrics(NO_RATE, NO_RATE, NO_RATE, NO_RATE, NO_RATE, NO_RATE, Some(NO_RATE), 0, 0.0)
            && SafetyAdds(EMPTY.safety, r.safety, seed.record.safety)
            && DimensionsAdd(EMPTY.dimensions, r.dimensions, seed.record)
  {
    hide PairedReport, SameHeadlines, SafetyAdds, DimensionsAdd, SafetyOf, DimensionsOf;
    CountedAreValid(records);
    SeedIsLeast(records);
    SeedIsFirst(records);
    NobodysReport(records);
    var seed := Seed(records).record;
    OneMoreSafety([], seed);
    OneMoreDimension([], seed);
    assert [] + [seed] == [seed];
    assert ReportOf([]) == EMPTY;
  }

  lemma NobodysReport(records: seq<PairedCase>)
    requires records != [] && ValidRecords(records) == []
    ensures var r := PairedReport(records); var seed := Seed(records).record;
            && SameHeadlines(r, EMPTY.(outcomes := r.outcomes.(safeCompletion := None), safety := r.safety,
                                       dimensions := r.dimensions))
            && r.outcomes == OutcomeMetrics(NO_RATE, NO_RATE, NO_RATE, NO_RATE, NO_RATE, NO_RATE, Some(NO_RATE), 0, 0.0)
            && r.safety == SafetyOf([seed]) && r.dimensions == DimensionsOf([seed])
  {
    hide SafetyOf, DimensionsOf, Seed;
    assert Representatives([]) == [];
  }
}
