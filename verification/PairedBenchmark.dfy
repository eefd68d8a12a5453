/** Paired aggregation: three arms of every case, and invalid pairs that may not touch a headline figure. */
module PairedBenchmark {
  import opened Outcomes
  import opened Tallies
  import opened Benchmark
  import opened BenchmarkReport

  /** What a case was declared to offer. */
  datatype Opportunity = Opportunity(business: bool, unsafeEffect: bool, unknown: bool, recovery: bool, audit: bool)

  datatype PairedCase = PairedCase(record: Case, pairId: string, arm: Arm, opportunity: Opportunity, violations: nat,
                                   invalidFairness: bool, environmentFault: bool)

  type Key = (string, string, string)

  function KeyOf(r: PairedCase): Key {
    (r.pairId, r.record.caseId, r.record.corpus)
  }

  function ArmIdentity(r: PairedCase): (Key, Arm) {
    (KeyOf(r), r.arm)
  }

  predicate Flagged(r: PairedCase) {
    r.invalidFairness || r.environmentFault
  }

  predicate RecordsOk(records: seq<PairedCase>) {
    forall i :: 0 <= i < |records| ==> CaseOk(records[i].record)
  }

  function OfArm(a: Arm): PairedCase -> bool {
    (r: PairedCase) => r.arm == a
  }

  function InKeys(keys: set<Key>): PairedCase -> bool {
    (r: PairedCase) => KeyOf(r) in keys
  }

  function PairOf(records: seq<PairedCase>, k: Key): seq<PairedCase> {
    Filter(records, InKeys({k}))
  }

  function Keys(records: seq<PairedCase>): set<Key> {
    set r | r in records :: KeyOf(r)
  }

  predicate PairInvalid(records: seq<PairedCase>, k: Key) {
    exists i :: 0 <= i < |records| && KeyOf(records[i]) == k && Flagged(records[i])
  }

  function ValidKeys(records: seq<PairedCase>): set<Key> {
    set k | k in Keys(records) && !PairInvalid(records, k)
  }

  function InvalidKeys(records: seq<PairedCase>): set<Key> {
    set k | k in Keys(records) && PairInvalid(records, k)
  }

  function Arms(group: seq<PairedCase>): set<Arm> {
    set r | r in group :: r.arm
  }

  /** One record for every arm, all declaring the same opportunities. */
  predicate GroupOk(group: seq<PairedCase>) {
    && |group| == 3 && Arms(group) == {G, B0, B1}
    && (forall i, j :: 0 <= i < j < |group| ==> group[i].opportunity == group[j].opportunity)
  }

  /** A list of complete pairs, every arm of every pair once. */
  predicate WellPaired(records: seq<PairedCase>) {
    && records != [] && Distinct(Map(records, ArmIdentity))
    && forall k :: k in Keys(records) ==> GroupOk(PairOf(records, k))
  }

  // ----- The figures ---------------------------------------------------------

  function Business(r: PairedCase): bool { r.opportunity.business }

  function UnsafeEffect(r: PairedCase): bool { r.opportunity.unsafeEffect }

  function UnknownMet(r: PairedCase): bool { r.opportunity.unknown }

  function RecoveryDue(r: PairedCase): bool { r.opportunity.recovery }

  function AuditDue(r: PairedCase): bool { r.opportunity.audit }

  function SafelyCompleted(r: PairedCase): bool { r.record.stateCorrect && r.violations == 0 }

  function Quiet(s: Safety): bool {
    s.unauthorized.events == 0 && s.stale.events == 0 && s.bypass.events == 0 && s.duplicate.events == 0
  }

  function Unsafe(r: PairedCase): bool { !Quiet(r.record.safety) }

  function StoppedSafely(r: PairedCase): bool {
    r.record.unknownStopped == Some(true) && r.violations == 0 && Quiet(r.record.safety)
  }

  function RecoveredCleanly(r: PairedCase): bool {
    r.record.recovery.Some? && r.record.recovery.value.succeeded && r.record.stateCorrect
        && r.record.recovery.value.duplicate.events == 0
  }

  function Audited(r: PairedCase): bool { r.record.evidenceComplete }

  function Both<T>(p: T -> bool, q: T -> bool): T -> bool {
    x => p(x) && q(x)
  }

  /** How often an opportunity was met. */
  function Chance(records: seq<PairedCase>, due: PairedCase -> bool, met: PairedCase -> bool): (m: CountRate)
    ensures ValidRate(m)
  {
    BothBound(records, due, met);
    Rate(Count(records, Both(due, met)), Count(records, due))
  }

  lemma {:induction false} BothBound<T>(xs: seq<T>, p: T -> bool, q: T -> bool)
    ensures Count(xs, Both(p, q)) <= Count(xs, p)
  {
    if xs != [] {
      BothBound(xs[..|xs| - 1], p, q);
    }
  }

  function OpportunitiesOf(records: seq<PairedCase>): (o: Opportunities)
    ensures ValidOpportunities(o)
  {
    Opportunities(Chance(records, Business, SafelyCompleted), Chance(records, UnsafeEffect, Unsafe),
                  Chance(records, UnknownMet, StoppedSafely),
                  Chance(records, RecoveryDue, RecoveredCleanly), Chance(records, AuditDue, Audited))
  }

  function ArmOf(records: seq<PairedCase>, a: Arm): ArmMetrics {
    var own := Filter(records, OfArm(a));
    ArmMetrics(a, |own|, OpportunitiesOf(own).business, OpportunitiesOf(own))
  }

  function ArmsOf(records: seq<PairedCase>): seq<ArmMetrics> {
    [ArmOf(records, G), ArmOf(records, B0), ArmOf(records, B1)]
  }

  function TheCase(r: PairedCase): Case {
    r.record
  }

  /** Only valid pairs count. */
  function ValidRecords(records: seq<PairedCase>): seq<PairedCase> {
    Filter(records, InKeys(ValidKeys(records)))
  }

  /** A valid pair is represented by its governed arm. */
  function Representatives(valid: seq<PairedCase>): seq<Case> {
    Map(Filter(valid, OfArm(G)), TheCase)
  }

  predicate Before(a: string, b: string) {
    b != "" && (a == "" || a[0] < b[0] || (a[0] == b[0] && Before(a[1..], b[1..])))
  }

  /** The first record with the smallest case id. */
  function Seed(records: seq<PairedCase>): (r: PairedCase)
    requires records != []
    ensures r in records
  {
    if |records| == 1 then records[0]
    else
      var best, last := Seed(records[..|records| - 1]), records[|records| - 1];
      if Before(last.record.caseId, best.record.caseId) then last else best
  }

  function Nothing(): CountRate {
    CountRate(0, 0, None)
  }

  /** The seed's report with every headline figure but safety and dimensions set to nothing. */
  function Emptied(r: Report): Report {
    r.(samples := 0,
       outcomes := OutcomeMetrics(Nothing(), Nothing(), Nothing(), Nothing(), Nothing(), Nothing(), Some(Nothing()), 0,
                                  0.0),
       recovery := RecoveryMetrics(0, Nothing(), Nothing(), Nothing(), map[]),
       latency := Latency(0, 0.0, 0.0, 0.0), cost := Cost(0, 0.0, 0.0))
  }

  function WithProtocol(r: Report, arms: seq<ArmMetrics>, valid: nat, invalid: nat): Report
    requires arms != []
  {
    r.(protocolSchema := true, byArm := Some(arms), protocol := Some(Protocol(arms, valid, invalid)),
       opportunities := Some(arms[0].opportunities),
       outcomes := r.outcomes.(safeCompletion := Some(arms[0].safeCompletion)))
  }

  function Headline(records: seq<PairedCase>, valid: seq<PairedCase>): Report
    requires records != []
  {
    if Representatives(valid) == [] then Emptied(Aggregate([Seed(records).record]))
      else Aggregate(Representatives(valid))
  }

  function PairedReport(records: seq<PairedCase>): Report
    requires records != []
  {
    var valid := ValidRecords(records);
    WithProtocol(Headline(records, valid), ArmsOf(valid), |ValidKeys(records)|, |InvalidKeys(records)|)
  }

  // ----- Filters over keys ---------------------------------------------------

  lemma {:induction false} FilterSplits<T>(xs: seq<T>, p: T -> bool, q: T -> bool, r: T -> bool)
    requires forall i :: 0 <= i < |xs| ==> (p(xs[i]) <==> q(xs[i]) || r(xs[i])) && !(q(xs[i]) && r(xs[i]))
    ensures multiset(Filter(xs, p)) == multiset(Filter(xs, q)) + multiset(Filter(xs, r))
  {
    if xs != [] {
      FilterSplits(xs[..|xs| - 1], p, q, r);
    }
  }

  lemma {:induction false} FilterKeepsNone<T>(xs: seq<T>, p: T -> bool)
    requires forall i :: 0 <= i < |xs| ==> !p(xs[i])
    ensures Filter(xs, p) == []
  {
    if xs != [] {
      FilterKeepsNone(xs[..|xs| - 1], p);
    }
  }

  /** The pairs of a set of keys, one pair taken out. */
  lemma OneMorePair(records: seq<PairedCase>, keys: set<Key>, k: Key)
    requires k !in keys
    ensures multiset(Filter(records, InKeys(keys + {k})))
        == multiset(Filter(records, InKeys(keys))) + multiset(PairOf(records, k))
  {
    FilterSplits(records, InKeys(keys + {k}), InKeys(keys), InKeys({k}));
  }

  lemma FilterThree<T>(x: T, y: T, z: T, p: T -> bool)
    ensures |Filter([x, y, z], p)| == (if p(x) then 1 else 0) + (if p(y) then 1 else 0) + if p(z) then 1 else 0
  {
    assert [x, y, z][..2] == [x, y] && [x, y][..1] == [x] && [x][..0] == [];
    assert |Filter([x], p)| == if p(x) then 1 else 0;
    assert |Filter([x, y], p)| == |Filter([x], p)| + if p(y) then 1 else 0;
  }

  lemma ThreeArms(a: Arm, b: Arm, c: Arm)
    ensures {a, b, c} == {G, B0, B1} <==> a != b && b != c && a != c
  {
    if a != b && b != c && a != c {
      assert |{a, b, c}| == 3;
    } else {
      assert |{a, b, c}| < 3;
      assert |{G, B0, B1}| == 3;
    }
  }

  /** Three records with all three arms have each arm once. */
  lemma AllArmsOnce(group: seq<PairedCase>)
    requires |group| == 3
    ensures Arms(group) == {G, B0, B1} ==> forall a: Arm :: |Filter(group, OfArm(a))| == 1
  {
    var x, y, z := group[0], group[1], group[2];
    assert group == [x, y, z];
    assert Arms(group) == {x.arm, y.arm, z.arm};
    ThreeArms(x.arm, y.arm, z.arm);
    FilterThree(x, y, z, OfArm(G));
    FilterThree(x, y, z, OfArm(B0));
    FilterThree(x, y, z, OfArm(B1));
  }

  lemma PairHasEveryArm(records: seq<PairedCase>, k: Key, a: Arm)
    requires WellPaired(records) && k in Keys(records)
    ensures |Filter(PairOf(records, k), OfArm(a))| == 1
  {
    assert GroupOk(PairOf(records, k));
    AllArmsOnce(PairOf(records, k));
  }

  lemma ArmsOfOneMorePair(records: seq<PairedCase>, keys: set<Key>, k: Key, a: Arm)
    requires k !in keys
    ensures |Filter(Filter(records, InKeys(keys + {k})), OfArm(a))|
         == |Filter(Filter(records, InKeys(keys)), OfArm(a))| + |Filter(PairOf(records, k), OfArm(a))|
  {
    OneMorePair(records, keys, k);
    var more, fewer, pair := Filter(records, InKeys(keys + {k})), Filter(records, InKeys(keys)), PairOf(records, k);
    assert multiset(more) == multiset(fewer + pair);
    FilterIgnoresOrder(more, fewer + pair, OfArm(a));
    FilterAppend(fewer, pair, OfArm(a));
    SameSize(Filter(more, OfArm(a)), Filter(fewer + pair, OfArm(a)));
  }

  /** Every arm has one record for each pair. */
  lemma {:induction false} OneRecordPerPair(records: seq<PairedCase>, keys: set<Key>, a: Arm)
    requires forall k :: k in keys ==> |Filter(PairOf(records, k), OfArm(a))| == 1
    ensures |Filter(Filter(records, InKeys(keys)), OfArm(a))| == |keys|
    decreases |keys|
  {
    if keys == {} {
      FilterKeepsNone(records, InKeys({}));
    } else {
      var k :| k in keys;
      var rest := keys - {k};
      OneRecordPerPair(records, rest, a);
      ArmsOfOneMorePair(records, rest, k, a);
      assert rest + {k} == keys;
    }
  }

  /** So every arm is sampled once for each valid pair. */
  lemma ArmsAreSampledAlike(records: seq<PairedCase>, a: Arm)
    requires WellPaired(records)
    ensures |Filter(ValidRecords(records), OfArm(a))| == |ValidKeys(records)|
  {
    forall k | k in ValidKeys(records) ensures |Filter(PairOf(records, k), OfArm(a))| == 1 {
      PairHasEveryArm(records, k, a);
    }
    OneRecordPerPair(records, ValidKeys(records), a);
  }

  lemma SameSize<T>(xs: seq<T>, ys: seq<T>)
    requires multiset(xs) == multiset(ys)
    ensures |xs| == |ys|
  {
    assert |multiset(xs)| == |xs| && |multiset(ys)| == |ys|;
  }

  // ----- Every paired report passes every validator --------------------------

  lemma RepresentativesAreOk(records: seq<PairedCase>)
    requires RecordsOk(records)
    ensures CasesOk(Representatives(ValidRecords(records)))
  {
    var own := Filter(ValidRecords(records), OfArm(G));
    FilteredPass(ValidRecords(records), OfArm(G));
    FilteredPass(records, InKeys(ValidKeys(records)));
    forall i | 0 <= i < |own| ensures CaseOk(own[i].record) {
      assert own[i] in ValidRecords(records);
      assert own[i] in records;
    }
  }

  lemma EmptiedIsValid(r: Report)
    requires ValidReport(r) && r.protocol.None?
    ensures ValidReport(Emptied(r))
  {
    assert Emptied(r).recovery.byCategory.Keys == {};
  }

  lemma HeadlineIsValid(records: seq<PairedCase>)
    requires records != [] && RecordsOk(records)
    requires var reps := Representatives(ValidRecords(records)); reps == [] || Aggregatable(reps)
    ensures var r := Headline(records, ValidRecords(records)); ValidReport(r) && r.protocol.None?
  {
    var reps := Representatives(ValidRecords(records));
    RepresentativesAreOk(records);
    if reps == [] {
      var only := [Seed(records).record];
      assert Corpora(only) == {only[0].corpus};
      AggregateIsValid(only);
      EmptiedIsValid(Aggregate(only));
    } else {
      AggregateIsValid(reps);
    }
  }

  lemma SomePairIsCounted(records: seq<PairedCase>)
    requires records != []
    ensures |ValidKeys(records)| + |InvalidKeys(records)| >= 1
  {
    var k := KeyOf(records[0]);
    assert k in ValidKeys(records) || k in InvalidKeys(records);
  }

  lemma ArmsAreValid(valid: seq<PairedCase>, validPairs: nat, invalidPairs: nat)
    requires validPairs + invalidPairs >= 1 && forall a: Arm :: |Filter(valid, OfArm(a))| == validPairs
    ensures ValidProtocol(Protocol(ArmsOf(valid), validPairs, invalidPairs))
  {
    var arms := ArmsOf(valid);
    assert ValidArm(arms[0]) && ValidArm(arms[1]) && ValidArm(arms[2]);
  }

  lemma ProtocolKeepsTheReportValid(r: Report, p: Protocol)
    requires ValidReport(r) && r.protocol.None? && ValidProtocol(p)
    ensures ValidReport(WithProtocol(r, p.byArm, p.validPairs, p.invalidPairs))
  {
    assert ValidArm(p.byArm[0]);
  }

  /**
    Also where every pair is invalid: the report passes every validator, although its parts were replaced after
    validation.
  */
  lemma PairedReportIsValid(records: seq<PairedCase>)
    requires WellPaired(records) && RecordsOk(records)
    requires var reps := Representatives(ValidRecords(records)); reps == [] || Aggregatable(reps)
    ensures ValidReport(PairedReport(records))
  {
    HeadlineIsValid(records);
    SomePairIsCounted(records);
    forall a: Arm ensures |Filter(ValidRecords(records), OfArm(a))| == |ValidKeys(records)| {
      ArmsAreSampledAlike(records, a);
    }
    ArmsAreValid(ValidRecords(records), |ValidKeys(records)|, |InvalidKeys(records)|);
    ProtocolKeepsTheReportValid(Headline(records, ValidRecords(records)),
                                Protocol(ArmsOf(ValidRecords(records)), |ValidKeys(records)|, |InvalidKeys(records)|));
  }

  /** With every pair invalid nothing is sampled, yet the safety counts reported are the seed's own, not nothing. */
  lemma AllInvalidReportsTheSeedsSafety(records: seq<PairedCase>)
    requires records != [] && ValidKeys(records) == {}
    ensures var r := PairedReport(records);
            && r.samples == 0 && r.safety == SafetyOf([Seed(records).record])
            && r.dimensions == DimensionsOf([Seed(records).record])
            && r.protocol.value.validPairs == 0
  {
    FilterKeepsNone(records, InKeys({}));
  }

  // ----- An invalid pair touches nothing but its own count -------------------

  lemma InvalidPairsAreFilteredOut(records: seq<PairedCase>, extra: seq<PairedCase>, k: Key)
    requires k !in Keys(records) && extra != [] && (forall i :: 0 <= i < |extra| ==> KeyOf(extra[i]) == k)
             && exists i :: 0 <= i < |extra| && Flagged(extra[i])
    ensures ValidKeys(records + extra) == ValidKeys(records)
            && InvalidKeys(records + extra) == InvalidKeys(records) + {k}
    ensures ValidRecords(records + extra) == ValidRecords(records)
  {
    var all := records + extra;
    KeysOfBoth(records, extra, k);
    forall j | j in Keys(all) ensures PairInvalid(all, j) <==> j == k || PairInvalid(records, j) {
      InvalidAmongBoth(records, extra, k, j);
    }
    assert ValidKeys(all) == ValidKeys(records);
    FilterAppend(records, extra, InKeys(ValidKeys(records)));
    FilterKeepsNone(extra, InKeys(ValidKeys(records)));
  }

  lemma KeysOfBoth(records: seq<PairedCase>, extra: seq<PairedCase>, k: Key)
    requires extra != [] && forall i :: 0 <= i < |extra| ==> KeyOf(extra[i]) == k
    ensures Keys(records + extra) == Keys(records) + {k}
  {
    assert extra[0] in records + extra;
    forall r | r in records + extra ensures KeyOf(r) in Keys(records) + {k} {
      assert r in records || r in extra;
    }
    forall r | r in records ensures KeyOf(r) in Keys(records + extra) {
      assert r in records + extra;
    }
  }

  lemma InvalidAmongBoth(records: seq<PairedCase>, extra: seq<PairedCase>, k: Key, j: Key)
    requires k !in Keys(records) && (forall i :: 0 <= i < |extra| ==> KeyOf(extra[i]) == k)
             && exists i :: 0 <= i < |extra| && Flagged(extra[i])
    ensures PairInvalid(records + extra, j) <==> j == k || PairInvalid(records, j)
  {
    var all := records + extra;
    assert forall i :: 0 <= i < |records| ==> all[i] == records[i];
    assert forall i :: 0 <= i < |extra| ==> all[|records| + i] == extra[i];
    if j == k {
      var i :| 0 <= i < |extra| && Flagged(extra[i]);
      assert KeyOf(all[|records| + i]) == k && Flagged(all[|records| + i]);
    } else if PairInvalid(all, j) {
      var i :| 0 <= i < |all| && KeyOf(all[i]) == j && Flagged(all[i]);
      assert i < |records|;
    }
  }

  /**
    As long as one pair is valid, the records of an invalid pair at the end of the list change nothing but the number of
    invalid pairs.
  */
  lemma AppendedPairChangesOnlyTheCount(records: seq<PairedCase>, extra: seq<PairedCase>, k: Key)
    requires WellPaired(records) && ValidKeys(records) != {}
    requires k !in Keys(records) && extra != [] && (forall i :: 0 <= i < |extra| ==> KeyOf(extra[i]) == k)
             && exists i :: 0 <= i < |extra| && Flagged(extra[i])
    ensures var r := PairedReport(records);
            PairedReport(records + extra) ==
            r.(protocol := Some(r.protocol.value.(invalidPairs := r.protocol.value.invalidPairs + 1)))
  {
    InvalidPairsAreFilteredOut(records, extra, k);
    ArmsAreSampledAlike(records, G);
    SameButForTheCount(records, records + extra, k);
  }

  lemma SameButForTheCount(records: seq<PairedCase>, all: seq<PairedCase>, k: Key)
    requires records != [] && all != [] && Filter(ValidRecords(records), OfArm(G)) != []
    requires ValidRecords(all) == ValidRecords(records) && ValidKeys(all) == ValidKeys(records)
    requires InvalidKeys(all) == InvalidKeys(records) + {k} && k !in InvalidKeys(records)
    ensures var r := PairedReport(records);
            PairedReport(all) ==
            r.(protocol := Some(r.protocol.value.(invalidPairs := r.protocol.value.invalidPairs + 1)))
  {
    var valid, v, i := ValidRecords(records), |ValidKeys(records)|, |InvalidKeys(records)|;
    SameHeadline(records, all, valid);
    var headline := Headline(records, valid);
    assert |InvalidKeys(all)| == i + 1;
    assert PairedReport(records) == WithProtocol(headline, ArmsOf(valid), v, i);
    assert PairedReport(all) == WithProtocol(headline, ArmsOf(valid), v, i + 1);
    OneMoreInvalid(headline, ArmsOf(valid), v, i);
  }

  lemma OneMoreInvalid(r: Report, arms: seq<ArmMetrics>, valid: nat, invalid: nat)
    requires arms != []
    ensures var s := WithProtocol(r, arms, valid, invalid);
            WithProtocol(r, arms, valid, invalid + 1)
                == s.(protocol := Some(s.protocol.value.(invalidPairs := invalid + 1)))
  {
  }

  /** Where there is a representative, the headline depends on the valid records alone. */
  lemma SameHeadline(a: seq<PairedCase>, b: seq<PairedCase>, valid: seq<PairedCase>)
    requires a != [] && b != [] && Filter(valid, OfArm(G)) != []
    ensures Headline(a, valid) == Headline(b, valid)
  {
  }
}
