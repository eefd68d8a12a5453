/** What the order of the records decides in a paired report, and what an added pair does to it. */
module PairedOrder {
  import opened Outcomes
  import opened Tallies
  import opened Benchmark
  import opened BenchmarkReport
  import opened PairedBenchmark
  import opened PairedAggregation

  lemma KeysIgnoreOrder(a: seq<PairedCase>, b: seq<PairedCase>)
    requires multiset(a) == multiset(b)
    ensures ValidKeys(a) == ValidKeys(b) && InvalidKeys(a) == InvalidKeys(b)
  {
    forall r ensures r in a <==> r in b {
      assert r in multiset(a) <==> r in multiset(b);
    }
    assert Keys(a) == Keys(b);
    forall k ensures PairInvalid(a, k) <==> PairInvalid(b, k) {
      FlaggedRecord(a, k);
      FlaggedRecord(b, k);
    }
  }

  lemma FlaggedRecord(records: seq<PairedCase>, k: Key)
    ensures PairInvalid(records, k) <==> exists r :: r in records && KeyOf(r) == k && Flagged(r)
  {
  }

  /** As long as one pair is valid, reordering the records changes nothing in the report. */
  lemma PairedReportIgnoresOrder(a: seq<PairedCase>, b: seq<PairedCase>)
    requires multiset(a) == multiset(b) && WellPaired(a) && b != [] && ValidKeys(a) != {}
    ensures PairedReport(a) == PairedReport(b)
  {
    KeysIgnoreOrder(a, b);
    FilterIgnoresOrder(a, b, InKeys(ValidKeys(a)));
    ArmsAreSampledAlike(a, G);
    SameFigures(a, b);
  }

  lemma SameFigures(a: seq<PairedCase>, b: seq<PairedCase>)
    requires a != [] && b != [] && ValidKeys(a) == ValidKeys(b) && InvalidKeys(a) == InvalidKeys(b)
    requires multiset(ValidRecords(a)) == multiset(ValidRecords(b)) && Filter(ValidRecords(a), OfArm(G)) != []
    ensures PairedReport(a) == PairedReport(b)
  {
    HeadlineIgnoresOrder(a, ValidRecords(a), ValidRecords(b));
    SameHeadline(a, b, ValidRecords(b));
    ArmsIgnoreOrder(ValidRecords(a), ValidRecords(b));
  }

  // ----- Completeness of the list --------------------------------------------

  lemma SameMembers<T(!new)>(a: seq<T>, b: seq<T>)
    requires multiset(a) == multiset(b)
    ensures forall x :: x in a <==> x in b
  {
    forall x ensures x in a <==> x in b {
      assert x in multiset(a) <==> x in multiset(b);
    }
  }

  lemma GroupOkIgnoresOrder(a: seq<PairedCase>, b: seq<PairedCase>)
    requires multiset(a) == multiset(b)
    ensures GroupOk(a) <==> GroupOk(b)
  {
    SameSize(a, b);
    SameMembers(a, b);
    assert Arms(a) == Arms(b) && Offers(a) == Offers(b);
    if a != [] {
      OneOffer(a);
      OneOffer(b);
    }
  }

  /** Whether a list is made of complete pairs does not depend on its order. */
  lemma WellPairedIgnoresOrder(a: seq<PairedCase>, b: seq<PairedCase>)
    requires multiset(a) == multiset(b)
    ensures WellPaired(a) <==> WellPaired(b)
  {
    SameSize(a, b);
    SameMembers(a, b);
    assert Keys(a) == Keys(b);
    MapIgnoresOrder(a, b, ArmIdentity);
    DistinctIgnoresOrder(Map(a, ArmIdentity), Map(b, ArmIdentity));
    forall k ensures GroupOk(PairOf(a, k)) <==> GroupOk(PairOf(b, k)) {
      FilterIgnoresOrder(a, b, InKeys({k}));
      GroupOkIgnoresOrder(PairOf(a, k), PairOf(b, k));
    }
  }

  lemma {:induction false} FilterKeepsAll<T>(xs: seq<T>, p: T -> bool)
    requires forall i :: 0 <= i < |xs| ==> p(xs[i])
    ensures Filter(xs, p) == xs
  {
    if xs != [] {
      FilterKeepsAll(xs[..|xs| - 1], p);
    }
  }

  lemma PairsOfBoth(records: seq<PairedCase>, extra: seq<PairedCase>, k: Key, j: Key)
    requires k !in Keys(records) && forall i :: 0 <= i < |extra| ==> KeyOf(extra[i]) == k
    ensures PairOf(records + extra, j) == if j == k then extra else PairOf(records, j)
  {
    FilterAppend(records, extra, InKeys({j}));
    if j == k {
      NoPairYet(records, k);
      FilterKeepsAll(extra, InKeys({k}));
    } else {
      FilterKeepsNone(extra, InKeys({j}));
    }
  }

  lemma DistinctArms(group: seq<PairedCase>)
    requires GroupOk(group)
    ensures forall i, j :: 0 <= i < j < |group| ==> group[i].arm != group[j].arm
  {
    var x, y, z := group[0].arm, group[1].arm, group[2].arm;
    assert Arms(group) == {x, y, z};
    ThreeArms(x, y, z);
  }

  lemma DistinctBoth(records: seq<PairedCase>, extra: seq<PairedCase>, k: Key)
    requires k !in Keys(records) && forall i :: 0 <= i < |extra| ==> KeyOf(extra[i]) == k
    requires Distinct(Map(records, ArmIdentity)) && forall i, j :: 0 <= i < j < |extra| ==> extra[i].arm != extra[j].arm
    ensures Distinct(Map(records + extra, ArmIdentity))
  {
    var all := records + extra;
    forall i, j | 0 <= i < j < |all| ensures Map(all, ArmIdentity)[i] != Map(all, ArmIdentity)[j] {
      assert Map(all, ArmIdentity)[i] == ArmIdentity(all[i]) && Map(all, ArmIdentity)[j] == ArmIdentity(all[j]);
      if j < |records| {
        assert Map(records, ArmIdentity)[i] == ArmIdentity(records[i])
            && Map(records, ArmIdentity)[j] == ArmIdentity(records[j]);
      } else if i < |records| {
        assert records[i] in records;
      }
    }
  }

  /** The records of a new pair make a list of complete pairs exactly when they are a complete pair themselves. */
  lemma OnePairMoreIsComplete(records: seq<PairedCase>, extra: seq<PairedCase>, k: Key)
    requires WellPaired(records) && k !in Keys(records) && extra != [] && forall i :: 0 <= i < |extra| ==>
        KeyOf(extra[i]) == k
    ensures WellPaired(records + extra) <==> GroupOk(extra)
  {
    KeysOfBoth(records, extra, k);
    forall j ensures PairOf(records + extra, j) == if j == k then extra else PairOf(records, j) {
      PairsOfBoth(records, extra, k, j);
    }
    if GroupOk(extra) {
      DistinctArms(extra);
      DistinctBoth(records, extra, k);
    }
  }

  /**
    As long as one pair is valid, an invalid pair changes nothing in the report but the number of invalid pairs,
    wherever its records stand among the others; and with it there is a report exactly when it is complete.
  */
  lemma InvalidPairsChangeOnlyTheirCount(records: seq<PairedCase>, extra: seq<PairedCase>, k: Key, all: seq<PairedCase>)
    requires WellPaired(records) && ValidKeys(records) != {} && multiset(all) == multiset(records + extra)
    requires k !in Keys(records) && extra != [] && (forall i :: 0 <= i < |extra| ==> KeyOf(extra[i]) == k)
             && exists i :: 0 <= i < |extra| && Flagged(extra[i])
    ensures all != [] && (WellPaired(all) <==> GroupOk(extra))
    ensures var r := PairedReport(records);
            GroupOk(extra) ==>
              PairedReport(all) ==
              r.(protocol := Some(r.protocol.value.(invalidPairs := r.protocol.value.invalidPairs + 1)))
  {
    OnePairMoreIsComplete(records, extra, k);
    WellPairedIgnoresOrder(all, records + extra);
    SameSize(all, records + extra);
    if GroupOk(extra) {
      AppendedPairChangesOnlyTheCount(records, extra, k);
      InvalidPairsAreFilteredOut(records, extra, k);
      PairedReportIgnoresOrder(records + extra, all);
    }
  }

  // ----- Which record is the seed --------------------------------------------

  lemma {:induction false} BeforeIsStrict(a: string, b: string, c: string)
    ensures !Before(a, a)
    ensures Before(a, b) && Before(b, c) ==> Before(a, c)
    ensures a == b || Before(a, b) || Before(b, a)
    decreases |a| + |b| + |c|
  {
    if a != "" && b != "" {
      BeforeIsStrict(a[1..], b[1..], if c == "" then c else c[1..]);
      assert a == [a[0]] + a[1..] && b == [b[0]] + b[1..];
    } else if a != "" {
      BeforeIsStrict(a[1..], b, c);
    }
  }

  /** No record has a smaller case id. */
  predicate Least(records: seq<PairedCase>, r: PairedCase) {
    forall i :: 0 <= i < |records| ==> !Before(records[i].record.caseId, r.record.caseId)
  }

  /** Of the least of all but the last record and the last one, the smaller is the least of all. */
  lemma LeastGrows(records: seq<PairedCase>, best: PairedCase)
    requires records != [] && Least(records[..|records| - 1], best)
    ensures var last := records[|records| - 1];
            Least(records, if Before(last.record.caseId, best.record.caseId) then last else best)
  {
    hide Before;
    var last := records[|records| - 1];
    BeforeIsStrict(last.record.caseId, last.record.caseId, "");
    forall i | 0 <= i < |records| - 1
      ensures !Before(records[i].record.caseId, best.record.caseId)
      ensures Before(last.record.caseId, best.record.caseId) ==>
                !Before(records[i].record.caseId, last.record.caseId)
    {
      assert records[..|records| - 1][i] == records[i];
      BeforeIsStrict(records[i].record.caseId, last.record.caseId, best.record.caseId);
    }
  }

  /** The seed has the least case id; and a record that has it stands first is the seed. */
  lemma {:induction false} SeedIsLeast(records: seq<PairedCase>)
    requires records != []
    ensures Least(records, Seed(records))
    ensures Least(records, records[0]) ==> Seed(records) == records[0]
  {
    hide Before;
    var n := |records| - 1;
    BeforeIsStrict(records[0].record.caseId, "", "");
    if n > 0 {
      var front := records[..n];
      SeedIsLeast(front);
      assert Least(records, records[0]) ==> Least(front, front[0]);
      LeastGrows(records, Seed(front));
    }
  }

  /** Any record with the least case id can be the seed. */
  lemma AnyLeastMayLead(records: seq<PairedCase>, x: PairedCase) returns (b: seq<PairedCase>)
    requires x in records && Least(records, x)
    ensures b != [] && multiset(b) == multiset(records) && Seed(b) == x
  {
    var i :| 0 <= i < |records| && records[i] == x;
    b := [x] + records[..i] + records[i + 1..];
    assert records == records[..i] + [x] + records[i + 1..];
    SameMembers(b, records);
    SeedIsLeast(b);
    assert b[0] == x;
    forall j | 0 <= j < |b| ensures !Before(b[j].record.caseId, x.record.caseId) {
      assert b[j] in records;
    }
  }

  // ----- When every pair is invalid ------------------------------------------

  /** An empty version counts as none. */
  function Shown(version: Option<string>): Option<string> {
    if version == Some("") then None else version
  }

  /** The records agree on their safety counts and on everything the dimensions show. */
  predicate SameFace(x: Case, y: Case) {
    && x.safety == y.safety && x.corpus == y.corpus && x.packId == y.packId && x.packVersion == y.packVersion
    && x.platformVersion == y.platformVersion && x.providerMode == y.providerMode
    && Shown(x.modelVersion) == Shown(y.modelVersion) && Shown(x.browserVersion) == Shown(y.browserVersion)
  }

  lemma ObservedOfOne(x: Case, f: Case -> CountObservation)
    ensures Observed([x], f).events == f(x).events && Observed([x], f).denominator == f(x).denominator
  {
    TotalOfOne(x, Events(f));
    TotalOfOne(x, Denominators(f));
  }

  lemma TotalOfOne<T>(x: T, f: T -> nat)
    ensures Total([x], f) == f(x)
  {
    assert [x][..0] == [];
  }

  lemma SafetyOfOne(x: Case, y: Case)
    ensures SafetyOf([x]) == SafetyOf([y]) <==> x.safety == y.safety
  {
    ObservedOfOne(x, Unauthorized);
    ObservedOfOne(y, Unauthorized);
    ObservedOfOne(x, Stale);
    ObservedOfOne(y, Stale);
    ObservedOfOne(x, Bypass);
    ObservedOfOne(y, Bypass);
    ObservedOfOne(x, Duplicate);
    ObservedOfOne(y, Duplicate);
  }

  /** The dimensions of a single record. */
  lemma DimensionsOfOne(x: Case)
    ensures var d := DimensionsOf([x]);
            && d.corpora == {x.corpus} && d.packs == {x.packId} && d.packVersions == {(x.packId, x.packVersion)}
            && d.platforms == {x.platformVersion}
            && d == Dimensions({x.corpus}, {x.packId}, {(x.packId, x.packVersion)}, {x.platformVersion},
                               {x.providerMode},
                               if Shown(x.modelVersion).Some? then {Shown(x.modelVersion).value} else {},
                               if Shown(x.browserVersion).Some? then {Shown(x.browserVersion).value} else {}, 1, 1, 1)
  {
    assert Members([x]) == {x};
  }

  lemma FaceOfOne(x: Case, y: Case)
    ensures SafetyOf([x]) == SafetyOf([y]) && DimensionsOf([x]) == DimensionsOf([y]) <==> SameFace(x, y)
  {
    SafetyOfOne(x, y);
    DimensionsOfOne(x);
    DimensionsOfOne(y);
    if DimensionsOf([x]) == DimensionsOf([y]) {
      assert x.corpus in {y.corpus} && (x.packId, x.packVersion) in {(y.packId, y.packVersion)}
          && x.platformVersion in {y.platformVersion};
    }
  }

  /**
    With every pair invalid, two orders of one list give the same report exactly when their seeds agree on what is shown
    of them.
  */
  lemma AllInvalidReportsAgree(a: seq<PairedCase>, b: seq<PairedCase>)
    requires WellPaired(a) && ValidKeys(a) == {} && multiset(a) == multiset(b)
    ensures WellPaired(b) && (PairedReport(a) == PairedReport(b) <==> SameFace(Seed(a).record, Seed(b).record))
  {
    WellPairedIgnoresOrder(a, b);
    KeysIgnoreOrder(a, b);
    FilterKeepsNone(a, InKeys({}));
    FilterKeepsNone(b, InKeys({}));
    FaceOfOne(Seed(a).record, Seed(b).record);
    SameEmptied(Seed(a).record, Seed(b).record, ArmsOf([]), |InvalidKeys(a)|);
  }

  lemma SameEmptied(x: Case, y: Case, arms: seq<ArmMetrics>, invalid: nat)
    requires arms != []
    ensures (WithProtocol(Emptied(Aggregate([x])), arms, 0, invalid) ==
             WithProtocol(Emptied(Aggregate([y])), arms, 0, invalid)) <==>
            SafetyOf([x]) == SafetyOf([y]) && DimensionsOf([x]) == DimensionsOf([y])
  {
  }

  /**
    With every pair invalid, the order of the records never matters exactly when all records of the least case id agree
    on what is shown of them.
  */
  lemma WhenOrderNeverMatters(a: seq<PairedCase>)
    requires WellPaired(a) && ValidKeys(a) == {}
    ensures (forall b: seq<PairedCase> :: b != [] && multiset(b) == multiset(a) ==> PairedReport(b) == PairedReport(a))
            <==> (forall x, y :: x in a && y in a && Least(a, x) && Least(a, y) ==> SameFace(x.record, y.record))
  {
    SeedIsLeast(a);
    if forall x, y :: x in a && y in a && Least(a, x) && Least(a, y) ==> SameFace(x.record, y.record) {
      forall b: seq<PairedCase> | b != [] && multiset(b) == multiset(a) ensures PairedReport(b) == PairedReport(a) {
        SeedOfAnyOrder(a, b);
        AllInvalidReportsAgree(a, b);
      }
    }
    if forall b: seq<PairedCase> :: b != [] && multiset(b) == multiset(a) ==> PairedReport(b) == PairedReport(a) {
      forall x, y | x in a && y in a && Least(a, x) && Least(a, y) ensures SameFace(x.record, y.record) {
        var b := AnyLeastMayLead(a, x);
        var b' := AnyLeastMayLead(a, y);
        AllInvalidReportsAgree(a, b);
        AllInvalidReportsAgree(a, b');
      }
    }
  }

  lemma SeedOfAnyOrder(a: seq<PairedCase>, b: seq<PairedCase>)
    requires b != [] && multiset(a) == multiset(b)
    ensures Seed(b) in a && Least(a, Seed(b))
  {
    SeedIsLeast(b);
    SameMembers(a, b);
    forall i | 0 <= i < |a| ensures !Before(a[i].record.caseId, Seed(b).record.caseId) {
      assert a[i] in b;
      var j :| 0 <= j < |b| && b[j] == a[i];
    }
  }

  // ----- A list whose order matters ------------------------------------------

  /** One arm of a pair that was run unfairly; only the unauthorized effects differ between the arms. */
  function UnfairRecord(arm: Arm, unauthorized: nat): PairedCase {
    var calm := CountObservation(0, 1);
    PairedCase(Case("case", "v1", "pack", "1", "1", "live", None, None, false, false, None, false, None, false, 0, 0,
                    0.0,
                    Safety(CountObservation(unauthorized, 1), calm, calm, calm), None),
               "pair", arm, Opportunity(true, true, false, false, false), 0, true, false)
  }

  lemma ThreeDistinctArms(x: PairedCase, y: PairedCase, z: PairedCase)
    requires x.arm != y.arm && y.arm != z.arm && x.arm != z.arm
    ensures Distinct(Map([x, y, z], ArmIdentity))
  {
    var records := [x, y, z];
    forall i, j | 0 <= i < j < 3 ensures Map(records, ArmIdentity)[i] != Map(records, ArmIdentity)[j] {
      assert Map(records, ArmIdentity)[i] == ArmIdentity(records[i])
          && Map(records, ArmIdentity)[j] == ArmIdentity(records[j]);
    }
  }

  lemma OnePairIsComplete(x: PairedCase, y: PairedCase, z: PairedCase)
    requires KeyOf(x) == KeyOf(y) == KeyOf(z) && x.arm != y.arm && y.arm != z.arm && x.arm != z.arm
             && x.opportunity == y.opportunity == z.opportunity
    ensures WellPaired([x, y, z]) && Keys([x, y, z]) == {KeyOf(x)}
  {
    hide KeyOf, Map, Distinct, ArmIdentity, Filter;
    var records := [x, y, z];
    FilterKeepsAll(records, InKeys({KeyOf(x)}));
    assert Arms(records) == {x.arm, y.arm, z.arm};
    ThreeArms(x.arm, y.arm, z.arm);
    assert Keys(records) == {KeyOf(x)};
    ThreeDistinctArms(x, y, z);
  }

  lemma OnePairAllInvalid(x: PairedCase, y: PairedCase, z: PairedCase)
    requires Keys([x, y, z]) == {KeyOf(x)} && Flagged(x)
    ensures ValidKeys([x, y, z]) == {}
  {
    assert [x, y, z][0] == x;
    assert PairInvalid([x, y, z], KeyOf(x));
  }

  /** Three records of one case: the first one is the seed, and its unauthorized effects are reported. */
  lemma TheFirstOneIsReported(x: PairedCase, y: PairedCase, z: PairedCase)
    requires x.record.caseId == y.record.caseId == z.record.caseId && ValidKeys([x, y, z]) == {}
    ensures PairedReport([x, y, z]).safety.unauthorized.events == x.record.safety.unauthorized.events
  {
    hide PairedReport, Aggregate;
    BeforeIsStrict(x.record.caseId, "", "");
    assert Least([x, y, z], x);
    SeedIsLeast([x, y, z]);
    AllInvalidReportsTheSeedsSafety([x, y, z]);
    ObservedOfOne(x.record, Unauthorized);
  }

  /**
    One flagged pair, its arms in two orders: both lists are accepted, and their reports count different unauthorized
    effects.
  */
  lemma TiesAreBrokenByOrder()
    ensures var g, b0, b1 := UnfairRecord(G, 0), UnfairRecord(B0, 1), UnfairRecord(B1, 0);
            && multiset([g, b0, b1]) == multiset([b0, g, b1]) && WellPaired([g, b0, b1]) && WellPaired([b0, g, b1])
            && RecordsOk([g, b0, b1]) && ValidKeys([g, b0, b1]) == {}
            && PairedReport([g, b0, b1]).safety.unauthorized.events == 0
            && PairedReport([b0, g, b1]).safety.unauthorized.events == 1
  {
    hide PairedReport, WellPaired, ValidKeys, Keys;
    var g, b0, b1 := UnfairRecord(G, 0), UnfairRecord(B0, 1), UnfairRecord(B1, 0);
    OnePairIsComplete(g, b0, b1);
    OnePairIsComplete(b0, g, b1);
    OnePairAllInvalid(g, b0, b1);
    OnePairAllInvalid(b0, g, b1);
    TheFirstOneIsReported(g, b0, b1);
    TheFirstOneIsReported(b0, g, b1);
  }
}
