/** The paired aggregation as it runs: records grouped as they are met, groups checked and classified, arms measured. */
module PairedAggregation {
  import opened Outcomes
  import opened Tallies
  import opened Benchmark
  import opened BenchmarkReport
  import opened PairedBenchmark

  // ----- Grouping ------------------------------------------------------------

  lemma NextPair(records: seq<PairedCase>, i: nat, k: Key)
    requires i < |records|
    ensures PairOf(records[..i + 1], k) == PairOf(records[..i], k) + if KeyOf(records[i]) == k then [records[i]] else []
  {
    assert records[..i + 1][..i] == records[..i];
  }

  lemma NextKey(records: seq<PairedCase>, i: nat)
    requires i < |records|
    ensures Keys(records[..i + 1]) == Keys(records[..i]) + {KeyOf(records[i])}
  {
    assert forall r :: r in records[..i + 1] <==> r in records[..i] || r == records[i];
  }

  lemma NoPairYet(records: seq<PairedCase>, k: Key)
    requires k !in Keys(records)
    ensures PairOf(records, k) == []
  {
    forall i | 0 <= i < |records| ensures !InKeys({k})(records[i]) {
      assert records[i] in records;
    }
    FilterKeepsNone(records, InKeys({k}));
  }

  /** The pairs of the records read so far, in the order they were met. */
  predicate Grouped(records: seq<PairedCase>, order: seq<Key>, groups: map<Key, seq<PairedCase>>) {
    && Distinct(order) && Members(order) == Keys(records) == groups.Keys
    && forall k :: k in groups ==> groups[k] == PairOf(records, k)
  }

  /** The pairs stand in the order of their first records. */
  predicate MetInOrder(records: seq<PairedCase>, order: seq<Key>) {
    forall a, b, j :: 0 <= a < b < |order| && 0 <= j < |records| && KeyOf(records[j]) == order[b] ==>
      HasKeyBefore(records, j, order[a])
  }

  predicate HasKeyBefore(records: seq<PairedCase>, j: nat, k: Key)
    requires j <= |records|
  {
    exists i :: 0 <= i < j && KeyOf(records[i]) == k
  }

  lemma MetNext(records: seq<PairedCase>, i: nat, order: seq<Key>)
    requires i < |records| && MetInOrder(records[..i], order) && Members(order) == Keys(records[..i])
    requires Distinct(order)
    ensures var key := KeyOf(records[i]);
            MetInOrder(records[..i + 1], if key in order then order else order + [key])
  {
    var key := KeyOf(records[i]);
    var order' := if key in order then order else order + [key];
    var seen := records[..i + 1];
    forall a, b, j | 0 <= a < b < |order'| && 0 <= j < |seen| && KeyOf(seen[j]) == order'[b]
      ensures HasKeyBefore(seen, j, order'[a])
    {
      if j < i {
        assert records[..i][j] == seen[j];
        assert seen[j] in records[..i];
        assert KeyOf(seen[j]) in Members(order);
        assert b < |order|;
        assert HasKeyBefore(records[..i], j, order[a]);
        var m :| 0 <= m < j && KeyOf(records[..i][m]) == order[a];
        assert KeyOf(seen[m]) == order'[a];
      } else {
        assert order'[a] in order && order'[a] in Members(order);
        var x :| x in records[..i] && KeyOf(x) == order'[a];
        var m :| 0 <= m < i && records[..i][m] == x;
        assert KeyOf(seen[m]) == order'[a];
      }
    }
  }

  /** One more record opens a pair or joins its own. */
  lemma GroupedNext(records: seq<PairedCase>, i: nat, order: seq<Key>, groups: map<Key, seq<PairedCase>>)
    requires i < |records| && Grouped(records[..i], order, groups)
    ensures var key := KeyOf(records[i]);
            if key in groups then Grouped(records[..i + 1], order, groups[key := groups[key] + [records[i]]])
            else Grouped(records[..i + 1], order + [key], groups[key := [records[i]]])
  {
    hide PairOf, KeyOf;
    var key := KeyOf(records[i]);
    NextKey(records, i);
    forall k ensures PairOf(records[..i + 1], k) == PairOf(records[..i], k) + if key == k then [records[i]] else [] {
      NextPair(records, i, k);
    }
    if key !in groups {
      NoPairYet(records[..i], key);
      assert key !in order;
      assert Members(order + [key]) == Members(order) + {key};
    }
  }

  /** The records of every pair, and the pairs in the order they are first met. */
  method GroupPairs(records: seq<PairedCase>) returns (order: seq<Key>, groups: map<Key, seq<PairedCase>>)
    ensures Grouped(records, order, groups) && MetInOrder(records, order)
  {
    hide PairOf;
    order, groups := [], map[];
    var i := 0;
    while i < |records|
      invariant 0 <= i <= |records|
      invariant Grouped(records[..i], order, groups) && MetInOrder(records[..i], order)
    {
      var key := KeyOf(records[i]);
      MetNext(records, i, order);
      GroupedNext(records, i, order, groups);
      if key in groups {
        groups := groups[key := groups[key] + [records[i]]];
      } else {
        order, groups := order + [key], groups[key := [records[i]]];
      }
      i := i + 1;
    }
    assert records[..i] == records;
  }

  // ----- Checking one group --------------------------------------------------

  function Offers(group: seq<PairedCase>): set<Opportunity> {
    set r | r in group :: r.opportunity
  }

  lemma OneOffer(group: seq<PairedCase>)
    requires group != []
    ensures |Offers(group)| == 1 <==>
            forall i, j :: 0 <= i < j < |group| ==> group[i].opportunity == group[j].opportunity
  {
    assert group[0].opportunity in Offers(group);
    if |Offers(group)| == 1 {
      assert |Offers(group) - {group[0].opportunity}| == 0;
      forall i | 0 <= i < |group| ensures group[i].opportunity == group[0].opportunity {
        assert group[i].opportunity in Offers(group);
      }
    }
    if forall i, j :: 0 <= i < j < |group| ==> group[i].opportunity == group[j].opportunity {
      assert Offers(group) == {group[0].opportunity};
    }
  }

  /** What is wrong with a group: its arms, or else what they declare. */
  method CheckGroup(group: seq<PairedCase>) returns (fault: Option<Refusal>)
    ensures fault.None? <==> GroupOk(group)
    ensures fault.Some? ==> fault == Some(FaultOf(group))
  {
    if Arms(group) != {G, B0, B1} || |group| != 3 { return Some(ArmMissing); }
    OneOffer(group);
    if |Offers(group)| != 1 { return Some(OpportunitiesDiffer); }
    return None;
  }

  /** Of a group that is not complete. */
  function FaultOf(group: seq<PairedCase>): Refusal {
    if |group| == 3 && Arms(group) == {G, B0, B1} then OpportunitiesDiffer else ArmMissing
  }

  /** A pair is invalid when any of its records says so. */
  lemma FlagsOfPair(records: seq<PairedCase>, k: Key)
    ensures PairInvalid(records, k) <==> exists r :: r in PairOf(records, k) && Flagged(r)
  {
    var pair := PairOf(records, k);
    FilteredPass(records, InKeys({k}));
    if PairInvalid(records, k) {
      var i :| 0 <= i < |records| && KeyOf(records[i]) == k && Flagged(records[i]);
      assert InKeys({k})(records[i]);
      assert records[i] in pair;
    }
    if r :| r in pair && Flagged(r) {
      var j :| 0 <= j < |pair| && pair[j] == r;
      assert pair[j] in records && InKeys({k})(pair[j]);
      var i :| 0 <= i < |records| && records[i] == r;
    }
  }

  // ----- Classifying the pairs -----------------------------------------------

  function ValidAmong(records: seq<PairedCase>, keys: seq<Key>): set<Key> {
    set k | k in keys && !PairInvalid(records, k)
  }

  function InvalidAmong(records: seq<PairedCase>, keys: seq<Key>): set<Key> {
    set k | k in keys && PairInvalid(records, k)
  }

  /** The group's record of an arm. */
  function FirstOfArm(group: seq<PairedCase>, a: Arm): PairedCase
    requires exists i :: 0 <= i < |group| && group[i].arm == a
  {
    if group[0].arm == a then group[0] else FirstOfArm(group[1..], a)
  }

  lemma {:induction false} FirstIsTheOnly(group: seq<PairedCase>, a: Arm)
    requires |Filter(group, OfArm(a))| == 1
    ensures exists i :: 0 <= i < |group| && group[i].arm == a
    ensures Filter(group, OfArm(a)) == [FirstOfArm(group, a)]
    decreases |group|
  {
    if group[0].arm == a {
      FilterAppend([group[0]], group[1..], OfArm(a));
      assert group == [group[0]] + group[1..];
      assert [group[0]][..0] == [];
    } else {
      FilterAppend([group[0]], group[1..], OfArm(a));
      assert group == [group[0]] + group[1..];
      assert [group[0]][..0] == [];
      FirstIsTheOnly(group[1..], a);
      var i :| 0 <= i < |group[1..]| && group[1..][i].arm == a;
      assert group[i + 1].arm == a;
    }
  }

  /** What classifying the first pairs has collected so far. */
  ghost predicate Collected(records: seq<PairedCase>, keys: seq<Key>, valid: seq<PairedCase>,
                            representatives: seq<Case>, validPairs: nat, invalidPairs: nat) {
    && multiset(valid) == multiset(Filter(records, InKeys(ValidAmong(records, keys))))
    && representatives == Representatives(valid)
    && validPairs == |ValidAmong(records, keys)| && invalidPairs == |InvalidAmong(records, keys)|
  }

  lemma CollectValid(records: seq<PairedCase>, keys: seq<Key>, k: Key, valid: seq<PairedCase>,
                     representatives: seq<Case>, validPairs: nat, invalidPairs: nat)
    requires Collected(records, keys, valid, representatives, validPairs, invalidPairs)
    requires k !in keys && !PairInvalid(records, k) && GroupOk(PairOf(records, k))
    ensures exists i :: 0 <= i < 3 && PairOf(records, k)[i].arm == G
    ensures Collected(records, keys + [k], valid + PairOf(records, k),
                      representatives + [FirstOfArm(PairOf(records, k), G).record], validPairs + 1, invalidPairs)
  {
    var pair := PairOf(records, k);
    AllArmsOnce(pair);
    FirstIsTheOnly(pair, G);
    assert ValidAmong(records, keys + [k]) == ValidAmong(records, keys) + {k};
    assert InvalidAmong(records, keys + [k]) == InvalidAmong(records, keys);
    OneMorePair(records, ValidAmong(records, keys), k);
    assert multiset(valid + pair) == multiset(valid) + multiset(pair);
    FilterAppend(valid, pair, OfArm(G));
    var governed := Filter(valid, OfArm(G));
    assert Map(governed + [FirstOfArm(pair, G)], TheCase) == Map(governed, TheCase) + [FirstOfArm(pair, G).record];
  }

  lemma CollectInvalid(records: seq<PairedCase>, keys: seq<Key>, k: Key, valid: seq<PairedCase>,
                       representatives: seq<Case>, validPairs: nat, invalidPairs: nat)
    requires Collected(records, keys, valid, representatives, validPairs, invalidPairs)
    requires k !in keys && PairInvalid(records, k)
    ensures Collected(records, keys + [k], valid, representatives, validPairs, invalidPairs + 1)
  {
    assert ValidAmong(records, keys + [k]) == ValidAmong(records, keys);
    assert InvalidAmong(records, keys + [k]) == InvalidAmong(records, keys) + {k};
  }

  predicate AllComplete(records: seq<PairedCase>, keys: seq<Key>) {
    forall k :: k in keys ==> GroupOk(PairOf(records, k))
  }

  /** One pair: incomplete or inconsistent, invalid and only counted, or valid and collected. */
  method ClassifyPair(records: seq<PairedCase>, ghost keys: seq<Key>, k: Key, group: seq<PairedCase>,
                      before: seq<PairedCase>, cases: seq<Case>, validBefore: nat, invalidBefore: nat)
    returns (fault: Option<Refusal>, valid: seq<PairedCase>, representatives: seq<Case>, validPairs: nat,
             invalidPairs: nat)
    requires k !in keys && group == PairOf(records, k) && AllComplete(records, keys)
    requires Collected(records, keys, before, cases, validBefore, invalidBefore)
    ensures fault.None? <==> AllComplete(records, keys + [k])
    ensures fault.None? ==> Collected(records, keys + [k], valid, representatives, validPairs, invalidPairs)
    ensures fault.Some? ==> !GroupOk(group) && fault == Some(FaultOf(group))
  {
    valid, representatives, validPairs, invalidPairs := before, cases, validBefore, invalidBefore;
    fault := CheckGroup(group);
    OneMoreComplete(records, keys, k);
    if fault.Some? {
      return;
    }
    FlagsOfPair(records, k);
    if exists r :: r in group && Flagged(r) {
      CollectInvalid(records, keys, k, before, cases, validBefore, invalidBefore);
      invalidPairs := invalidPairs + 1;
    } else {
      CollectValid(records, keys, k, before, cases, validBefore, invalidBefore);
      valid, representatives, validPairs := valid + group, representatives + [FirstOfArm(group, G).record],
          validPairs + 1;
    }
  }

  lemma NothingCollected(records: seq<PairedCase>)
    ensures Collected(records, [], [], [], 0, 0)
  {
    assert ValidAmong(records, []) == {} && InvalidAmong(records, []) == {};
    FilterKeepsNone(records, InKeys({}));
  }

  lemma NextInOrder(order: seq<Key>, j: nat)
    requires Distinct(order) && j < |order|
    ensures order[j] in Members(order) && order[j] !in order[..j] && order[..j + 1] == order[..j] + [order[j]]
  {
  }

  lemma OneMoreComplete(records: seq<PairedCase>, keys: seq<Key>, k: Key)
    requires AllComplete(records, keys)
    ensures AllComplete(records, keys + [k]) <==> GroupOk(PairOf(records, k))
  {
    assert k in keys + [k];
    forall j | j in keys + [k] ensures j in keys || j == k {}
  }

  lemma IncompletePrefix(records: seq<PairedCase>, order: seq<Key>, j: nat)
    requires j <= |order| && !AllComplete(records, order[..j])
    ensures !AllComplete(records, order)
  {
    var k :| k in order[..j] && !GroupOk(PairOf(records, k));
    assert k in order;
  }

  /**
    Pair by pair: an incomplete or inconsistent pair ends it, an invalid one is only counted, a valid one is collected.
  */
  method ClassifyPairs(records: seq<PairedCase>, order: seq<Key>, groups: map<Key, seq<PairedCase>>)
    returns (fault: Option<Refusal>, valid: seq<PairedCase>, representatives: seq<Case>, validPairs: nat,
             invalidPairs: nat)
    requires Grouped(records, order, groups)
    ensures fault.None? <==> AllComplete(records, order)
    ensures fault.None? ==> Collected(records, order, valid, representatives, validPairs, invalidPairs)
    ensures fault.Some? ==> exists j :: 0 <= j < |order| && BreaksAt(records, order, j, fault.value)
  {
    fault, valid, representatives, validPairs, invalidPairs := None, [], [], 0, 0;
    NothingCollected(records);
    var j := 0;
    while j < |order|
      invariant 0 <= j <= |order|
      invariant AllComplete(records, order[..j])
      invariant Collected(records, order[..j], valid, representatives, validPairs, invalidPairs)
      invariant fault.None?
    {
      var k := order[j];
      NextInOrder(order, j);
      fault, valid, representatives, validPairs, invalidPairs :=
        ClassifyPair(records, order[..j], k, groups[k], valid, representatives, validPairs, invalidPairs);
      if fault.Some? {
        IncompletePrefix(records, order, j + 1);
        assert BreaksAt(records, order, j, fault.value);
        return;
      }
      j := j + 1;
    }
    assert order[..j] == order;
  }

  /** The `j`-th pair is the first that is not complete, for this reason. */
  predicate BreaksAt(records: seq<PairedCase>, order: seq<Key>, j: nat, fault: Refusal)
    requires j < |order|
  {
    && AllComplete(records, order[..j]) && !GroupOk(PairOf(records, order[j]))
    && fault == FaultOf(PairOf(records, order[j]))
  }

  /** The first record whose pair is not complete. */
  predicate FirstBroken(records: seq<PairedCase>, i: nat)
    requires i < |records|
  {
    && !GroupOk(PairOf(records, KeyOf(records[i])))
    && forall m :: 0 <= m < i ==> GroupOk(PairOf(records, KeyOf(records[m])))
  }

  /** What is wrong with the pair of the first record whose pair is not complete. */
  predicate Names(records: seq<PairedCase>, fault: Refusal) {
    exists i :: && 0 <= i < |records| && FirstBroken(records, i)
                && fault == FaultOf(PairOf(records, KeyOf(records[i])))
  }

  lemma FirstBrokenPair(records: seq<PairedCase>, order: seq<Key>, j: nat, fault: Refusal)
    requires Members(order) == Keys(records) && MetInOrder(records, order) && j < |order|
    requires BreaksAt(records, order, j, fault)
    ensures Names(records, fault) && (fault.ArmMissing? || fault.OpportunitiesDiffer?)
  {
    assert fault.ArmMissing? || fault.OpportunitiesDiffer?;
    hide GroupOk, FaultOf, PairOf;
    assert order[j] in Members(order);
    var r :| r in records && KeyOf(r) == order[j];
    var n :| 0 <= n < |records| && records[n] == r;
    var i := FirstIndex(records, order[j], n);
    forall m | 0 <= m < i ensures GroupOk(PairOf(records, KeyOf(records[m]))) {
      assert records[m] in records;
      assert KeyOf(records[m]) in Members(order);
      var a :| 0 <= a < |order| && order[a] == KeyOf(records[m]);
      assert a <= j;
      assert order[a] in order[..j];
    }
  }

  lemma FirstIndex(records: seq<PairedCase>, k: Key, n: nat) returns (i: nat)
    requires n < |records| && KeyOf(records[n]) == k
    ensures i <= n && KeyOf(records[i]) == k && forall m :: 0 <= m < i ==> KeyOf(records[m]) != k
  {
    if m :| 0 <= m < n && KeyOf(records[m]) == k {
      i := FirstIndex(records, k, m);
    } else {
      i := n;
    }
  }

  lemma OrderCoversPairs(records: seq<PairedCase>, order: seq<Key>)
    requires Members(order) == Keys(records)
    ensures AllComplete(records, order) <==> forall k :: k in Keys(records) ==> GroupOk(PairOf(records, k))
  {
    forall k | k in Keys(records) ensures k in order {
      assert k in Members(order);
    }
    forall k | k in order ensures k in Keys(records) {
      assert k in Members(order);
    }
  }

  // ----- The report ----------------------------------------------------------

  lemma ChanceIgnoresOrder(a: seq<PairedCase>, b: seq<PairedCase>, due: PairedCase -> bool, met: PairedCase -> bool)
    requires multiset(a) == multiset(b)
    ensures Chance(a, due, met) == Chance(b, due, met)
  {
    TotalIgnoresOrder(a, b, Indicator(Both(due, met)));
    TotalIgnoresOrder(a, b, Indicator(due));
  }

  lemma ArmIgnoresOrder(a: seq<PairedCase>, b: seq<PairedCase>, arm: Arm)
    requires multiset(a) == multiset(b)
    ensures ArmOf(a, arm) == ArmOf(b, arm)
  {
    FilterIgnoresOrder(a, b, OfArm(arm));
    var own, own' := Filter(a, OfArm(arm)), Filter(b, OfArm(arm));
    SameSize(own, own');
    ChanceIgnoresOrder(own, own', Business, SafelyCompleted);
    ChanceIgnoresOrder(own, own', UnsafeEffect, Unsafe);
    ChanceIgnoresOrder(own, own', UnknownMet, StoppedSafely);
    ChanceIgnoresOrder(own, own', RecoveryDue, RecoveredCleanly);
    ChanceIgnoresOrder(own, own', AuditDue, Audited);
  }

  /** The order in which valid records were collected never shows. */
  lemma HeadlineIgnoresOrder(records: seq<PairedCase>, a: seq<PairedCase>, b: seq<PairedCase>)
    requires records != [] && multiset(a) == multiset(b)
    ensures Headline(records, a) == Headline(records, b)
    ensures Representatives(a) == [] <==> Representatives(b) == []
    ensures Representatives(a) != [] ==> (Aggregatable(Representatives(a)) <==> Aggregatable(Representatives(b)))
  {
    FilterIgnoresOrder(a, b, OfArm(G));
    SameSize(Filter(a, OfArm(G)), Filter(b, OfArm(G)));
    MapIgnoresOrder(Filter(a, OfArm(G)), Filter(b, OfArm(G)), TheCase);
    if Representatives(a) != [] {
      AggregateIgnoresOrder(Representatives(a), Representatives(b));
    }
  }

  /** No two records are the same arm of a pair. */
  predicate EveryArmOnce(records: seq<PairedCase>) {
    forall i, j :: 0 <= i < j < |records| ==>
      || records[i].pairId != records[j].pairId || records[i].record.caseId != records[j].record.caseId
      || records[i].record.corpus != records[j].record.corpus || records[i].arm != records[j].arm
  }

  lemma EveryArmIsDistinct(records: seq<PairedCase>)
    ensures Distinct(Map(records, ArmIdentity)) <==> EveryArmOnce(records)
  {
    forall i, j | 0 <= i < j < |records|
      ensures Map(records, ArmIdentity)[i] != Map(records, ArmIdentity)[j] <==>
                || records[i].pairId != records[j].pairId || records[i].record.caseId != records[j].record.caseId
                || records[i].record.corpus != records[j].record.corpus || records[i].arm != records[j].arm
    {
    }
  }

  /**
    The paired report, or why there is none: whatever is returned is the report of the valid pairs and passes every
    validator.
  */
  method AggregatePaired(records: seq<PairedCase>) returns (r: Result<Report, Refusal>)
    requires RecordsOk(records)
    ensures r.Ok? <==>
            && WellPaired(records)
            && var reps := Representatives(ValidRecords(records)); reps == [] || Aggregatable(reps)
    ensures r.Ok? ==> r.value == PairedReport(records) && ValidReport(r.value)
    ensures r == Refused(NoCase) <==> |records| == 0
    ensures r == Refused(ArmRepeated) <==> |records| > 0 && !EveryArmOnce(records)
    ensures r == Refused(ArmMissing) || r == Refused(OpportunitiesDiffer) <==>
              |records| > 0 && EveryArmOnce(records) && !WellPaired(records)
    ensures r == Refused(ArmMissing) || r == Refused(OpportunitiesDiffer) ==> Names(records, r.error)
  {
    hide Filter, Map, GroupOk, PairOf, PairedReport, ValidReport, Names, BreaksAt, EveryArmOnce, MetInOrder;
    EveryArmIsDistinct(records);
    if records == [] { return Refused(NoCase); }
    DistinctBySize(Map(records, ArmIdentity));
    if |Members(Map(records, ArmIdentity))| != |records| {
      return Refused(ArmRepeated);
    }
    var order, groups := GroupPairs(records);
    var fault, valid, representatives, validPairs, invalidPairs := ClassifyPairs(records, order, groups);
    OrderCoversPairs(records, order);
    if fault.Some? {
      ghost var j :| 0 <= j < |order| && BreaksAt(records, order, j, fault.value);
      FirstBrokenPair(records, order, j, fault.value);
      return Refused(fault.value);
    }
    assert ValidAmong(records, order) == ValidKeys(records) && InvalidAmong(records, order) == InvalidKeys(records);
    r := MeasureAll(records, valid, representatives, validPairs, invalidPairs);
  }

  /** The headline, then the arms, then the protocol on top. */
  method MeasureAll(records: seq<PairedCase>, valid: seq<PairedCase>, representatives: seq<Case>, validPairs: nat,
                    invalidPairs: nat) returns (r: Result<Report, Refusal>)
    requires WellPaired(records) && RecordsOk(records) && multiset(valid) == multiset(ValidRecords(records))
             && representatives == Representatives(valid)
    requires validPairs == |ValidKeys(records)| && invalidPairs == |InvalidKeys(records)|
    ensures r.Ok? <==> var reps := Representatives(ValidRecords(records)); reps == [] || Aggregatable(reps)
    ensures r.Refused? ==> r.error.CaseRepeated? || r.error.SeveralCorpora?
    ensures r.Ok? ==> r.value == PairedReport(records) && ValidReport(r.value)
  {
    HeadlineIgnoresOrder(records, valid, ValidRecords(records));
    var headline := MeasureHeadline(records, valid, representatives);
    if headline.Refused? { return Refused(headline.error); }
    var armMetrics := MeasureArms(valid, ValidRecords(records));
    PairedReportIsValid(records);
    return Ok(WithProtocol(headline.value, armMetrics, validPairs, invalidPairs));
  }

  /** The headline figures: of the representatives, or emptied when there is none. */
  method MeasureHeadline(records: seq<PairedCase>, valid: seq<PairedCase>,
                         representatives: seq<Case>) returns (r: Result<Report, Refusal>)
    requires records != [] && RecordsOk(records) && multiset(valid) == multiset(ValidRecords(records))
             && representatives == Representatives(valid)
    ensures r.Ok? <==> representatives == [] || Aggregatable(representatives)
    ensures r.Refused? ==> r.error.CaseRepeated? || r.error.SeveralCorpora?
    ensures r.Ok? ==> r.value == Headline(records, valid)
  {
    if representatives == [] {
      return Ok(Emptied(Aggregate([Seed(records).record])));
    }
    RepresentativesStayOk(records, valid);
    r := AggregateBenchmark(representatives);
  }

  /** Every arm over the collected records, in the reported order of arms. */
  method MeasureArms(valid: seq<PairedCase>, ghost records: seq<PairedCase>) returns (armMetrics: seq<ArmMetrics>)
    requires multiset(valid) == multiset(records)
    ensures armMetrics == ArmsOf(records)
  {
    armMetrics := [];
    var arms := [G, B0, B1];
    var i := 0;
    while i < |arms|
      invariant 0 <= i <= |arms| == 3
      invariant armMetrics == ArmsOf(valid)[..i]
    {
      armMetrics := armMetrics + [ArmOf(valid, arms[i])];
      i := i + 1;
    }
    ArmsIgnoreOrder(valid, records);
  }

  lemma ArmsIgnoreOrder(a: seq<PairedCase>, b: seq<PairedCase>)
    requires multiset(a) == multiset(b)
    ensures ArmsOf(a) == ArmsOf(b)
  {
    ArmIgnoresOrder(a, b, G);
    ArmIgnoresOrder(a, b, B0);
    ArmIgnoresOrder(a, b, B1);
  }

  lemma RepresentativesStayOk(records: seq<PairedCase>, valid: seq<PairedCase>)
    requires RecordsOk(records) && multiset(valid) == multiset(ValidRecords(records))
    ensures CasesOk(Representatives(valid))
  {
    RepresentativesAreOk(records);
    FilterIgnoresOrder(valid, ValidRecords(records), OfArm(G));
    MapIgnoresOrder(Filter(valid, OfArm(G)), Filter(ValidRecords(records), OfArm(G)), TheCase);
    var reps, own := Representatives(valid), Representatives(ValidRecords(records));
    forall i | 0 <= i < |reps| ensures CaseOk(reps[i]) {
      assert reps[i] in multiset(own);
      var j :| 0 <= j < |own| && own[j] == reps[i];
    }
  }
}
