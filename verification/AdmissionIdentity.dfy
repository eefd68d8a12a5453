/** Which admissions count as the same: the fingerprint that ignores when things happened but not how far apart. */
module AdmissionIdentity {
  import opened Outcomes
  import opened Planning

  /** The keys that carry points in time, or the durations that replace them. */
  const TIME_KEYS: set<string> := {"submitted_at", "created_at", "expires_at", "resolved_at", "not_before",
                                   "authorization_snapshot",
                                   "expires_after_creation_us", "not_before_offset_us", "valid_for_us"}

  /** A section of a bundle without its times; sets of names are kept as sets, so their order never shows. */
  type Facts = m: map<string, Json> | m.Keys !! TIME_KEYS witness map[]

  datatype GrantRecord = GrantRecord(facts: Facts, resolvedAt: int, notBefore: Option<int>, expiresAt: int)

  /** Times are microseconds; `authorization` is the snapshot stored inside the contract, with its own creation time. */
  datatype BundleContent = BundleContent(rest: map<string, Json>, request: Facts, submittedAt: int, snapshot: Facts,
                                         createdAt: int, contract: Facts,
                           contractExpiresAt: Option<int>, authorization: Facts, authorizationCreatedAt: int,
                                         audit: Facts, auditedAt: int,
                                         grants: seq<GrantRecord>)

  datatype Payload = Payload(rest: map<string, Json>, request: map<string, Json>, snapshot: map<string, Json>,
                             contract: map<string, Json>,
                             audit: map<string, Json>, grants: seq<map<string, Json>>)

  // ----- Durations -----------------------------------------------------------

  const MICROSECONDS_PER_DAY := 86_400_000_000

  /**
    A difference of two times the way a date library holds it: whole days, possibly negative, then seconds and
    microseconds that never are.
  */
  datatype TimeDelta = TimeDelta(days: int, seconds: nat, microseconds: nat)

  function Difference(end: int, start: int): (d: TimeDelta)
    ensures d.seconds < 86_400 && d.microseconds < 1_000_000
  {
    var inDay := (end - start) % MICROSECONDS_PER_DAY;
    SecondsOfADay(inDay);
    TimeDelta((end - start) / MICROSECONDS_PER_DAY, inDay / 1_000_000, inDay % 1_000_000)
  }

  lemma SecondsOfADay(us: nat)
    requires us < MICROSECONDS_PER_DAY
    ensures us / 1_000_000 < 86_400
  {
  }

  /** Put back together, the three parts are the exact difference, also before the start. */
  function DurationMicroseconds(end: Option<int>, start: int): (r: Option<int>)
    ensures r == match end case None => None case Some(e) => Some(e - start)
  {
    if end.None? then None
    else
      var d := Difference(end.value, start);
      Recombined(end.value - start);
      Some(((d.days * 86_400) + d.seconds) * 1_000_000 + d.microseconds)
  }

  lemma Recombined(us: int)
    ensures ((us / MICROSECONDS_PER_DAY * 86_400) + us % MICROSECONDS_PER_DAY / 1_000_000) * 1_000_000
        + us % MICROSECONDS_PER_DAY % 1_000_000 == us
  {
    var inDay := us % MICROSECONDS_PER_DAY;
    assert inDay == inDay / 1_000_000 * 1_000_000 + inDay % 1_000_000;
    assert us == us / MICROSECONDS_PER_DAY * MICROSECONDS_PER_DAY + inDay;
  }

  function Number(n: Option<int>): Json {
    if n.Some? then JNumber(n.value) else JNull
  }

  // ----- The payload and its fingerprint -------------------------------------

  function Time(iso: int -> string, t: Option<int>): Json {
    if t.Some? then JText(iso(t.value)) else JNull
  }

  function CanonicalGrant(iso: int -> string, g: GrantRecord): map<string, Json> {
    g.facts["resolved_at" := Time(iso, Some(g.resolvedAt))]["not_before" := Time(iso,
        g.notBefore)]["expires_at" := Time(iso, Some(g.expiresAt))]
  }

  function CanonicalGrants(iso: int -> string, records: seq<GrantRecord>): seq<map<string, Json>> {
    seq(|records|, i requires 0 <= i < |records| => CanonicalGrant(iso, records[i]))
  }

  /** The stored representation of a bundle. */
  function CanonicalPayload(iso: int -> string, b: BundleContent): Payload {
    var authorization := JObject(b.authorization["created_at" := Time(iso, Some(b.authorizationCreatedAt))]);
    Payload(b.rest,
            b.request["submitted_at" := Time(iso, Some(b.submittedAt))],
            b.snapshot["created_at" := Time(iso, Some(b.createdAt))],
            b.contract["expires_at" := Time(iso, b.contractExpiresAt)]["authorization_snapshot" := authorization],
            b.audit["created_at" := Time(iso, Some(b.auditedAt))],
            CanonicalGrants(iso, b.grants))
  }

  /** When a grant starts to hold: when it was resolved, unless it says otherwise. */
  function ValidFrom(g: GrantRecord): int {
    if g.notBefore.Some? then g.notBefore.value else g.resolvedAt
  }

  function NormalGrant(g: GrantRecord): map<string, Json> {
    g.facts["not_before_offset_us" := JNumber(ValidFrom(g) - g.resolvedAt)]
           ["valid_for_us" := JNumber(g.expiresAt - g.resolvedAt)]
  }

  function NormalGrants(records: seq<GrantRecord>): seq<map<string, Json>> {
    seq(|records|, i requires 0 <= i < |records| => NormalGrant(records[i]))
  }

  function ContractLife(b: BundleContent): Option<int> {
    if b.contractExpiresAt.Some? then Some(b.contractExpiresAt.value - b.createdAt) else None
  }

  /** What is left of a payload for the fingerprint: no time, but every duration. */
  function NormalPayload(b: BundleContent): Payload {
    Payload(b.rest, b.request, b.snapshot,
            b.contract["authorization_snapshot" := JObject(b.authorization)]
                      ["expires_after_creation_us" := Number(ContractLife(b))],
            b.audit, NormalGrants(b.grants))
  }

  /** Takes the times out of the payload and puts the durations in, key by key. */
  method AdmissionFingerprint(iso: int -> string, digest: Payload -> string, b: BundleContent)
    returns (fingerprint: string)
    ensures fingerprint == digest(NormalPayload(b))
  {
    var payload := CanonicalPayload(iso, b);
    payload := payload.(request := payload.request - {"submitted_at"}, snapshot := payload.snapshot - {"created_at"});
    var contract := NormalizeContract(iso, b, payload.contract);
    var grants := NormalizeGrants(iso, b.grants, payload.grants);
    payload := payload.(contract := contract, audit := payload.audit - {"created_at"}, grants := grants);
    var normal := NormalPayload(b);
    assert payload.request == normal.request && payload.snapshot == normal.snapshot && payload.audit == normal.audit;
    return digest(payload);
  }

  method NormalizeContract(iso: int -> string, b: BundleContent, canonical: map<string, Json>)
    returns (contract: map<string, Json>)
    requires canonical == CanonicalPayload(iso, b).contract
    ensures contract == NormalPayload(b).contract
  {
    contract := canonical - {"expires_at"};
    contract := contract["expires_after_creation_us" := Number(DurationMicroseconds(b.contractExpiresAt, b.createdAt))];
    if "authorization_snapshot" in contract && contract["authorization_snapshot"].JObject? {
      var JObject(authorization) := contract["authorization_snapshot"];
      assert authorization - {"created_at"} == b.authorization;
      contract := contract["authorization_snapshot" := JObject(authorization - {"created_at"})];
    }
  }

  method NormalizeGrants(iso: int -> string, records: seq<GrantRecord>, payloads: seq<map<string, Json>>)
    returns (grants: seq<map<string, Json>>)
    requires payloads == CanonicalGrants(iso, records)
    ensures grants == NormalGrants(records)
  {
    grants := payloads;
    var k := 0;
    while k < |grants|
      invariant 0 <= k <= |grants| == |records|
      invariant forall i :: 0 <= i < k ==> grants[i] == NormalGrant(records[i])
      invariant forall i :: k <= i < |records| ==> grants[i] == CanonicalGrant(iso, records[i])
    {
      var grant := grants[k] - {"resolved_at"} - {"not_before"} - {"expires_at"};
      grant := grant["not_before_offset_us" :=
        Number(DurationMicroseconds(Some(ValidFrom(records[k])), records[k].resolvedAt))];
      grant := grant["valid_for_us" := Number(DurationMicroseconds(Some(records[k].expiresAt), records[k].resolvedAt))];
      assert grant == NormalGrant(records[k]);
      grants := grants[k := grant];
      k := k + 1;
    }
  }

  // ----- What a fingerprint identifies ---------------------------------------

  ghost predicate DistinctDigests(digest: Payload -> string) {
    forall a, b {:trigger digest(a), digest(b)} :: digest(a) == digest(b) ==> a == b
  }

  /** The same facts, valid for as long, and beginning to hold as long after they were resolved. */
  predicate SameGrant(a: GrantRecord, b: GrantRecord) {
    && a.facts == b.facts
    && a.expiresAt - a.resolvedAt == b.expiresAt - b.resolvedAt
    && (if a.notBefore.Some? then a.notBefore.value - a.resolvedAt else 0)
         == (if b.notBefore.Some? then b.notBefore.value - b.resolvedAt else 0)
  }

  /** Both contracts live for ever, or both for as long after the creation of their task. */
  predicate SameLife(a: BundleContent, b: BundleContent) {
    match (a.contractExpiresAt, b.contractExpiresAt)
    case (Some(x), Some(y)) => x - a.createdAt == y - b.createdAt
    case (None, None) => true
    case _ => false
  }

  /**
    Everything but points in time: the same facts, the same contract life, and grants valid for the same stretch after
    they were resolved.
  */
  predicate SameSemantics(a: BundleContent, b: BundleContent) {
    && a.rest == b.rest && a.request == b.request && a.snapshot == b.snapshot && a.contract == b.contract
    && a.authorization == b.authorization && a.audit == b.audit
    && SameLife(a, b)
    && |a.grants| == |b.grants| && forall i :: 0 <= i < |a.grants| ==> SameGrant(a.grants[i], b.grants[i])
  }

  lemma NormalGrantsDecide(a: GrantRecord, b: GrantRecord)
    ensures NormalGrant(a) == NormalGrant(b) <==> SameGrant(a, b)
  {
    if NormalGrant(a) == NormalGrant(b) {
      assert NormalGrant(a)["not_before_offset_us"] == NormalGrant(b)["not_before_offset_us"];
      assert NormalGrant(a)["valid_for_us"] == NormalGrant(b)["valid_for_us"];
      assert a.facts == NormalGrant(a) - {"not_before_offset_us", "valid_for_us"};
      assert b.facts == NormalGrant(b) - {"not_before_offset_us", "valid_for_us"};
    }
  }

  lemma NormalContractsDecide(a: BundleContent, b: BundleContent)
    ensures NormalPayload(a).contract == NormalPayload(b).contract <==>
              a.contract == b.contract && a.authorization == b.authorization && SameLife(a, b)
  {
    var m, n := NormalPayload(a).contract, NormalPayload(b).contract;
    if m == n {
      assert m["authorization_snapshot"] == n["authorization_snapshot"]
          && m["expires_after_creation_us"] == n["expires_after_creation_us"];
      assert a.contract == m - {"authorization_snapshot", "expires_after_creation_us"};
      assert b.contract == n - {"authorization_snapshot", "expires_after_creation_us"};
    }
  }

  /** Two admissions have the same fingerprint exactly when they mean the same. */
  lemma FingerprintsIdentifySemantics(digest: Payload -> string, a: BundleContent, b: BundleContent)
    requires DistinctDigests(digest)
    ensures digest(NormalPayload(a)) == digest(NormalPayload(b)) <==> SameSemantics(a, b)
  {
    NormalContractsDecide(a, b);
    var p, q := NormalPayload(a), NormalPayload(b);
    forall i | 0 <= i < |a.grants| && i < |b.grants|
      ensures p.grants[i] == q.grants[i] <==> SameGrant(a.grants[i], b.grants[i])
    {
      NormalGrantsDecide(a.grants[i], b.grants[i]);
    }
    if SameSemantics(a, b) {
      assert p.grants == q.grants;
    }
  }

  function Later(t: Option<int>, shift: int): Option<int> {
    if t.Some? then Some(t.value + shift) else None
  }

  /** The same bundle with every time moved by the same amount. */
  function Shifted(b: BundleContent, shift: int): BundleContent {
    b.(submittedAt := b.submittedAt + shift, createdAt := b.createdAt + shift,
       contractExpiresAt := Later(b.contractExpiresAt, shift),
       authorizationCreatedAt := b.authorizationCreatedAt + shift, auditedAt := b.auditedAt + shift,
       grants := seq(|b.grants|, i requires 0 <= i < |b.grants| =>
         b.grants[i].(resolvedAt := b.grants[i].resolvedAt + shift, notBefore := Later(b.grants[i].notBefore, shift),
                      expiresAt := b.grants[i].expiresAt + shift)))
  }

  /** Moving every time alike keeps the meaning; moving the contract's expiry alone does not. */
  lemma ShiftingKeepsTheFingerprint(digest: Payload -> string, b: BundleContent, shift: int)
    requires DistinctDigests(digest)
    ensures digest(NormalPayload(Shifted(b, shift))) == digest(NormalPayload(b))
    ensures b.contractExpiresAt.Some? && shift != 0 ==>
              digest(NormalPayload(b.(contractExpiresAt := Later(b.contractExpiresAt, shift)))) !=
              digest(NormalPayload(b))
  {
    FingerprintsIdentifySemantics(digest, Shifted(b, shift), b);
    FingerprintsIdentifySemantics(digest, b.(contractExpiresAt := Later(b.contractExpiresAt, shift)), b);
  }

  /**
    When something was submitted, audited or authorized never shows.  When its task was created shows exactly through a
    contract that expires.
  */
  lemma WhichTimesShow(digest: Payload -> string, b: BundleContent, t: int)
    requires DistinctDigests(digest)
    ensures digest(NormalPayload(b.(submittedAt := t))) == digest(NormalPayload(b))
    ensures digest(NormalPayload(b.(auditedAt := t))) == digest(NormalPayload(b))
    ensures digest(NormalPayload(b.(authorizationCreatedAt := t))) == digest(NormalPayload(b))
    ensures digest(NormalPayload(b.(createdAt := t))) == digest(NormalPayload(b)) <==>
            b.contractExpiresAt.None? || t == b.createdAt
    ensures digest(NormalPayload(b.(contractExpiresAt := Some(t)))) == digest(NormalPayload(b)) <==>
            b.contractExpiresAt == Some(t)
  {
    FingerprintsIdentifySemantics(digest, b.(submittedAt := t), b);
    FingerprintsIdentifySemantics(digest, b.(auditedAt := t), b);
    FingerprintsIdentifySemantics(digest, b.(authorizationCreatedAt := t), b);
    FingerprintsIdentifySemantics(digest, b.(createdAt := t), b);
    FingerprintsIdentifySemantics(digest, b.(contractExpiresAt := Some(t)), b);
  }

  /**
    Of a grant shows when it expires, and when it begins to hold, each as seen from its resolution; a grant that does
    not say when it begins holds from its resolution on.
  */
  lemma WhichGrantTimesShow(digest: Payload -> string, b: BundleContent, i: nat, t: int)
    requires DistinctDigests(digest) && i < |b.grants|
    ensures var g := b.grants[i];
            && (digest(NormalPayload(WithGrant(b, i, g.(expiresAt := t)))) == digest(NormalPayload(b)) <==>
                  t == g.expiresAt)
            && (digest(NormalPayload(WithGrant(b, i, g.(notBefore := Some(t))))) == digest(NormalPayload(b)) <==>
                  if g.notBefore.Some? then t == g.notBefore.value else t == g.resolvedAt)
            && (digest(NormalPayload(WithGrant(b, i, g.(notBefore := None)))) == digest(NormalPayload(b)) <==>
                  g.notBefore.None? || g.notBefore.value == g.resolvedAt)
            && (digest(NormalPayload(WithGrant(b, i, g.(resolvedAt := t)))) == digest(NormalPayload(b)) <==>
                  t == g.resolvedAt)
  {
    var g := b.grants[i];
    OneGrantDecides(digest, b, i, g.(expiresAt := t));
    OneGrantDecides(digest, b, i, g.(notBefore := Some(t)));
    OneGrantDecides(digest, b, i, g.(notBefore := None));
    OneGrantDecides(digest, b, i, g.(resolvedAt := t));
  }

  function WithGrant(b: BundleContent, i: nat, g: GrantRecord): BundleContent
    requires i < |b.grants|
  {
    b.(grants := b.grants[i := g])
  }

  lemma OneGrantDecides(digest: Payload -> string, b: BundleContent, i: nat, g: GrantRecord)
    requires DistinctDigests(digest) && i < |b.grants|
    ensures digest(NormalPayload(WithGrant(b, i, g))) == digest(NormalPayload(b)) <==> SameGrant(g, b.grants[i])
  {
    var changed := WithGrant(b, i, g);
    FingerprintsIdentifySemantics(digest, changed, b);
    assert changed.grants[i] == g;
    forall j | 0 <= j < |b.grants| && j != i ensures SameGrant(changed.grants[j], b.grants[j]) {
      assert changed.grants[j] == b.grants[j];
    }
  }
}
