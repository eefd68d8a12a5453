/** Requests and proposed plans against the grants a principal was shown. */
module Interactions {
  import opened Outcomes
  import opened Planning

  datatype Dimension =
    | Discover | ReadRecord | RequestTransition | ExecuteTransition
    | RequestApproval | AdjudicateApproval

  datatype RequestKind = DiscoverRequest | ReadRequest | TransitionRequest | ApprovalRequest | AdjudicationRequest

  function DimensionOf(kind: RequestKind): Dimension {
    match kind
    case DiscoverRequest => Discover
    case ReadRequest => ReadRecord
    case TransitionRequest => RequestTransition
    case ApprovalRequest => RequestApproval
    case AdjudicationRequest => AdjudicateApproval
  }

  datatype Grant = Grant(grantId: string, capabilityId: string, capabilityVersion: string, principalId: string,
                         workloadPrincipalId: Option<string>,
                         tenantId: string, scope: Scope, denied: bool, dimensions: set<Dimension>,
                         policyVersion: string, revocationEpoch: string,
                         activeFrom: int, expiresAt: int)
  {
    predicate Active(now: int) {
      !denied && activeFrom <= now < expiresAt
    }

    predicate Allows(dimension: Dimension, now: int) {
      Active(now) && dimension in dimensions
    }

    function Kinds(): set<RequestKind> {
      set kind: RequestKind | DimensionOf(kind) in dimensions
    }
  }

  /** Grant ids are unique in a grant set. */
  ghost predicate UniqueGrants(grants: seq<Grant>) {
    forall i, j :: 0 <= i < j < |grants| ==> grants[i].grantId != grants[j].grantId
  }

  datatype Entry = Entry(grantId: string, capabilityId: string, capabilityVersion: string, scope: Scope,
                         kinds: set<RequestKind>, expiresAt: int)

  datatype GrantProjection = GrantProjection(principalId: string, workloadPrincipalId: Option<string>,
                                             tenantId: string, revocationEpoch: string,
                                             generatedAt: int, entries: seq<Entry>)

  datatype Definition = Definition(version: string, hasSchema: bool, resultProbeRef: string)

  type Registry = map<string, Definition>

  datatype Request = Request(requestId: string, submittedAt: int, principalRef: string, tenantId: string, scope: Scope,
                             capabilityRef: string,
                             capabilityVersion: string, kind: RequestKind, inputs: map<string, Json>,
                             resourceRefs: set<string>, grantRef: string,
                             contractVersions: map<string, string>)

  // ----- Scopes --------------------------------------------------------------

  /** `requested` stays within `allowed`; here an allowed scope without resources allows every resource. */
  predicate Within(allowed: Scope, requested: Scope) {
    && SameUnits(allowed, requested)
    && (allowed.resourceIds == {} || requested.resourceIds <= allowed.resourceIds)
    && AttributesWithin(allowed.attributes, requested.attributes)
  }

  /** Through an empty resource set, which allows everything, a scope can leave the resources it started within. */
  lemma EmptyResourcesBreakTransitivity() returns (a: Scope, b: Scope, c: Scope)
    ensures Within(a, b) && Within(b, c) && !Within(a, c) && a.attributes == b.attributes == c.attributes
  {
    a, b, c := Scope(None, None, {"r1"}, map[]), Scope(None, None, {}, map[]), Scope(None, None, {"r2"}, map[]);
    assert "r2" in c.resourceIds && "r2" !in a.resourceIds;
  }

  /** Through a scope that drops an attribute, a null value can replace the one it started with. */
  lemma NullAttributesBreakTransitivity() returns (a: Scope, b: Scope, c: Scope)
    ensures Within(a, b) && Within(b, c) && !Within(a, c) && a.resourceIds == b.resourceIds == c.resourceIds
  {
    a, b, c := Scope(None, None, {}, map["region" := JText("north")]), Scope(None, None, {}, map[]),
        Scope(None, None, {}, map["region" := JNull]);
    assert Attribute(a.attributes, "region") != c.attributes["region"];
  }

  /**
    Exactly when a chain of two checks amounts to the direct one: no step passed through an empty resource set or
    dropped an attribute.
  */
  lemma WhenWithinIsTransitive(a: Scope, b: Scope, c: Scope)
    requires Within(a, b) && Within(b, c)
    ensures Within(a, c) <==>
              && (a.resourceIds == {} || b.resourceIds != {} || c.resourceIds == {} || c.resourceIds <= a.resourceIds)
              && (forall key :: key in c.attributes && key !in b.attributes ==> Attribute(a.attributes, key).JNull?)
  {
    forall key | key in c.attributes && key !in b.attributes ensures c.attributes[key].JNull? {
      assert Attribute(b.attributes, key) == c.attributes[key];
    }
    forall key | key in c.attributes && key in b.attributes ensures Attribute(a.attributes, key) == c.attributes[key] {
      assert Attribute(b.attributes, key) == c.attributes[key];
    }
  }

  // ----- What a scope allows -------------------------------------------------

  /** A use of data: where it is, which resource it touches, and the attributes of its context. */
  datatype Use = Use(departmentId: Option<string>, businessLineId: Option<string>, resourceId: string,
                     attributes: map<string, Json>)

  /** A scope without resources allows every resource; a missing attribute of a use reads as null. */
  predicate AllowsUse(scope: Scope, use: Use) {
    && scope.departmentId == use.departmentId && scope.businessLineId == use.businessLineId
    && (scope.resourceIds == {} || use.resourceId in scope.resourceIds)
    && forall key :: key in scope.attributes ==> Attribute(use.attributes, key) == scope.attributes[key]
  }

  /** Everything `narrow` allows is allowed by `wide`. */
  ghost predicate Covers(wide: Scope, narrow: Scope) {
    forall use: Use :: AllowsUse(narrow, use) ==> AllowsUse(wide, use)
  }

  lemma OneMoreThan(texts: set<string>) returns (n: nat)
    ensures forall text :: text in texts ==> |text| < n
  {
    if texts == {} {
      n := 0;
    } else {
      var text :| text in texts;
      var m := OneMoreThan(texts - {text});
      n := if |text| < m then m else |text| + 1;
    }
  }

  /** There is always a further resource. */
  lemma FreshResource(taken: set<string>) returns (r: string)
    ensures r !in taken
  {
    var n := OneMoreThan(taken);
    r := seq(n, i => 'r');
  }

  /** A resource the scope allows. */
  lemma SomeResource(scope: Scope) returns (r: string)
    ensures scope.resourceIds == {} || r in scope.resourceIds
  {
    if scope.resourceIds == {} {
      r := "";
    } else {
      r :| r in scope.resourceIds;
    }
  }

  /** A use that `narrow` allows and that leaves the attribute `key` of `wide`, which `narrow` does not fix. */
  lemma EscapesThroughAttribute(wide: Scope, narrow: Scope, key: string)
    requires key in wide.attributes && key !in narrow.attributes
    ensures !Covers(wide, narrow)
  {
    var r := SomeResource(narrow);
    var other := if wide.attributes[key].JNull? then JBool(true) else JNull;
    var use := Use(narrow.departmentId, narrow.businessLineId, r, narrow.attributes[key := other]);
    assert AllowsUse(narrow, use);
    assert Attribute(use.attributes, key) != wide.attributes[key];
  }

  /** A use that `narrow`, which names no resource, allows and `wide`, which names some, does not. */
  lemma EscapesThroughResources(wide: Scope, narrow: Scope)
    requires wide.resourceIds != {} && narrow.resourceIds == {}
    ensures !Covers(wide, narrow)
  {
    var r := FreshResource(wide.resourceIds);
    var use := Use(narrow.departmentId, narrow.businessLineId, r, narrow.attributes);
    assert AllowsUse(narrow, use) && !AllowsUse(wide, use);
  }

  /**
    What coverage is: the same units, no resource beyond the wide scope's, which takes naming some where it does, and
    every attribute the wide scope fixes, null included, fixed to the same value.
  */
  lemma WhatCoverageIs(wide: Scope, narrow: Scope)
    ensures Covers(wide, narrow) <==>
              && SameUnits(wide, narrow)
              && (wide.resourceIds == {} || (narrow.resourceIds != {} && narrow.resourceIds <= wide.resourceIds))
              && (forall key :: key in wide.attributes ==>
                  key in narrow.attributes && narrow.attributes[key] == wide.attributes[key])
  {
    if Covers(wide, narrow) {
      if wide.resourceIds != {} && narrow.resourceIds == {} {
        EscapesThroughResources(wide, narrow);
      }
      var r := SomeResource(narrow);
      var use := Use(narrow.departmentId, narrow.businessLineId, r, narrow.attributes);
      assert AllowsUse(narrow, use) && AllowsUse(wide, use);
      forall r | r in narrow.resourceIds ensures wide.resourceIds == {} || r in wide.resourceIds {
        assert AllowsUse(wide, use.(resourceId := r));
      }
      forall key | key in wide.attributes
        ensures key in narrow.attributes && narrow.attributes[key] == wide.attributes[key]
      {
        if key !in narrow.attributes {
          EscapesThroughAttribute(wide, narrow, key);
        }
      }
    }
  }

  /**
    The scope check does not mean coverage.  A scope that passes it stays within the allowing one exactly when it names
    resources wherever the other does, and fixes every attribute the other fixes, to null included.
  */
  lemma WhenTheCheckMeansCoverage(allowed: Scope, requested: Scope)
    requires Within(allowed, requested)
    ensures Covers(allowed, requested) <==>
              && (allowed.resourceIds == {} || requested.resourceIds != {})
              && allowed.attributes.Keys <= requested.attributes.Keys
  {
    WhatCoverageIs(allowed, requested);
    forall key | key in allowed.attributes && key in requested.attributes
      ensures requested.attributes[key] == allowed.attributes[key]
    {
      assert Attribute(allowed.attributes, key) == requested.attributes[key];
    }
  }

  /** And a covered scope passes the check exactly when it fixes no attribute to a value that the other leaves open. */
  lemma WhenCoverageMeansTheCheck(allowed: Scope, requested: Scope)
    requires Covers(allowed, requested)
    ensures Within(allowed, requested) <==>
              forall key :: key in requested.attributes && key !in allowed.attributes ==>
                requested.attributes[key].JNull?
  {
    WhatCoverageIs(allowed, requested);
    if Within(allowed, requested) {
      forall key | key in requested.attributes && key !in allowed.attributes ensures requested.attributes[key].JNull? {
        assert Attribute(allowed.attributes, key) == requested.attributes[key];
      }
    }
  }

  // ----- The projection ------------------------------------------------------

  function EntryOf(g: Grant): Entry {
    Entry(g.grantId, g.capabilityId, g.capabilityVersion, g.scope, g.Kinds(), g.expiresAt)
  }

  /** The grant and its entry say the same, and belong to the projection's principal, tenant and epoch. */
  predicate Bound(g: Grant, e: Entry, p: GrantProjection) {
    && g.principalId == p.principalId && g.workloadPrincipalId == p.workloadPrincipalId
    && g.tenantId == p.tenantId && g.revocationEpoch == p.revocationEpoch
    && g.capabilityId == e.capabilityId && g.capabilityVersion == e.capabilityVersion && g.scope == e.scope
    && g.expiresAt == e.expiresAt
  }

  function ActiveGrants(grants: seq<Grant>, now: int): seq<Grant> {
    if grants == [] then []
    else ActiveGrants(grants[..|grants| - 1], now)
         + if grants[|grants| - 1].Active(now) then [grants[|grants| - 1]] else []
  }

  lemma {:induction false} ActiveGrantsAreActive(grants: seq<Grant>, now: int)
    ensures forall g :: g in ActiveGrants(grants, now) <==> g in grants && g.Active(now)
  {
    if grants != [] {
      ActiveGrantsAreActive(grants[..|grants| - 1], now);
      assert forall g :: g in grants <==> g in grants[..|grants| - 1] || g == grants[|grants| - 1];
    }
  }

  /** All four identities of the active grants agree with those of `g`. */
  predicate OneIdentity(active: seq<Grant>, g: Grant) {
    forall i :: 0 <= i < |active| ==>
      active[i].principalId == g.principalId && active[i].workloadPrincipalId == g.workloadPrincipalId
      && active[i].tenantId == g.tenantId && active[i].revocationEpoch == g.revocationEpoch
  }

  predicate Registered(registry: Registry, g: Grant) {
    g.capabilityId in registry && registry[g.capabilityId].version == g.capabilityVersion
  }

  lemma EntriesShowGrants(grants: seq<Grant>, active: seq<Grant>, entries: seq<Entry>, now: int)
    requires forall g :: g in active <==> g in grants && g.Active(now)
    requires forall e :: e in entries <==>
               exists j :: 0 <= j < |active| && active[j].Kinds() != {} && e == EntryOf(active[j])
    ensures forall e :: e in entries <==> exists g :: g in grants && g.Active(now) && g.Kinds() != {} && e == EntryOf(g)
  {
    forall e ensures e in entries <==> exists g :: g in grants && g.Active(now) && g.Kinds() != {} && e == EntryOf(g) {
      if e in entries {
        var j :| 0 <= j < |active| && active[j].Kinds() != {} && e == EntryOf(active[j]);
        assert active[j] in active;
      }
      if g :| g in grants && g.Active(now) && g.Kinds() != {} && e == EntryOf(g) {
        assert g in active;
      }
    }
  }

  // ----- The same on the grants' own fields ----------------------------------

  /** The grant is not denied and its time has come and is not over. */
  predicate IsLive(g: Grant, now: int) {
    !g.denied && g.activeFrom <= now && now < g.expiresAt
  }

  /** The two act for the same principal and workload, in the same tenant and epoch. */
  predicate SameHolder(a: Grant, b: Grant) {
    && a.principalId == b.principalId && a.workloadPrincipalId == b.workloadPrincipalId
    && a.tenantId == b.tenantId && a.revocationEpoch == b.revocationEpoch
  }

  /** Some request can be made under the grant. */
  predicate AllowsSomeRequest(g: Grant) {
    || Discover in g.dimensions || ReadRecord in g.dimensions || RequestTransition in g.dimensions
    || RequestApproval in g.dimensions || AdjudicateApproval in g.dimensions
  }

  /** The entry says of the grant what it allows, where, and how long, each kind of request by its own dimension. */
  predicate ShowsGrant(e: Entry, g: Grant) {
    && e.grantId == g.grantId && e.capabilityId == g.capabilityId && e.capabilityVersion == g.capabilityVersion
    && e.scope == g.scope && e.expiresAt == g.expiresAt
    && (DiscoverRequest in e.kinds <==> Discover in g.dimensions)
    && (ReadRequest in e.kinds <==> ReadRecord in g.dimensions)
    && (TransitionRequest in e.kinds <==> RequestTransition in g.dimensions)
    && (ApprovalRequest in e.kinds <==> RequestApproval in g.dimensions)
    && (AdjudicationRequest in e.kinds <==> AdjudicateApproval in g.dimensions)
  }

  lemma EntriesShowTheirGrant(e: Entry, g: Grant)
    ensures e == EntryOf(g) <==> ShowsGrant(e, g)
    ensures g.Kinds() != {} <==> AllowsSomeRequest(g)
  {
    assert forall kind: RequestKind :: kind in g.Kinds() <==> DimensionOf(kind) in g.dimensions;
    if AllowsSomeRequest(g) {
      var kind := if Discover in g.dimensions then DiscoverRequest else if ReadRecord in g.dimensions then ReadRequest
                  else if RequestTransition in g.dimensions then TransitionRequest
                  else if RequestApproval in g.dimensions then ApprovalRequest else AdjudicationRequest;
      assert kind in g.Kinds();
    }
    if ShowsGrant(e, g) {
      forall kind: RequestKind ensures kind in e.kinds <==> kind in g.Kinds() {
        match kind
        case DiscoverRequest =>
        case ReadRequest =>
        case TransitionRequest =>
        case ApprovalRequest =>
        case AdjudicationRequest =>
      }
      assert e.kinds == g.Kinds();
    }
  }

  lemma ActiveGrantsAreBound(grants: seq<Grant>, active: seq<Grant>, now: int)
    requires forall g :: g in active <==> g in grants && g.Active(now)
    requires active != [] && OneIdentity(active, active[0])
    ensures forall g :: g in grants && g.Active(now) ==> SameHolder(g, active[0])
  {
    forall g | g in grants && g.Active(now) ensures SameHolder(g, active[0]) {
      assert g in active;
    }
  }

  /** Of several live grants that can be shown, all are of one holder and registered in their version. */
  ghost predicate Projectable(grants: seq<Grant>, registry: Registry, now: int) {
    && (exists g :: g in grants && IsLive(g, now))
    && (forall a, b :: a in grants && b in grants && IsLive(a, now) && IsLive(b, now) ==> SameHolder(a, b))
    && (forall g :: g in grants && IsLive(g, now) ==>
                      g.capabilityId in registry && registry[g.capabilityId].version == g.capabilityVersion)
  }

  lemma ActiveGrantsProject(grants: seq<Grant>, registry: Registry, now: int)
    ensures var active := ActiveGrants(grants, now);
            (active != [] && OneIdentity(active, active[0])
             && forall i :: 0 <= i < |active| ==> Registered(registry, active[i]))
            <==> Projectable(grants, registry, now)
  {
    ActiveGrantsAreActive(grants, now);
    var active := ActiveGrants(grants, now);
    assert forall g :: g in active <==> g in grants && IsLive(g, now);
    if active != [] && OneIdentity(active, active[0]) {
      assert active[0] in grants && IsLive(active[0], now);
      forall a, b | a in grants && b in grants && IsLive(a, now) && IsLive(b, now) ensures SameHolder(a, b) {
        assert a in active && b in active;
      }
    }
    if Projectable(grants, registry, now) {
      forall i | 0 <= i < |active| ensures SameHolder(active[i], active[0]) && Registered(registry, active[i]) {
        assert active[i] in active && active[0] in active;
      }
    }
  }

  /** The projection's entries are, each as its grant, the live grants that allow some request. */
  ghost predicate ShowsTheLive(p: GrantProjection, grants: seq<Grant>, now: int) {
    && (forall e :: e in p.entries ==>
          exists g :: g in grants && IsLive(g, now) && AllowsSomeRequest(g) && ShowsGrant(e, g))
    && (forall g :: g in grants && IsLive(g, now) && AllowsSomeRequest(g) ==>
          exists e :: e in p.entries && ShowsGrant(e, g))
    && (forall g :: g in grants && IsLive(g, now) ==>
          && g.principalId == p.principalId && g.workloadPrincipalId == p.workloadPrincipalId
          && g.tenantId == p.tenantId && g.revocationEpoch == p.revocationEpoch)
  }

  lemma EntriesShowTheLive(p: GrantProjection, grants: seq<Grant>, now: int)
    requires forall e :: e in p.entries <==>
               exists g :: g in grants && g.Active(now) && g.Kinds() != {} && e == EntryOf(g)
    requires forall g :: g in grants && g.Active(now) ==> Bound(g, EntryOf(g), p)
    ensures ShowsTheLive(p, grants, now)
  {
    hide ShowsGrant, EntryOf, AllowsSomeRequest;
    forall e | e in p.entries
      ensures exists g :: g in grants && IsLive(g, now) && AllowsSomeRequest(g) && ShowsGrant(e, g)
    {
      var g :| g in grants && g.Active(now) && g.Kinds() != {} && e == EntryOf(g);
      EntriesShowTheirGrant(e, g);
    }
    forall g | g in grants && IsLive(g, now) && AllowsSomeRequest(g)
      ensures exists e :: e in p.entries && ShowsGrant(e, g)
    {
      EntriesShowTheirGrant(EntryOf(g), g);
      assert EntryOf(g) in p.entries;
    }
    forall g | g in grants && IsLive(g, now)
      ensures && g.principalId == p.principalId && g.workloadPrincipalId == p.workloadPrincipalId
              && g.tenantId == p.tenantId && g.revocationEpoch == p.revocationEpoch
    {
      assert Bound(g, EntryOf(g), p);
    }
  }

  /**
    The disclosure-safe view of a grant set.  It exists exactly for one principal, tenant and epoch whose active
    grants are all registered in their version, and it shows exactly the active grants that allow some request.
  */
  method BuildGrantProjection(grants: seq<Grant>, registry: Registry, now: int)
    returns (r: Result<GrantProjection, string>)
    ensures var active := ActiveGrants(grants, now);
            r.Ok? <==> active != [] && OneIdentity(active, active[0])
                       && forall i :: 0 <= i < |active| ==> Registered(registry, active[i])
    ensures r.Ok? <==> Projectable(grants, registry, now)
    ensures r.Ok? ==> ShowsTheLive(r.value, grants, now)
    ensures r.Ok? ==>
              && r.value.generatedAt == now
              && (forall e :: e in r.value.entries <==>
                  exists g :: g in grants && g.Active(now) && g.Kinds() != {} && e == EntryOf(g))
              && (forall g :: g in grants && g.Active(now) ==> Bound(g, EntryOf(g), r.value))
  {
    hide ShowsTheLive, Projectable, ActiveGrants;
    ActiveGrantsProject(grants, registry, now);
    var active := ActiveGrants(grants, now);
    ActiveGrantsAreActive(grants, now);
    if active == [] {
      return Refused("No active Capability Grants are available for projection");
    }
    if !OneIdentity(active, active[0]) {
      return Refused("Grant projection cannot combine principals, tenants, or revocation epochs");
    }
    var entries: seq<Entry> := [];
    var i := 0;
    while i < |active|
      invariant 0 <= i <= |active|
      invariant forall j :: 0 <= j < i ==> Registered(registry, active[j])
      invariant forall e :: e in entries <==>
          exists j :: 0 <= j < i && active[j].Kinds() != {} && e == EntryOf(active[j])
    {
      var grant := active[i];
      if !Registered(registry, grant) {
        return Refused("Grant capability version does not match the registry");
      }
      if grant.Kinds() != {} {
        entries := entries + [EntryOf(grant)];
      }
      i := i + 1;
    }
    EntriesShowGrants(grants, active, entries, now);
    ActiveGrantsAreBound(grants, active, now);
    var first := active[0];
    var projection := GrantProjection(first.principalId, first.workloadPrincipalId, first.tenantId,
                                      first.revocationEpoch, now, entries);
    EntriesShowTheLive(projection, grants, now);
    return Ok(projection);
  }

  // ----- Requests ------------------------------------------------------------

  /** Inputs fit a capability: none without a schema, and whatever the trusted validator accepts with one. */
  predicate InputsOk(definition: Definition, accepts: Option<map<string, Json> -> bool>, inputs: map<string, Json>) {
    if !definition.hasSchema then inputs == map[] else accepts.Some? && accepts.value(inputs)
  }

  /** The first unexpired entry for the capability and grant. */
  function RequireEntry(entries: seq<Entry>, capabilityId: string, grantId: string, now: int): (r: Option<Entry>)
    ensures r.Some? ==>
              && r.value in entries && now < r.value.expiresAt
              && r.value.capabilityId == capabilityId && r.value.grantId == grantId
    ensures r.None? ==>
              forall e :: e in entries ==>
                !(e.capabilityId == capabilityId && e.grantId == grantId && now < e.expiresAt)
  {
    if entries == [] then None
    else if entries[0].capabilityId == capabilityId && entries[0].grantId == grantId && now < entries[0].expiresAt
    then Some(entries[0])
    else RequireEntry(entries[1..], capabilityId, grantId, now)
  }

  /** A request that stays within what its principal was shown; `entry` is what it was shown. */
  predicate RequestOk(request: Request, projection: GrantProjection, registry: Registry,
                      accepts: Option<map<string, Json> -> bool>, now: int) {
    && request.submittedAt <= now && projection.generatedAt <= now
    && request.principalRef == projection.principalId && request.tenantId == projection.tenantId
    && var found := RequireEntry(projection.entries, request.capabilityRef, request.grantRef, now);
       && found.Some?
       && request.capabilityVersion == found.value.capabilityVersion
       && request.kind in found.value.kinds
       && Within(found.value.scope, request.scope)
       && (found.value.scope.resourceIds == {} || request.resourceRefs <= found.value.scope.resourceIds)
       && (request.scope.resourceIds == {} || request.resourceRefs <= request.scope.resourceIds)
       && request.capabilityRef in registry && registry[request.capabilityRef].version == request.capabilityVersion
       && InputsOk(registry[request.capabilityRef], accepts, request.inputs)
  }

  function GrantById(grants: seq<Grant>, grantId: string): (r: Option<Grant>)
    ensures r.Some? ==> r.value in grants && r.value.grantId == grantId
    ensures r.None? ==> forall g :: g in grants ==> g.grantId != grantId
  {
    if grants == [] then None else if grants[0].grantId == grantId then Some(grants[0])
      else GrantById(grants[1..], grantId)
  }

  /** The entry the projection's index keeps for a capability and grant: the last one. */
  function IndexedEntry(entries: seq<Entry>, capabilityId: string, grantId: string): (r: Option<Entry>)
    ensures r.Some? ==> r.value in entries && r.value.capabilityId == capabilityId && r.value.grantId == grantId
  {
    if entries == [] then None
    else
      var last := entries[|entries| - 1];
      if last.capabilityId == capabilityId && last.grantId == grantId then Some(last)
        else IndexedEntry(entries[..|entries| - 1], capabilityId, grantId)
  }

  predicate AllowsDimension(grants: seq<Grant>, capabilityId: string, grantId: string, dimension: Dimension, now: int) {
    exists i :: 0 <= i < |grants| && grants[i].capabilityId == capabilityId && grants[i].grantId == grantId
        && grants[i].Allows(dimension, now)
  }

  /** One step of a proposal is covered by what was shown, by its grant, and by the registry. */
  predicate StepOk(plan: Plan, step: PlanStep, projection: GrantProjection, grants: seq<Grant>, registry: Registry,
                   accepts: Option<map<string, Json> -> bool>, now: int) {
    && var entry := IndexedEntry(projection.entries, step.capabilityId, step.grantId);
       var grant := GrantById(grants, step.grantId);
       && entry.Some? && step.capabilityVersion == Some(entry.value.capabilityVersion)
       && grant.Some? && Bound(grant.value, entry.value, projection)
       && AllowsDimension(grants, step.capabilityId, step.grantId, RequestTransition, now)
       && Within(grant.value.scope, plan.scope)
       && step.capabilityId in registry && Some(registry[step.capabilityId].version) == step.capabilityVersion
       && InputsOk(registry[step.capabilityId], accepts, step.inputs)
       && step.contractId == plan.contractId
       && AllowsDimension(grants, step.capabilityId, step.grantId, ExecuteTransition, now)
  }

  predicate UniqueStepIds(steps: seq<PlanStep>) {
    forall i, j :: 0 <= i < j < |steps| ==> steps[i].stepId != steps[j].stepId
  }

  /** A model's proposal that may go on to admission. */
  predicate ProposalOk(plan: Plan, request: Request, projection: GrantProjection, grants: seq<Grant>,
                       registry: Registry,
                       accepts: Option<map<string, Json> -> bool>, now: int) {
    && request.kind.TransitionRequest?
    && RequestOk(request, projection, registry, accepts, now)
    && plan.steps != [] && plan.requestId == Some(request.requestId) && UniqueStepIds(plan.steps)
    && plan.steps[0].capabilityId == request.capabilityRef && plan.steps[0].grantId == request.grantRef
    && plan.steps[0].inputs == request.inputs
    && Within(request.scope, plan.scope)
    && (request.resourceRefs == {} || request.resourceRefs <= plan.scope.resourceIds)
    && (forall i :: 0 <= i < |plan.steps| ==> StepOk(plan, plan.steps[i], projection, grants, registry, accepts, now))
  }

  /**
    Every grant a proposal uses is executable now and the requester's own, and allows every resource the plan or the
    request names.  It allows all the plan's scope allows exactly when the plan names resources wherever the grant does
    and fixes every attribute the grant fixes.
  */
  lemma ProposalsStayWithinEveryGrant(plan: Plan, request: Request, projection: GrantProjection, grants: seq<Grant>,
                                      registry: Registry,
                                      accepts: Option<map<string, Json> -> bool>, now: int, i: nat)
    requires UniqueGrants(grants) && ProposalOk(plan, request, projection, grants, registry, accepts, now)
             && i < |plan.steps|
    ensures var grant := GrantById(grants, plan.steps[i].grantId);
            && grant.Some? && Within(grant.value.scope, plan.scope)
            && grant.value.Allows(ExecuteTransition, now) && grant.value.Allows(RequestTransition, now)
            && grant.value.capabilityId == plan.steps[i].capabilityId
            && grant.value.principalId == request.principalRef && grant.value.tenantId == request.tenantId
            && (forall r :: r in plan.scope.resourceIds || r in request.resourceRefs ==>
                grant.value.scope.resourceIds == {} || r in grant.value.scope.resourceIds)
            && (Covers(grant.value.scope, plan.scope) <==>
                  && (grant.value.scope.resourceIds == {} || plan.scope.resourceIds != {})
                  && grant.value.scope.attributes.Keys <= plan.scope.attributes.Keys)
  {
    var step := plan.steps[i];
    assert StepOk(plan, step, projection, grants, registry, accepts, now);
    var grant := GrantById(grants, step.grantId).value;
    OnlyOneGrantOfThatId(grants, step.grantId, grant);
    WhenTheCheckMeansCoverage(grant.scope, plan.scope);
  }

  lemma OnlyOneGrantOfThatId(grants: seq<Grant>, grantId: string, g: Grant)
    requires UniqueGrants(grants) && g in grants && g.grantId == grantId
    ensures forall i :: 0 <= i < |grants| && grants[i].grantId == grantId ==> grants[i] == g
  {
  }

  /** On the projection built from the same grants at the same time, no step is refused for its binding. */
  lemma BuiltProjectionsBind(grants: seq<Grant>, projection: GrantProjection, step: PlanStep, now: int)
    requires UniqueGrants(grants)
    requires forall e :: e in projection.entries <==>
        exists g :: g in grants && g.Active(now) && g.Kinds() != {} && e == EntryOf(g)
    requires forall g :: g in grants && g.Active(now) ==> Bound(g, EntryOf(g), projection)
    requires IndexedEntry(projection.entries, step.capabilityId, step.grantId).Some?
    ensures var grant := GrantById(grants, step.grantId);
            grant.Some? && Bound(grant.value, IndexedEntry(projection.entries, step.capabilityId, step.grantId).value,
                                 projection)
  {
    var entry := IndexedEntry(projection.entries, step.capabilityId, step.grantId).value;
    var g :| g in grants && g.Active(now) && g.Kinds() != {} && entry == EntryOf(g);
    OnlyOneGrantOfThatId(grants, step.grantId, g);
  }
}
