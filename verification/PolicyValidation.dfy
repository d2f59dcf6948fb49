/** The gateway's catalogue check of a policy (packages/contracts/src/index.ts), which every
    policy the compiler builds passes. */
module PolicyValidation {
  import opened Wrappers
  import opened PolicyModels
  import opened PolicyCompiler

  datatype ValidationError =
    | MerchantOutsideCatalog | CatalogVersionMismatch
    | TotalCallsExceedOperations | TotalCallsExceedCatalog | RequestsExceedCatalog
    | UsageCapExceedsCatalog | BondExceedsCatalog | PenaltyExceedsCatalog
    | OperationOutsideCatalog(operation: AllowedOperation)
    | CallsExceedCatalog(id: string) | FieldOutsideCatalog(id: string, field: string)
    | ActionNotBondedInCatalog(operationId: string) | ActionNotAllowed(operationId: string)
    | PenaltyExceedsBond | ExpiryPenaltyExceedsMaximum(operationId: string)

  predicate Within(n: nat, limit: Option<nat>) {
    limit.Some? ==> n <= limit.value
  }

  function FindCapability(operations: seq<Operation>, a: AllowedOperation): (r: Option<Operation>)
    ensures r.Some? ==> r.value in operations && r.value.verb == a.verb && r.value.pathTemplate == a.pathTemplate
    ensures r == None ==> forall o | o in operations :: o.verb != a.verb || o.pathTemplate != a.pathTemplate
  {
    if operations == [] then None
    else if operations[0].verb == a.verb && operations[0].pathTemplate == a.pathTemplate then Some(operations[0])
    else FindCapability(operations[1..], a)
  }

  predicate OperationAllowed(c: Catalog, a: AllowedOperation) {
    var capability := FindCapability(c.operations, a);
    && capability.Some? && a.maxCalls <= capability.value.maxCalls
    && forall i | 0 <= i < |a.fields| :: a.fields[i] in capability.value.fields
  }

  predicate Allows(operations: seq<AllowedOperation>, o: Operation) {
    exists i | 0 <= i < |operations| :: operations[i].verb == o.verb && operations[i].pathTemplate == o.pathTemplate
  }

  predicate ActionAllowed(c: Catalog, p: AccessPolicy, a: BondedAction) {
    var capability := FindOperation(c.operations, a.operationId);
    capability.Some? && capability.value.bonded && Allows(p.allowedOperations, capability.value)
  }

  /** What the check demands, as one statement. */
  predicate Acceptable(p: AccessPolicy, c: Catalog) {
    var k := p.constraints;
    && p.merchantId == c.merchantId && p.catalogVersion == c.version
    && k.maxTotalCalls <= TotalCalls(p.allowedOperations) && Within(k.maxTotalCalls, c.maxTotalCalls)
    && Within(k.maxRequestsPerMinute, c.maxRequestsPerMinute) && Within(k.usageCap, c.maxUsageCap)
    && Within(k.bondAmount, c.maxBondAmount) && Within(k.maxPenalty, c.maxPenalty)
    && (forall i | 0 <= i < |p.allowedOperations| :: OperationAllowed(c, p.allowedOperations[i]))
    && (forall i | 0 <= i < |p.bondedActions| :: ActionAllowed(c, p, p.bondedActions[i]))
    && k.maxPenalty <= k.bondAmount
    && (forall i | 0 <= i < |p.bondedActions| :: p.bondedActions[i].expiryPenalty <= k.maxPenalty)
  }

  predicate SessionAcceptable(p: AccessPolicy, c: Catalog) {
    var k := p.constraints;
    && p.merchantId == c.merchantId && p.catalogVersion == c.version
    && k.maxTotalCalls <= TotalCalls(p.allowedOperations) && Within(k.maxTotalCalls, c.maxTotalCalls)
    && Within(k.maxRequestsPerMinute, c.maxRequestsPerMinute) && Within(k.usageCap, c.maxUsageCap)
    && Within(k.bondAmount, c.maxBondAmount) && Within(k.maxPenalty, c.maxPenalty)
  }

  method CheckSession(p: AccessPolicy, c: Catalog) returns (errors: seq<ValidationError>)
    ensures errors == [] <==> SessionAcceptable(p, c)
  {
    errors := [];
    var k := p.constraints;
    if p.merchantId != c.merchantId { errors := errors + [MerchantOutsideCatalog]; }
    if p.catalogVersion != c.version { errors := errors + [CatalogVersionMismatch]; }
    var total := SumCalls(p.allowedOperations);
    if k.maxTotalCalls > total { errors := errors + [TotalCallsExceedOperations]; }
    if !Within(k.maxTotalCalls, c.maxTotalCalls) { errors := errors + [TotalCallsExceedCatalog]; }
    if !Within(k.maxRequestsPerMinute, c.maxRequestsPerMinute) { errors := errors + [RequestsExceedCatalog]; }
    if !Within(k.usageCap, c.maxUsageCap) { errors := errors + [UsageCapExceedsCatalog]; }
    if !Within(k.bondAmount, c.maxBondAmount) { errors := errors + [BondExceedsCatalog]; }
    if !Within(k.maxPenalty, c.maxPenalty) { errors := errors + [PenaltyExceedsCatalog]; }
  }

  method CheckFields(capability: Operation, fields: seq<string>, before: seq<ValidationError>) returns (errors: seq<ValidationError>)
    ensures before <= errors
    ensures errors == before <==> forall i | 0 <= i < |fields| :: fields[i] in capability.fields
  {
    errors := before;
    for i := 0 to |fields|
      invariant before <= errors
      invariant errors == before <==> forall j | 0 <= j < i :: fields[j] in capability.fields
    {
      if fields[i] !in capability.fields { errors := errors + [FieldOutsideCatalog(capability.id, fields[i])]; }
    }
  }

  method CheckOperations(p: AccessPolicy, c: Catalog, before: seq<ValidationError>) returns (errors: seq<ValidationError>)
    ensures before <= errors
    ensures errors == before <==> forall i | 0 <= i < |p.allowedOperations| :: OperationAllowed(c, p.allowedOperations[i])
  {
    errors := before;
    for i := 0 to |p.allowedOperations|
      invariant before <= errors
      invariant errors == before <==> forall j | 0 <= j < i :: OperationAllowed(c, p.allowedOperations[j])
    {
      var operation := p.allowedOperations[i];
      var capability := FindCapability(c.operations, operation);
      if capability == None {
        errors := errors + [OperationOutsideCatalog(operation)];
      } else {
        if operation.maxCalls > capability.value.maxCalls { errors := errors + [CallsExceedCatalog(capability.value.id)]; }
        errors := CheckFields(capability.value, operation.fields, errors);
      }
    }
  }

  method CheckActions(p: AccessPolicy, c: Catalog, before: seq<ValidationError>) returns (errors: seq<ValidationError>)
    ensures before <= errors
    ensures errors == before <==> forall i | 0 <= i < |p.bondedActions| :: ActionAllowed(c, p, p.bondedActions[i])
  {
    errors := before;
    for i := 0 to |p.bondedActions|
      invariant before <= errors
      invariant errors == before <==> forall j | 0 <= j < i :: ActionAllowed(c, p, p.bondedActions[j])
    {
      var id := p.bondedActions[i].operationId;
      var capability := FindOperation(c.operations, id);
      if capability == None || !capability.value.bonded { errors := errors + [ActionNotBondedInCatalog(id)]; }
      if capability == None || !Allows(p.allowedOperations, capability.value) { errors := errors + [ActionNotAllowed(id)]; }
    }
  }

  method CheckPenalties(p: AccessPolicy, before: seq<ValidationError>) returns (errors: seq<ValidationError>)
    ensures before <= errors
    ensures errors == before <==>
      p.constraints.maxPenalty <= p.constraints.bondAmount
      && forall i | 0 <= i < |p.bondedActions| :: p.bondedActions[i].expiryPenalty <= p.constraints.maxPenalty
  {
    errors := before;
    if p.constraints.maxPenalty > p.constraints.bondAmount { errors := errors + [PenaltyExceedsBond]; }
    for i := 0 to |p.bondedActions|
      invariant before <= errors
      invariant errors == before <==>
        p.constraints.maxPenalty <= p.constraints.bondAmount
        && forall j | 0 <= j < i :: p.bondedActions[j].expiryPenalty <= p.constraints.maxPenalty
    {
      if p.bondedActions[i].expiryPenalty > p.constraints.maxPenalty {
        errors := errors + [ExpiryPenaltyExceedsMaximum(p.bondedActions[i].operationId)];
      }
    }
  }

  /** The catalogue part of `validateAccessPolicy`. */
  method ValidateAccessPolicy(p: AccessPolicy, c: Catalog) returns (valid: bool, errors: seq<ValidationError>)
    ensures valid <==> errors == []
    ensures valid <==> Acceptable(p, c)
  {
    var e1 := CheckSession(p, c);
    var e2 := CheckOperations(p, c, e1);
    var e3 := CheckActions(p, c, e2);
    errors := CheckPenalties(p, e3);
    valid := |errors| == 0;
  }

  // ---------------------------------------------------------------------------------
  // What the compiler builds is accepted
  // ---------------------------------------------------------------------------------

  /** A selection keeps within its catalogue entry. */
  predicate Narrows(c: Catalog, s: Selection) {
    && s.operation in c.operations && 1 <= s.maxCalls <= s.operation.maxCalls && s.fields != []
    && forall f | f in s.fields :: f in s.operation.fields
  }

  lemma ProposedNarrow(c: Catalog, ps: seq<ProposedOperation>)
    requires ValidCatalog(c) && AllKnown(c, ps) && forall i | 0 <= i < |ps| :: ps[i].maxCalls >= 1 && ps[i].fields != []
    ensures forall i | 0 <= i < |ps| :: Narrows(c, Proposed(c, ps)[i])
  {
    forall i | 0 <= i < |ps| ensures Narrows(c, Proposed(c, ps)[i]) {
      assert Known(c, ps[i]);
      var o := FindOperation(c.operations, ps[i].operationId).value;
      var k :| 0 <= k < |c.operations| && c.operations[k] == o;
      var cap := Cap(ps[i].maxCalls, [Some(o.maxCalls)]);
      assert [Some(o.maxCalls)][0] == Some(o.maxCalls);
    }
  }

  lemma LifecycleNarrows(c: Catalog, selections: seq<Selection>, id: string)
    requires ValidCatalog(c) && forall i | 0 <= i < |selections| :: Narrows(c, selections[i])
    ensures forall i | 0 <= i < |WithLifecycle(c, selections, id)| :: Narrows(c, WithLifecycle(c, selections, id)[i])
    ensures selections <= WithLifecycle(c, selections, id)
  {
    var o := FindOperation(c.operations, id);
    if o.Some? {
      var k :| 0 <= k < |c.operations| && c.operations[k] == o.value;
    }
  }

  lemma SelectionsNarrow(c: Catalog, p: Proposal)
    requires ValidCatalog(c) && ValidProposal(p) && AllKnown(c, p.operations)
    ensures Selections(c, p) != [] && forall i | 0 <= i < |Selections(c, p)| :: Narrows(c, Selections(c, p)[i])
  {
    hide FindOperation, Cap, Narrows, WithLifecycle;
    var proposed := Proposed(c, p.operations);
    ProposedNarrow(c, p.operations);
    LifecycleNarrows(c, proposed, "release-reservation");
    LifecycleNarrows(c, WithLifecycle(c, proposed, "release-reservation"), "expire-reservation");
  }

  lemma CapabilityIsSelection(c: Catalog, s: Selection)
    requires ValidCatalog(c) && Narrows(c, s)
    ensures OperationAllowed(c, AllowedOperation(s.operation.verb, s.operation.pathTemplate, s.fields, s.maxCalls))
  {
    var a := AllowedOperation(s.operation.verb, s.operation.pathTemplate, s.fields, s.maxCalls);
    var found := FindCapability(c.operations, a).value;
    var i :| 0 <= i < |c.operations| && c.operations[i] == found;
    var j :| 0 <= j < |c.operations| && c.operations[j] == s.operation;
    assert i == j;
  }

  lemma {:induction false} TotalAtLeastOne(operations: seq<AllowedOperation>)
    requires operations != [] && forall i | 0 <= i < |operations| :: operations[i].maxCalls >= 1
    ensures TotalCalls(operations) >= 1
  {}

  lemma ActionIsAllowed(c: Catalog, p: AccessPolicy, selections: seq<Selection>, a: BondedAction)
    requires ValidCatalog(c) && Selected(selections, a) && p.allowedOperations == Allowed(selections)
    requires forall i | 0 <= i < |selections| :: Narrows(c, selections[i])
    ensures ActionAllowed(c, p, a)
  {
    var s := FindSelection(selections, a.operationId).value;
    var i :| 0 <= i < |selections| && selections[i] == s;
    assert Narrows(c, selections[i]);
    var o := FindOperation(c.operations, a.operationId).value;
    var j :| 0 <= j < |c.operations| && c.operations[j] == o;
    var k :| 0 <= k < |c.operations| && c.operations[k] == s.operation;
    assert j == k;
    assert p.allowedOperations[i].verb == o.verb && p.allowedOperations[i].pathTemplate == o.pathTemplate;
  }

  lemma CapBounds(value: nat, caps: seq<Option<nat>>, i: nat)
    requires i < |caps|
    ensures Within(Cap(value, caps), caps[i])
  {}

  lemma CapAtLeastOne(value: nat, caps: seq<Option<nat>>)
    requires value >= 1 && forall i | 0 <= i < |caps| :: AtLeastOne(caps[i])
    ensures Cap(value, caps) >= 1
  {}

  lemma ClampBounds(r: CompileRequest, p: Proposal, selections: seq<Selection>)
    ensures var l, c := Clamp(r, p, selections), r.catalog;
      && l.maxTotalCalls <= TotalCalls(Allowed(selections)) && Within(l.maxTotalCalls, c.maxTotalCalls)
      && Within(l.maxRequestsPerMinute, c.maxRequestsPerMinute) && Within(l.usageCap, c.maxUsageCap)
      && Within(l.bondAmount, c.maxBondAmount) && Within(l.maxPenalty, c.maxPenalty) && l.maxPenalty <= l.bondAmount
  {
    var l, c, b := Clamp(r, p, selections), r.catalog, r.budget;
    hide Cap;
    var total := [Some(TotalCalls(Allowed(selections))), c.maxTotalCalls, b.maxTotalCalls];
    CapBounds(p.maxTotalCalls, total, 0);
    CapBounds(p.maxTotalCalls, total, 1);
    CapBounds(p.maxRequestsPerMinute, [Some(l.maxTotalCalls), c.maxRequestsPerMinute, b.maxRequestsPerMinute, Some(DEFAULT_MAX_REQUESTS_PER_MINUTE)], 1);
    CapBounds(p.usageCap, [Some(b.usageCap), c.maxUsageCap], 1);
    CapBounds(p.bondAmount, [Some(b.bondCap), c.maxBondAmount], 1);
    CapBounds(p.maxPenalty, [Some(l.bondAmount), c.maxPenalty], 0);
    CapBounds(p.maxPenalty, [Some(l.bondAmount), c.maxPenalty], 1);
  }

  lemma ClampPositive(r: CompileRequest, p: Proposal, selections: seq<Selection>)
    requires ValidRequest(r) && ValidProposal(p) && TotalCalls(Allowed(selections)) >= 1
    ensures var l := Clamp(r, p, selections); l.maxTotalCalls >= 1 && l.maxRequestsPerMinute >= 1 && l.ttlSeconds >= 1
  {
    var l, c, b := Clamp(r, p, selections), r.catalog, r.budget;
    hide Cap;
    CapAtLeastOne(p.maxTotalCalls, [Some(TotalCalls(Allowed(selections))), c.maxTotalCalls, b.maxTotalCalls]);
    CapAtLeastOne(p.maxRequestsPerMinute, [Some(l.maxTotalCalls), c.maxRequestsPerMinute, b.maxRequestsPerMinute, Some(DEFAULT_MAX_REQUESTS_PER_MINUTE)]);
    CapAtLeastOne(p.sessionTtlSeconds, [c.maxSessionTtlSeconds, b.maxSessionTtlSeconds, Some(DEFAULT_SESSION_TTL_SECONDS)]);
  }

  lemma ActionBounds(c: Catalog, l: Limits, selections: seq<Selection>, a: BondedAction)
    requires Selected(selections, a) && forall i | 0 <= i < |selections| :: Narrows(c, selections[i])
    requires a.maxActive >= 1 && a.ttlSeconds >= 1 && l.ttlSeconds >= 1
    ensures var built := ClampAction(c, l, selections, a);
      built.operationId == a.operationId && built.maxActive >= 1 && built.ttlSeconds >= 1 && built.expiryPenalty <= l.maxPenalty
  {
    var s := FindSelection(selections, a.operationId).value;
    var i :| 0 <= i < |selections| && selections[i] == s;
    assert Narrows(c, selections[i]);
    hide Cap;
    CapAtLeastOne(a.maxActive, [Some(s.maxCalls)]);
    CapAtLeastOne(a.ttlSeconds, [Some(l.ttlSeconds)]);
    CapBounds(a.expiryPenalty, [Some(l.maxPenalty), Some(c.defaultExpiryPenalty)], 0);
  }

  /** The parts of a built policy. */
  ghost predicate Parts(r: CompileRequest, p: Proposal, policy: AccessPolicy, selections: seq<Selection>, l: Limits) {
    && policy.merchantId == r.catalog.merchantId && policy.catalogVersion == r.catalog.version
    && policy.allowedOperations == Allowed(selections) && selections != []
    && policy.constraints.maxTotalCalls == l.maxTotalCalls && policy.constraints.maxRequestsPerMinute == l.maxRequestsPerMinute
    && policy.constraints.usageCap == l.usageCap
    && policy.constraints.bondAmount == (if p.bondedActions == [] then 0 else l.bondAmount)
    && policy.constraints.maxPenalty == (if p.bondedActions == [] then 0 else l.maxPenalty)
    && AllSelected(selections, p.bondedActions) && policy.bondedActions == ClampActions(r.catalog, l, selections, p.bondedActions)
  }

  lemma PartsAccepted(r: CompileRequest, p: Proposal, policy: AccessPolicy, selections: seq<Selection>, l: Limits)
    requires ValidRequest(r) && ValidProposal(p) && Parts(r, p, policy, selections, l) && l == Clamp(r, p, selections)
    requires forall i | 0 <= i < |selections| :: Narrows(r.catalog, selections[i])
    ensures Acceptable(policy, r.catalog) && ValidPolicy(policy)
  {
    hide Clamp, FindSelection, FindOperation, FindCapability, Cap;
    OperationsAreAccepted(r.catalog, selections);
    TotalAtLeastOne(Allowed(selections));
    ClampBounds(r, p, selections);
    ClampPositive(r, p, selections);
    ActionsAreAccepted(r.catalog, policy, l, selections, p.bondedActions);
    hide OperationAllowed, ActionAllowed, ValidCatalog, ValidBudget, Narrows, AllSelected, ValidProposal, ClampAction;
  }

  /** Every policy the compiler builds, for any catalogue and budget with valid models and any
      proposal that passes its own, is accepted by the gateway's independent check, and its own
      model never rejects it. */
  lemma BuiltPolicyIsAccepted(r: CompileRequest, p: Proposal, now: int)
    requires ValidRequest(r) && ValidProposal(p) && Buildable(r.catalog, p)
    ensures Acceptable(Build(r, p, now), r.catalog) && ValidPolicy(Build(r, p, now))
  {
    var selections := Selections(r.catalog, p);
    SelectionsNarrow(r.catalog, p);
    hide Selections, Clamp, AllKnown, Covered, Narrows, Acceptable, ValidPolicy;
    PartsAccepted(r, p, Build(r, p, now), selections, Clamp(r, p, selections));
  }

  lemma OperationsAreAccepted(c: Catalog, selections: seq<Selection>)
    requires ValidCatalog(c) && forall i | 0 <= i < |selections| :: Narrows(c, selections[i])
    ensures forall i | 0 <= i < |selections| ::
      OperationAllowed(c, Allowed(selections)[i]) && Allowed(selections)[i].maxCalls >= 1 && Allowed(selections)[i].fields != []
  {
    forall i | 0 <= i < |selections| ensures OperationAllowed(c, Allowed(selections)[i]) {
      CapabilityIsSelection(c, selections[i]);
    }
  }

  lemma ActionsAreAccepted(c: Catalog, policy: AccessPolicy, limits: Limits, selections: seq<Selection>, actions: seq<BondedAction>)
    requires ValidCatalog(c) && AllSelected(selections, actions) && policy.allowedOperations == Allowed(selections) && limits.ttlSeconds >= 1
    requires forall i | 0 <= i < |selections| :: Narrows(c, selections[i])
    requires forall i | 0 <= i < |actions| :: actions[i].maxActive >= 1 && actions[i].ttlSeconds >= 1
    ensures forall i | 0 <= i < |actions| ::
      var built := ClampActions(c, limits, selections, actions)[i];
      && ActionAllowed(c, policy, built) && built.maxActive >= 1 && built.ttlSeconds >= 1 && built.expiryPenalty <= limits.maxPenalty
  {
    forall i | 0 <= i < |actions|
      ensures var built := ClampActions(c, limits, selections, actions)[i];
        && ActionAllowed(c, policy, built) && built.maxActive >= 1 && built.ttlSeconds >= 1 && built.expiryPenalty <= limits.maxPenalty
    {
      assert Selected(selections, actions[i]);
      ActionBounds(c, limits, selections, actions[i]);
      ActionIsAllowed(c, policy, selections, actions[i]);
    }
  }

  /** Nor does it go beyond the user's budget or the proposal. */
  lemma BuiltPolicyWithinBudget(r: CompileRequest, p: Proposal, now: int)
    requires Buildable(r.catalog, p)
    ensures var k, b := Build(r, p, now).constraints, r.budget;
      && k.usageCap <= b.usageCap && k.bondAmount <= b.bondCap
      && Within(k.maxTotalCalls, b.maxTotalCalls) && Within(k.maxRequestsPerMinute, b.maxRequestsPerMinute)
      && Within(k.expiresAt - now / 1_000_000, b.maxSessionTtlSeconds)
      && k.maxTotalCalls <= p.maxTotalCalls && k.maxRequestsPerMinute <= p.maxRequestsPerMinute && k.usageCap <= p.usageCap
      && k.bondAmount <= p.bondAmount && k.maxPenalty <= p.maxPenalty && k.expiresAt - now / 1_000_000 <= p.sessionTtlSeconds
  {
    var selections := Selections(r.catalog, p);
    var l, c, b := Clamp(r, p, selections), r.catalog, r.budget;
    CapBounds(p.maxTotalCalls, [Some(TotalCalls(Allowed(selections))), c.maxTotalCalls, b.maxTotalCalls], 2);
    CapBounds(p.maxRequestsPerMinute, [Some(l.maxTotalCalls), c.maxRequestsPerMinute, b.maxRequestsPerMinute, Some(DEFAULT_MAX_REQUESTS_PER_MINUTE)], 2);
    CapBounds(p.sessionTtlSeconds, [c.maxSessionTtlSeconds, b.maxSessionTtlSeconds, Some(DEFAULT_SESSION_TTL_SECONDS)], 1);
    CapBounds(p.usageCap, [Some(b.usageCap), c.maxUsageCap], 0);
    CapBounds(p.bondAmount, [Some(b.bondCap), c.maxBondAmount], 0);
    hide Selections, AllSelected, Covered, AllKnown;
  }
}
