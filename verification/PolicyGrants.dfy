/** What a built policy grants, read off the catalogue, the budget and the proposal alone. */
module PolicyGrants {
  import opened Wrappers
  import opened Sums
  import opened PolicyModels
  import opened PolicyCompiler

  // ---------------------------------------------------------------------------------
  // Operations
  // ---------------------------------------------------------------------------------

  ghost predicate Offers(c: Catalog, id: string) {
    exists o | o in c.operations :: o.id == id
  }

  ghost predicate Proposes(p: Proposal, id: string) {
    exists i | 0 <= i < |p.operations| :: p.operations[i].operationId == id
  }

  /** A lifecycle operation comes with a reservation that is proposed, unless it is itself. */
  ghost predicate Adds(c: Catalog, p: Proposal, id: string) {
    Proposes(p, "reserve-inventory") && !Proposes(p, id) && Offers(c, id)
  }

  /** The catalogue's operation with the proposed id, the proposed fields, and the lesser number
      of calls. */
  ghost predicate GrantsProposed(c: Catalog, q: ProposedOperation, a: AllowedOperation) {
    exists o | o in c.operations ::
      && o.id == q.operationId && a.verb == o.verb && a.pathTemplate == o.pathTemplate
      && (forall f | f in q.fields :: f in o.fields)
      && a.fields == q.fields && a.maxCalls == if q.maxCalls < o.maxCalls then q.maxCalls else o.maxCalls
  }

  /** The catalogue's operation as it is. */
  ghost predicate GrantsWhole(c: Catalog, id: string, a: AllowedOperation) {
    exists o | o in c.operations :: o.id == id && a == AllowedOperation(o.verb, o.pathTemplate, o.fields, o.maxCalls)
  }

  /** The proposed operations in their order, then those that a reservation brings. */
  ghost predicate GrantsExactly(c: Catalog, p: Proposal, granted: seq<AllowedOperation>) {
    var n := |p.operations|;
    var release := if Adds(c, p, "release-reservation") then 1 else 0;
    var expire := if Adds(c, p, "expire-reservation") then 1 else 0;
    && |granted| == n + release + expire
    && (forall i | 0 <= i < n :: GrantsProposed(c, p.operations[i], granted[i]))
    && (release == 1 ==> GrantsWhole(c, "release-reservation", granted[n]))
    && (expire == 1 ==> GrantsWhole(c, "expire-reservation", granted[n + release]))
  }

  lemma FindsOffered(c: Catalog, id: string)
    ensures FindOperation(c.operations, id).Some? <==> Offers(c, id)
  {
    if Offers(c, id) {
      var o :| o in c.operations && o.id == id;
      var i :| 0 <= i < |c.operations| && c.operations[i] == o;
      assert c.operations[i].id == id;
    }
  }

  lemma FindsProposed(c: Catalog, p: Proposal, id: string)
    requires AllKnown(c, p.operations)
    ensures FindSelection(Proposed(c, p.operations), id).Some? <==> Proposes(p, id)
  {
    var selections := Proposed(c, p.operations);
    forall i | 0 <= i < |p.operations| ensures selections[i].operation.id == p.operations[i].operationId {
      assert Known(c, p.operations[i]);
    }
    if FindSelection(selections, id).Some? {
      var x := FindSelection(selections, id).value;
      var i :| 0 <= i < |selections| && selections[i] == x;
      assert p.operations[i].operationId == id;
    }
  }

  lemma ProposedIsGranted(c: Catalog, p: Proposal)
    requires AllKnown(c, p.operations)
    ensures |Allowed(Proposed(c, p.operations))| == |p.operations|
    ensures forall i | 0 <= i < |p.operations| :: GrantsProposed(c, p.operations[i], Allowed(Proposed(c, p.operations))[i])
  {
    forall i | 0 <= i < |p.operations| ensures GrantsProposed(c, p.operations[i], Allowed(Proposed(c, p.operations))[i]) {
      assert Known(c, p.operations[i]);
      var o := FindOperation(c.operations, p.operations[i].operationId).value;
      assert Cap(p.operations[i].maxCalls, [Some(o.maxCalls)]) == if p.operations[i].maxCalls < o.maxCalls then p.operations[i].maxCalls else o.maxCalls by {
        CapOfOne(p.operations[i].maxCalls, o.maxCalls);
      }
      assert o in c.operations;
    }
  }

  lemma CapOfOne(value: nat, cap: nat)
    ensures Cap(value, [Some(cap)]) == if value < cap then value else cap
  {
    assert [Some(cap)][1..] == [];
  }

  /** One lifecycle operation on top of selections. */
  lemma LifecycleGrants(c: Catalog, selections: seq<Selection>, id: string)
    ensures var more := WithLifecycle(c, selections, id);
      if FindSelection(selections, id) == None && Offers(c, id) then
        |more| == |selections| + 1 && more[..|selections|] == selections && GrantsWhole(c, id, Allowed(more)[|selections|])
        && more[|selections|].operation.id == id
      else more == selections
  {
    FindsOffered(c, id);
    if FindSelection(selections, id) == None && Offers(c, id) {
      var o := FindOperation(c.operations, id).value;
      assert o in c.operations && o.id == id;
      assert WithLifecycle(c, selections, id)[|selections|] == Selection(o, o.fields, o.maxCalls);
    }
  }

  lemma FindInLonger(selections: seq<Selection>, last: Selection, id: string)
    requires last.operation.id != id
    ensures FindSelection(selections + [last], id).Some? <==> FindSelection(selections, id).Some?
  {
    var more := selections + [last];
    if FindSelection(selections, id).Some? {
      var x := FindSelection(selections, id).value;
      var i :| 0 <= i < |selections| && selections[i] == x;
      assert more[i].operation.id == id;
    } else {
      assert forall i | 0 <= i < |more| :: more[i].operation.id != id;
    }
  }

  lemma SelectionsGrant(c: Catalog, p: Proposal)
    requires AllKnown(c, p.operations)
    ensures GrantsExactly(c, p, Allowed(Selections(c, p)))
  {
    hide FindSelection, FindOperation, AllKnown, Proposed, WithLifecycle, GrantsWhole, GrantsProposed, Offers, Proposes;
    var proposed := Proposed(c, p.operations);
    ProposedIsGranted(c, p);
    FindsProposed(c, p, "reserve-inventory");
    FindsProposed(c, p, "release-reservation");
    FindsProposed(c, p, "expire-reservation");
    if Proposes(p, "reserve-inventory") {
      var one := WithLifecycle(c, proposed, "release-reservation");
      LifecycleGrants(c, proposed, "release-reservation");
      if Adds(c, p, "release-reservation") {
        assert one == proposed + [one[|proposed|]];
        FindInLonger(proposed, one[|proposed|], "expire-reservation");
      }
      var two := WithLifecycle(c, one, "expire-reservation");
      LifecycleGrants(c, one, "expire-reservation");
      assert two == Selections(c, p);
      PrefixGrants(proposed, one);
      PrefixGrants(one, two);
    } else {
      assert Selections(c, p) == proposed;
    }
  }

  lemma PrefixGrants(selections: seq<Selection>, more: seq<Selection>)
    requires |selections| <= |more| && more[..|selections|] == selections
    ensures |Allowed(selections)| == |selections| && |Allowed(more)| == |more|
    ensures forall i | 0 <= i < |selections| :: Allowed(more)[i] == Allowed(selections)[i]
  {
    assert forall i | 0 <= i < |selections| :: more[i] == more[..|selections|][i];
  }

  // ---------------------------------------------------------------------------------
  // Limits
  // ---------------------------------------------------------------------------------

  /** The least of the value and the bounds that are there. */
  predicate IsLeast(built: int, value: nat, bounds: seq<Option<nat>>) {
    && built <= value && (forall i | 0 <= i < |bounds| && bounds[i].Some? :: built <= bounds[i].value)
    && (built == value || exists i | 0 <= i < |bounds| :: bounds[i].Some? && built == bounds[i].value)
  }

  lemma CapIsLeast(value: nat, bounds: seq<Option<nat>>)
    ensures IsLeast(Cap(value, bounds), value, bounds)
  {
    var built := Cap(value, bounds);
    if built != value {
      var i :| 0 <= i < |bounds| && bounds[i] == Some(built);
      assert bounds[i].Some? && built == bounds[i].value;
    }
  }

  ghost function CallsByPosition(operations: seq<AllowedOperation>): map<nat, nat> {
    map i: nat | i < |operations| :: operations[i].maxCalls
  }

  lemma {:induction false} TotalIsSum(operations: seq<AllowedOperation>)
    ensures TotalCalls(operations) == Sum(CallsByPosition(operations))
    decreases |operations|
  {
    if operations == [] {
      assert CallsByPosition(operations) == map[];
    } else {
      var n: nat := |operations| - 1;
      var front := operations[..n];
      TotalIsSum(front);
      SumUpdate(CallsByPosition(front), n, operations[n].maxCalls);
      assert CallsByPosition(operations) == CallsByPosition(front)[n := operations[n].maxCalls];
    }
  }

  /** Every session limit is the least of what was proposed and of what bounds it; a policy without
      bonded actions has no bond. The policy expires `ttl` seconds after `seconds`. */
  ghost predicate LimitsExactly(r: CompileRequest, p: Proposal, k: Constraints, granted: seq<AllowedOperation>, seconds: int) {
    var c, b, sum := r.catalog, r.budget, Sum(CallsByPosition(granted));
    && IsLeast(k.maxTotalCalls, p.maxTotalCalls, [Some(sum), c.maxTotalCalls, b.maxTotalCalls])
    && IsLeast(k.maxRequestsPerMinute, p.maxRequestsPerMinute, [Some(k.maxTotalCalls), c.maxRequestsPerMinute, b.maxRequestsPerMinute, Some(60)])
    && IsLeast(k.expiresAt - seconds, p.sessionTtlSeconds, [c.maxSessionTtlSeconds, b.maxSessionTtlSeconds, Some(300)])
    && IsLeast(k.usageCap, p.usageCap, [Some(b.usageCap), c.maxUsageCap])
    && (if p.bondedActions == [] then k.bondAmount == 0 == k.maxPenalty
        else && IsLeast(k.bondAmount, p.bondAmount, [Some(b.bondCap), c.maxBondAmount])
             && IsLeast(k.maxPenalty, p.maxPenalty, [Some(k.bondAmount), c.maxPenalty]))
  }

  lemma ClampIsExact(r: CompileRequest, p: Proposal, now: int)
    requires Buildable(r.catalog, p)
    ensures LimitsExactly(r, p, Build(r, p, now).constraints, Build(r, p, now).allowedOperations, now / 1_000_000)
  {
    var selections := Selections(r.catalog, p);
    var granted, c, b := Allowed(selections), r.catalog, r.budget;
    var l := Clamp(r, p, selections);
    TotalIsSum(granted);
    hide Cap, Selections, AllKnown, AllSelected, Covered, TotalCalls, IsLeast, Allowed;
    CapIsLeast(p.maxTotalCalls, [Some(TotalCalls(granted)), c.maxTotalCalls, b.maxTotalCalls]);
    CapIsLeast(p.maxRequestsPerMinute, [Some(l.maxTotalCalls), c.maxRequestsPerMinute, b.maxRequestsPerMinute, Some(60)]);
    CapIsLeast(p.sessionTtlSeconds, [c.maxSessionTtlSeconds, b.maxSessionTtlSeconds, Some(300)]);
    CapIsLeast(p.usageCap, [Some(b.usageCap), c.maxUsageCap]);
    CapIsLeast(p.bondAmount, [Some(b.bondCap), c.maxBondAmount]);
    CapIsLeast(p.maxPenalty, [Some(l.bondAmount), c.maxPenalty]);
  }

  // ---------------------------------------------------------------------------------
  // Bonded actions
  // ---------------------------------------------------------------------------------

  /** An operation with that id is proposed or added. */
  ghost predicate Chosen(c: Catalog, p: Proposal, id: string) {
    Proposes(p, id) || ((id == "release-reservation" || id == "expire-reservation") && Adds(c, p, id))
  }

  /** How often an operation may be called: as proposed and offered, or as offered if it is added. */
  ghost predicate CallsOf(c: Catalog, p: Proposal, id: string, calls: nat) {
    exists o | o in c.operations :: o.id == id &&
      if Proposes(p, id) then
        exists i | 0 <= i < |p.operations| :: p.operations[i].operationId == id
          && calls == if p.operations[i].maxCalls < o.maxCalls then p.operations[i].maxCalls else o.maxCalls
      else calls == o.maxCalls
  }

  /** The action as proposed, within its operation, the session and the ceiling. */
  ghost predicate ActionExactly(r: CompileRequest, p: Proposal, k: Constraints, seconds: int, proposed: BondedAction, built: BondedAction) {
    && built.operationId == proposed.operationId
    && (exists calls: nat :: CallsOf(r.catalog, p, proposed.operationId, calls) && built.maxActive == if proposed.maxActive < calls then proposed.maxActive else calls)
    && k.expiresAt >= seconds && IsLeast(built.ttlSeconds, proposed.ttlSeconds, [Some(k.expiresAt - seconds)])
    && IsLeast(built.expiryPenalty, proposed.expiryPenalty, [Some(k.maxPenalty), Some(r.catalog.defaultExpiryPenalty)])
  }

  /** What a selection stands for. */
  ghost predicate SelectionOf(c: Catalog, p: Proposal, x: Selection) {
    x.operation in c.operations && Chosen(c, p, x.operation.id) && CallsOf(c, p, x.operation.id, x.maxCalls)
  }

  lemma ProposedSelections(c: Catalog, p: Proposal)
    requires AllKnown(c, p.operations)
    ensures forall i | 0 <= i < |p.operations| ::
      SelectionOf(c, p, Proposed(c, p.operations)[i]) && Proposed(c, p.operations)[i].operation.id == p.operations[i].operationId
  {
    var selections := Proposed(c, p.operations);
    forall i | 0 <= i < |p.operations| ensures SelectionOf(c, p, selections[i]) && selections[i].operation.id == p.operations[i].operationId {
      assert Known(c, p.operations[i]);
      CapOfOne(p.operations[i].maxCalls, selections[i].operation.maxCalls);
      assert Proposes(p, p.operations[i].operationId);
    }
  }

  lemma LifecycleSelection(c: Catalog, p: Proposal, selections: seq<Selection>, id: string)
    requires (forall i | 0 <= i < |selections| :: SelectionOf(c, p, selections[i])) && (id == "release-reservation" || id == "expire-reservation")
    requires Proposes(p, "reserve-inventory") && (FindSelection(selections, id) == None ==> !Proposes(p, id))
    ensures forall i | 0 <= i < |WithLifecycle(c, selections, id)| :: SelectionOf(c, p, WithLifecycle(c, selections, id)[i])
    ensures Offers(c, id) ==> FindSelection(WithLifecycle(c, selections, id), id).Some?
    ensures selections <= WithLifecycle(c, selections, id)
  {
    FindsOffered(c, id);
    if FindSelection(selections, id) == None && Offers(c, id) {
      var o := FindOperation(c.operations, id).value;
      var x := Selection(o, o.fields, o.maxCalls);
      assert Adds(c, p, id) && SelectionOf(c, p, x);
      var more := selections + [x];
      assert more[|selections|].operation.id == id;
    }
  }

  lemma FindKept(selections: seq<Selection>, more: seq<Selection>, id: string)
    requires selections <= more && FindSelection(selections, id).Some?
    ensures FindSelection(more, id).Some?
  {
    var x := FindSelection(selections, id).value;
    var i :| 0 <= i < |selections| && selections[i] == x;
    assert more[i].operation.id == id;
  }

  /** The selections are exactly the chosen operations. */
  lemma SelectionsChosen(c: Catalog, p: Proposal)
    requires AllKnown(c, p.operations)
    ensures forall i | 0 <= i < |Selections(c, p)| :: SelectionOf(c, p, Selections(c, p)[i])
    ensures forall id :: FindSelection(Selections(c, p), id).Some? <==> Chosen(c, p, id)
  {
    var proposed := Proposed(c, p.operations);
    ProposedSelections(c, p);
    FindsProposed(c, p, "reserve-inventory");
    FindsProposed(c, p, "release-reservation");
    FindsProposed(c, p, "expire-reservation");
    var selections := Selections(c, p);
    hide Proposed, AllKnown, Proposes, Offers, FindSelection, WithLifecycle, SelectionOf;
    if Proposes(p, "reserve-inventory") {
      var one := WithLifecycle(c, proposed, "release-reservation");
      LifecycleSelection(c, p, proposed, "release-reservation");
      if FindSelection(proposed, "expire-reservation").Some? { FindKept(proposed, one, "expire-reservation"); }
      LifecycleSelection(c, p, one, "expire-reservation");
      var two := WithLifecycle(c, one, "expire-reservation");
      if FindSelection(one, "release-reservation").Some? { FindKept(one, two, "release-reservation"); }
    }
    forall id ensures FindSelection(selections, id).Some? <==> Chosen(c, p, id) {
      FindsChosen(c, p, proposed, selections, id);
    }
  }

  lemma FindsChosen(c: Catalog, p: Proposal, proposed: seq<Selection>, selections: seq<Selection>, id: string)
    requires AllKnown(c, p.operations) && proposed == Proposed(c, p.operations) && proposed <= selections
    requires forall i | 0 <= i < |selections| :: SelectionOf(c, p, selections[i])
    requires Adds(c, p, "release-reservation") ==> FindSelection(selections, "release-reservation").Some?
    requires Adds(c, p, "expire-reservation") ==> FindSelection(selections, "expire-reservation").Some?
    ensures FindSelection(selections, id).Some? <==> Chosen(c, p, id)
  {
    FindsProposed(c, p, id);
    if FindSelection(proposed, id).Some? { FindKept(proposed, selections, id); }
    if FindSelection(selections, id).Some? {
      var x := FindSelection(selections, id).value;
      var i :| 0 <= i < |selections| && selections[i] == x;
      assert SelectionOf(c, p, selections[i]);
    }
    hide Proposed, AllKnown, Proposes, Offers, FindSelection;
  }

  lemma ActionExact(r: CompileRequest, p: Proposal, l: Limits, k: Constraints, seconds: int, selections: seq<Selection>, a: BondedAction)
    requires Selected(selections, a) && (forall i | 0 <= i < |selections| :: SelectionOf(r.catalog, p, selections[i]))
    requires k.expiresAt == seconds + l.ttlSeconds && k.maxPenalty == l.maxPenalty
    ensures ActionExactly(r, p, k, seconds, a, ClampAction(r.catalog, l, selections, a))
  {
    ActionSelection(r.catalog, p, selections, a);
    hide Cap, FindSelection, SelectionOf, CallsOf, IsLeast;
    var x := FindSelection(selections, a.operationId).value;
    CapOfOne(a.maxActive, x.maxCalls);
    CapIsLeast(a.ttlSeconds, [Some(l.ttlSeconds)]);
    CapIsLeast(a.expiryPenalty, [Some(l.maxPenalty), Some(r.catalog.defaultExpiryPenalty)]);
  }

  lemma ActionsExact(r: CompileRequest, p: Proposal, now: int)
    requires Buildable(r.catalog, p)
    ensures var policy := Build(r, p, now);
      && |policy.bondedActions| == |p.bondedActions|
      && forall i | 0 <= i < |p.bondedActions| ::
           ActionExactly(r, p, policy.constraints, now / 1_000_000, p.bondedActions[i], policy.bondedActions[i])
  {
    var selections := Selections(r.catalog, p);
    var l, policy := Clamp(r, p, selections), Build(r, p, now);
    SelectionsChosen(r.catalog, p);
    hide Selections, AllKnown, Covered, Clamp, ClampAction, Selected, SelectionOf, ActionExactly;
    forall i | 0 <= i < |p.bondedActions|
      ensures ActionExactly(r, p, policy.constraints, now / 1_000_000, p.bondedActions[i], policy.bondedActions[i])
    {
      ActionExact(r, p, l, policy.constraints, now / 1_000_000, selections, p.bondedActions[i]);
    }
  }

  lemma ActionSelection(c: Catalog, p: Proposal, selections: seq<Selection>, a: BondedAction)
    requires Selected(selections, a) && forall i | 0 <= i < |selections| :: SelectionOf(c, p, selections[i])
    ensures var x := FindSelection(selections, a.operationId).value; CallsOf(c, p, a.operationId, x.maxCalls)
  {
    var x := FindSelection(selections, a.operationId).value;
    var i :| 0 <= i < |selections| && selections[i] == x;
    assert SelectionOf(c, p, selections[i]);
  }

  // ---------------------------------------------------------------------------------
  // The policy
  // ---------------------------------------------------------------------------------

  /** Every built policy, from catalogue, budget and proposal alone: the operations it grants, with
      exactly the proposed fields, its limits, its bonded actions, and whose it is. */
  lemma BuiltPolicyExactly(r: CompileRequest, p: Proposal, now: int)
    requires Buildable(r.catalog, p)
    ensures var policy := Build(r, p, now);
      && policy.merchantId == r.catalog.merchantId && policy.catalogVersion == r.catalog.version
      && policy.agentWallet == r.agentWallet && policy.purpose == p.purpose
      && GrantsExactly(r.catalog, p, policy.allowedOperations)
      && LimitsExactly(r, p, policy.constraints, policy.allowedOperations, now / 1_000_000)
      && |policy.bondedActions| == |p.bondedActions|
      && forall i | 0 <= i < |p.bondedActions| ::
           ActionExactly(r, p, policy.constraints, now / 1_000_000, p.bondedActions[i], policy.bondedActions[i])
  {
    SelectionsGrant(r.catalog, p);
    ClampIsExact(r, p, now);
    ActionsExact(r, p, now);
    hide GrantsExactly, LimitsExactly, ActionExactly, Selections, Clamp, AllSelected, Covered, AllKnown;
  }

  ghost predicate OffersFields(c: Catalog, q: ProposedOperation) {
    exists o | o in c.operations :: o.id == q.operationId && forall f | f in q.fields :: f in o.fields
  }

  ghost predicate OffersBonded(c: Catalog, id: string) {
    exists o | o in c.operations :: o.id == id && o.bonded
  }

  /** Within the catalogue, with an action for every chosen bonded operation and for no other. */
  ghost predicate WithinCatalogue(c: Catalog, p: Proposal) {
    && (forall i | 0 <= i < |p.operations| :: OffersFields(c, p.operations[i]))
    && (forall i | 0 <= i < |p.bondedActions| ::
          Chosen(c, p, p.bondedActions[i].operationId) && OffersBonded(c, p.bondedActions[i].operationId))
    && (forall o | o in c.operations && o.bonded && Chosen(c, p, o.id) :: HasAction(p.bondedActions, o.id))
  }

  lemma OneOperation(c: Catalog, o: Operation)
    requires ValidCatalog(c) && o in c.operations
    ensures FindOperation(c.operations, o.id) == Some(o)
  {
    var i :| 0 <= i < |c.operations| && c.operations[i] == o;
    var found := FindOperation(c.operations, o.id);
    assert c.operations[i].id == o.id;
    var j :| 0 <= j < |c.operations| && c.operations[j] == found.value;
    assert !(i < j) && !(j < i);
  }

  lemma KnownExact(c: Catalog, q: ProposedOperation)
    requires ValidCatalog(c)
    ensures Known(c, q) <==> OffersFields(c, q)
  {
    if o :| o in c.operations && o.id == q.operationId && forall f | f in q.fields :: f in o.fields { OneOperation(c, o); }
    hide ValidCatalog;
  }

  lemma SelectedExact(c: Catalog, p: Proposal, a: BondedAction)
    requires ValidCatalog(c) && AllKnown(c, p.operations)
    ensures Selected(Selections(c, p), a) <==> Chosen(c, p, a.operationId) && OffersBonded(c, a.operationId)
  {
    var selections := Selections(c, p);
    SelectionsChosen(c, p);
    hide Selections, AllKnown, Chosen, CallsOf;
    if FindSelection(selections, a.operationId).Some? {
      var x := FindSelection(selections, a.operationId).value;
      var i :| 0 <= i < |selections| && selections[i] == x;
      assert SelectionOf(c, p, selections[i]);
      OneOperation(c, x.operation);
      forall o | o in c.operations && o.id == a.operationId ensures o == x.operation {
        OneOperation(c, o);
      }
    }
    hide ValidCatalog, FindOperation;
  }

  lemma CoveredExact(c: Catalog, p: Proposal)
    requires ValidCatalog(c) && AllKnown(c, p.operations)
    ensures Covered(Selections(c, p), p.bondedActions) <==>
            forall o | o in c.operations && o.bonded && Chosen(c, p, o.id) :: HasAction(p.bondedActions, o.id)
  {
    var selections := Selections(c, p);
    SelectionsChosen(c, p);
    hide Selections, AllKnown, Chosen, CallsOf, HasAction;
    forall i | 0 <= i < |selections| ensures selections[i].operation in c.operations && Chosen(c, p, selections[i].operation.id) {
      assert SelectionOf(c, p, selections[i]);
    }
    forall o | o in c.operations && Chosen(c, p, o.id) ensures exists i | 0 <= i < |selections| :: selections[i].operation == o {
      var x := FindSelection(selections, o.id).value;
      var i :| 0 <= i < |selections| && selections[i] == x;
      OneOperation(c, o);
      OneOperation(c, selections[i].operation);
    }
    hide ValidCatalog, FindSelection, FindOperation, SelectionOf;
  }

  lemma AllKnownExact(c: Catalog, p: Proposal)
    requires ValidCatalog(c)
    ensures AllKnown(c, p.operations) <==> forall i | 0 <= i < |p.operations| :: OffersFields(c, p.operations[i])
  {
    hide Known, ValidCatalog, OffersFields;
    forall i | 0 <= i < |p.operations| ensures Known(c, p.operations[i]) <==> OffersFields(c, p.operations[i]) {
      KnownExact(c, p.operations[i]);
    }
  }

  lemma AllSelectedExact(c: Catalog, p: Proposal)
    requires ValidCatalog(c) && AllKnown(c, p.operations)
    ensures AllSelected(Selections(c, p), p.bondedActions) <==>
            forall i | 0 <= i < |p.bondedActions| :: Chosen(c, p, p.bondedActions[i].operationId) && OffersBonded(c, p.bondedActions[i].operationId)
  {
    hide Selected, AllKnown, ValidCatalog, Chosen, Selections, OffersBonded;
    forall i | 0 <= i < |p.bondedActions|
      ensures Selected(Selections(c, p), p.bondedActions[i]) <==> Chosen(c, p, p.bondedActions[i].operationId) && OffersBonded(c, p.bondedActions[i].operationId)
    {
      SelectedExact(c, p, p.bondedActions[i]);
    }
  }

  /** A policy is built exactly for proposals within the catalogue. */
  lemma BuildableExactly(c: Catalog, p: Proposal)
    requires ValidCatalog(c)
    ensures Buildable(c, p) <==> WithinCatalogue(c, p)
  {
    hide AllKnown, AllSelected, Covered, ValidCatalog, Chosen, HasAction, Selections, OffersFields, OffersBonded;
    AllKnownExact(c, p);
    if AllKnown(c, p.operations) {
      AllSelectedExact(c, p);
      CoveredExact(c, p);
    }
  }
}
