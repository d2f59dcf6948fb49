/**
 * The policy compiler (services/intent-agent/app/compiler.py): an untrusted proposal is checked
 * against the catalogue, completed with lifecycle operations and clamped into a policy, with a
 * list of the limits that were lowered.
 */
module PolicyCompiler {
  import opened Wrappers
  import opened PolicyModels

  const DEFAULT_MAX_REQUESTS_PER_MINUTE := 60
  const DEFAULT_SESSION_TTL_SECONDS := 300

  datatype BuildError =
    | UnknownOperation(operationId: string)
    | InventedFields(operationId: string)
    | ActionNotSelected(operationId: string)
    | ActionNotBonded(operationId: string)
    | MissingActions

  // ---------------------------------------------------------------------------------
  // What is built
  // ---------------------------------------------------------------------------------

  /** The least of a value and the caps that are present. */
  function Cap(value: nat, caps: seq<Option<nat>>): (built: nat)
    ensures built <= value && forall i | 0 <= i < |caps| && caps[i].Some? :: built <= caps[i].value
    ensures built == value || Some(built) in caps
    decreases |caps|
  {
    if caps == [] then value
    else
      var rest := Cap(value, caps[1..]);
      if caps[0].Some? && caps[0].value < rest then caps[0].value else rest
  }

  function FindOperation(operations: seq<Operation>, id: string): (r: Option<Operation>)
    ensures r.Some? ==> r.value in operations && r.value.id == id
    ensures r == None ==> forall i | 0 <= i < |operations| :: operations[i].id != id
  {
    if operations == [] then None
    else if operations[0].id == id then Some(operations[0])
    else FindOperation(operations[1..], id)
  }

  datatype Selection = Selection(operation: Operation, fields: seq<string>, maxCalls: nat)

  function FindSelection(selections: seq<Selection>, id: string): (r: Option<Selection>)
    ensures r.Some? ==> r.value in selections && r.value.operation.id == id
    ensures r == None ==> forall i | 0 <= i < |selections| :: selections[i].operation.id != id
  {
    if selections == [] then None
    else if selections[0].operation.id == id then Some(selections[0])
    else FindSelection(selections[1..], id)
  }

  predicate Known(c: Catalog, p: ProposedOperation) {
    var operation := FindOperation(c.operations, p.operationId);
    operation.Some? && forall f | f in p.fields :: f in operation.value.fields
  }

  predicate AllKnown(c: Catalog, ps: seq<ProposedOperation>) {
    forall i | 0 <= i < |ps| :: Known(c, ps[i])
  }

  function Proposed(c: Catalog, ps: seq<ProposedOperation>): seq<Selection>
    requires AllKnown(c, ps)
  {
    seq(|ps|, i requires 0 <= i < |ps| =>
      assert Known(c, ps[i]);
      var operation := FindOperation(c.operations, ps[i].operationId).value;
      Selection(operation, ps[i].fields, Cap(ps[i].maxCalls, [Some(operation.maxCalls)])))
  }

  /** A lifecycle operation, as the catalogue has it, unless it is selected or unknown. */
  function WithLifecycle(c: Catalog, selections: seq<Selection>, id: string): seq<Selection> {
    var operation := FindOperation(c.operations, id);
    if FindSelection(selections, id).Some? || operation == None then selections
    else selections + [Selection(operation.value, operation.value.fields, operation.value.maxCalls)]
  }

  function Selections(c: Catalog, p: Proposal): seq<Selection>
    requires AllKnown(c, p.operations)
  {
    var proposed := Proposed(c, p.operations);
    if FindSelection(proposed, "reserve-inventory") == None then proposed
    else WithLifecycle(c, WithLifecycle(c, proposed, "release-reservation"), "expire-reservation")
  }

  function Allowed(selections: seq<Selection>): seq<AllowedOperation> {
    seq(|selections|, i requires 0 <= i < |selections| =>
      AllowedOperation(selections[i].operation.verb, selections[i].operation.pathTemplate, selections[i].fields, selections[i].maxCalls))
  }

  function TotalCalls(operations: seq<AllowedOperation>): nat {
    if operations == [] then 0 else TotalCalls(operations[..|operations| - 1]) + operations[|operations| - 1].maxCalls
  }

  /** The session limits before a policy without bonded actions loses its bond. */
  datatype Limits = Limits(maxTotalCalls: nat, maxRequestsPerMinute: nat, ttlSeconds: nat, usageCap: nat, bondAmount: nat, maxPenalty: nat)

  function Clamp(r: CompileRequest, p: Proposal, selections: seq<Selection>): Limits {
    var c, b := r.catalog, r.budget;
    var maxTotalCalls := Cap(p.maxTotalCalls, [Some(TotalCalls(Allowed(selections))), c.maxTotalCalls, b.maxTotalCalls]);
    var bondAmount := Cap(p.bondAmount, [Some(b.bondCap), c.maxBondAmount]);
    Limits(maxTotalCalls,
           Cap(p.maxRequestsPerMinute, [Some(maxTotalCalls), c.maxRequestsPerMinute, b.maxRequestsPerMinute, Some(DEFAULT_MAX_REQUESTS_PER_MINUTE)]),
           Cap(p.sessionTtlSeconds, [c.maxSessionTtlSeconds, b.maxSessionTtlSeconds, Some(DEFAULT_SESSION_TTL_SECONDS)]),
           Cap(p.usageCap, [Some(b.usageCap), c.maxUsageCap]),
           bondAmount,
           Cap(p.maxPenalty, [Some(bondAmount), c.maxPenalty]))
  }

  predicate Selected(selections: seq<Selection>, a: BondedAction) {
    var selection := FindSelection(selections, a.operationId);
    selection.Some? && selection.value.operation.bonded
  }

  predicate AllSelected(selections: seq<Selection>, actions: seq<BondedAction>) {
    forall i | 0 <= i < |actions| :: Selected(selections, actions[i])
  }

  function ClampAction(c: Catalog, limits: Limits, selections: seq<Selection>, a: BondedAction): BondedAction
    requires Selected(selections, a)
  {
    BondedAction(a.operationId,
                 Cap(a.maxActive, [Some(FindSelection(selections, a.operationId).value.maxCalls)]),
                 Cap(a.ttlSeconds, [Some(limits.ttlSeconds)]),
                 Cap(a.expiryPenalty, [Some(limits.maxPenalty), Some(c.defaultExpiryPenalty)]))
  }

  function ClampActions(c: Catalog, limits: Limits, selections: seq<Selection>, actions: seq<BondedAction>): seq<BondedAction>
    requires AllSelected(selections, actions)
  {
    seq(|actions|, i requires 0 <= i < |actions| => assert Selected(selections, actions[i]); ClampAction(c, limits, selections, actions[i]))
  }

  predicate HasAction(actions: seq<BondedAction>, id: string) {
    exists i | 0 <= i < |actions| :: actions[i].operationId == id
  }

  predicate Covered(selections: seq<Selection>, actions: seq<BondedAction>) {
    forall i | 0 <= i < |selections| && selections[i].operation.bonded :: HasAction(actions, selections[i].operation.id)
  }

  /** The proposal stays within the catalogue, its bonded actions are those of the selected
      bonded operations. */
  predicate Buildable(c: Catalog, p: Proposal) {
    && AllKnown(c, p.operations)
    && AllSelected(Selections(c, p), p.bondedActions)
    && Covered(Selections(c, p), p.bondedActions)
  }

  /** The policy a buildable proposal is turned into; `now` in microseconds. */
  function Build(r: CompileRequest, p: Proposal, now: int): AccessPolicy
    requires Buildable(r.catalog, p)
  {
    var selections := Selections(r.catalog, p);
    var limits := Clamp(r, p, selections);
    AccessPolicy(
      r.catalog.merchantId, r.agentWallet, p.purpose, Allowed(selections),
      Constraints(limits.maxTotalCalls, limits.maxRequestsPerMinute, now / 1_000_000 + limits.ttlSeconds, limits.usageCap,
                  if p.bondedActions == [] then 0 else limits.bondAmount, if p.bondedActions == [] then 0 else limits.maxPenalty),
      ClampActions(r.catalog, limits, selections, p.bondedActions), r.catalog.version)
  }

  /** An error is raised for a reason. */
  predicate Justified(c: Catalog, p: Proposal, e: BuildError) {
    match e
    case UnknownOperation(id) => exists i | 0 <= i < |p.operations| :: p.operations[i].operationId == id && FindOperation(c.operations, id) == None
    case InventedFields(id) =>
      exists i | 0 <= i < |p.operations| :: p.operations[i].operationId == id && FindOperation(c.operations, id).Some? && !Known(c, p.operations[i])
    case ActionNotSelected(id) => AllKnown(c, p.operations) && HasAction(p.bondedActions, id) && FindSelection(Selections(c, p), id) == None
    case ActionNotBonded(id) =>
      AllKnown(c, p.operations) && HasAction(p.bondedActions, id)
      && FindSelection(Selections(c, p), id).Some? && !FindSelection(Selections(c, p), id).value.operation.bonded
    case MissingActions =>
      AllKnown(c, p.operations) && !Covered(Selections(c, p), p.bondedActions)
  }

  // ---------------------------------------------------------------------------------
  // The list of lowered limits
  // ---------------------------------------------------------------------------------

  datatype Limit = Limit(name: string, proposed: nat, built: nat)

  /** `_record_clamp` */
  function RecordClamp(clamped: seq<string>, l: Limit): seq<string> {
    if l.built < l.proposed && l.name !in clamped then clamped + [l.name] else clamped
  }

  ghost predicate Lowered(limits: seq<Limit>, name: string) {
    exists i | 0 <= i < |limits| :: limits[i].name == name && limits[i].built < limits[i].proposed
  }

  /** No duplicates, and a name is listed iff a limit of that name was lowered. */
  ghost predicate Exact(clamped: seq<string>, limits: seq<Limit>) {
    Distinct(clamped) && forall name :: name in clamped <==> Lowered(limits, name)
  }

  lemma LoweredNext(limits: seq<Limit>, l: Limit, name: string)
    ensures Lowered(limits + [l], name) <==> Lowered(limits, name) || (l.name == name && l.built < l.proposed)
  {
    assert (limits + [l])[|limits|] == l;
    if Lowered(limits, name) {
      var i :| 0 <= i < |limits| && limits[i].name == name && limits[i].built < limits[i].proposed;
      assert (limits + [l])[i] == limits[i];
    }
  }

  lemma RecordKeepsExact(clamped: seq<string>, limits: seq<Limit>, l: Limit)
    requires Exact(clamped, limits)
    ensures Exact(RecordClamp(clamped, l), limits + [l])
  {
    forall name ensures name in RecordClamp(clamped, l) <==> Lowered(limits + [l], name) {
      LoweredNext(limits, l, name);
    }
  }

  function OperationLimit(p: ProposedOperation, s: Selection): Limit {
    Limit(p.operationId + ".maxCalls", p.maxCalls, s.maxCalls)
  }

  function OperationLimits(ps: seq<ProposedOperation>, selections: seq<Selection>): seq<Limit>
    requires |ps| <= |selections|
  {
    seq(|ps|, i requires 0 <= i < |ps| => OperationLimit(ps[i], selections[i]))
  }

  function SessionLimits(p: Proposal, l: Limits): seq<Limit> {
    [ Limit("constraints.maxTotalCalls", p.maxTotalCalls, l.maxTotalCalls),
      Limit("constraints.maxRequestsPerMinute", p.maxRequestsPerMinute, l.maxRequestsPerMinute),
      Limit("constraints.sessionTtlSeconds", p.sessionTtlSeconds, l.ttlSeconds),
      Limit("constraints.usageCapAtomic", p.usageCap, l.usageCap),
      Limit("constraints.bondAmountAtomic", p.bondAmount, l.bondAmount),
      Limit("constraints.maxPenaltyAtomic", p.maxPenalty, l.maxPenalty) ]
  }

  function ActionLimits(proposed: BondedAction, built: BondedAction): seq<Limit> {
    [ Limit("bondedActions." + proposed.operationId + ".maxActive", proposed.maxActive, built.maxActive),
      Limit("bondedActions." + proposed.operationId + ".ttlSeconds", proposed.ttlSeconds, built.ttlSeconds),
      Limit("bondedActions." + proposed.operationId + ".expiryPenaltyAtomic", proposed.expiryPenalty, built.expiryPenalty) ]
  }

  function AllActionLimits(proposed: seq<BondedAction>, built: seq<BondedAction>): seq<Limit>
    requires |proposed| == |built|
  {
    if proposed == [] then []
    else
      var n := |proposed| - 1;
      AllActionLimits(proposed[..n], built[..n]) + ActionLimits(proposed[n], built[n])
  }

  /** Every limit of the proposal against the finished policy. */
  function FinalLimits(p: Proposal, policy: AccessPolicy, now: int): seq<Limit>
    requires |p.operations| <= |policy.allowedOperations| && |p.bondedActions| == |policy.bondedActions|
    requires policy.constraints.expiresAt >= now / 1_000_000
  {
    var k := policy.constraints;
    seq(|p.operations|, i requires 0 <= i < |p.operations| =>
      Limit(p.operations[i].operationId + ".maxCalls", p.operations[i].maxCalls, policy.allowedOperations[i].maxCalls))
    + SessionLimits(p, Limits(k.maxTotalCalls, k.maxRequestsPerMinute, k.expiresAt - now / 1_000_000, k.usageCap, k.bondAmount, k.maxPenalty))
    + AllActionLimits(p.bondedActions, policy.bondedActions)
  }

  // ---------------------------------------------------------------------------------
  // The compiler's steps
  // ---------------------------------------------------------------------------------

  /** `_clamp_int` and `_clamp_atomic` */
  method ClampLimit(value: nat, caps: seq<Option<nat>>, clamped: seq<string>, name: string) returns (built: nat, recorded: seq<string>)
    ensures built == Cap(value, caps) && recorded == RecordClamp(clamped, Limit(name, value, built))
  {
    built := Cap(value, caps);
    recorded := if built < value && name !in clamped then clamped + [name] else clamped;
  }

  lemma NothingLowered()
    ensures Exact([], [])
  {}

  /** The proposed operations against the catalogue. */
  method SelectOperations(c: Catalog, ps: seq<ProposedOperation>) returns (r: Result<(seq<Selection>, seq<string>), BuildError>)
    ensures r.Ok? <==> AllKnown(c, ps)
    ensures r.Ok? ==> r.value.0 == Proposed(c, ps) && Exact(r.value.1, OperationLimits(ps, r.value.0))
    ensures r.Err? ==> exists i | 0 <= i < |ps| ::
      !Known(c, ps[i])
      && r.error == if FindOperation(c.operations, ps[i].operationId) == None then UnknownOperation(ps[i].operationId) else InventedFields(ps[i].operationId)
  {
    hide Cap, Exact, RecordClamp;
    var selections: seq<Selection> := [];
    var clamped: seq<string> := [];
    NothingLowered();
    assert OperationLimits(ps[..0], selections) == [];
    for i := 0 to |ps|
      invariant AllKnown(c, ps[..i]) && selections == Proposed(c, ps[..i])
      invariant Exact(clamped, OperationLimits(ps[..i], selections))
    {
      var operation := FindOperation(c.operations, ps[i].operationId);
      if operation == None {
        return Err(UnknownOperation(ps[i].operationId));
      }
      if !(forall f | f in ps[i].fields :: f in operation.value.fields) {
        return Err(InventedFields(ps[i].operationId));
      }
      assert Known(c, ps[i]);
      ghost var before := OperationLimits(ps[..i], selections);
      var maxCalls, recorded := ClampLimit(ps[i].maxCalls, [Some(operation.value.maxCalls)], clamped, ps[i].operationId + ".maxCalls");
      RecordKeepsExact(clamped, before, Limit(ps[i].operationId + ".maxCalls", ps[i].maxCalls, maxCalls));
      clamped := recorded;
      selections := selections + [Selection(operation.value, ps[i].fields, maxCalls)];
      assert selections == Proposed(c, ps[..i + 1]);
      assert OperationLimits(ps[..i + 1], selections) == before + [OperationLimit(ps[i], selections[i])];
    }
    assert ps[..|ps|] == ps;
    r := Ok((selections, clamped));
  }

  /** Reservations need their release and expiry operations. */
  method AddLifecycle(c: Catalog, proposed: seq<Selection>) returns (selections: seq<Selection>)
    ensures selections ==
      if FindSelection(proposed, "reserve-inventory") == None then proposed
      else WithLifecycle(c, WithLifecycle(c, proposed, "release-reservation"), "expire-reservation")
  {
    selections := proposed;
    if FindSelection(proposed, "reserve-inventory").Some? {
      var lifecycle := ["release-reservation", "expire-reservation"];
      for i := 0 to 2
        invariant selections == if i == 0 then proposed
                                else if i == 1 then WithLifecycle(c, proposed, lifecycle[0])
                                else WithLifecycle(c, WithLifecycle(c, proposed, lifecycle[0]), lifecycle[1])
      {
        var operation := FindOperation(c.operations, lifecycle[i]);
        if FindSelection(selections, lifecycle[i]) == None && operation.Some? {
          selections := selections + [Selection(operation.value, operation.value.fields, operation.value.maxCalls)];
        }
      }
    }
  }

  method SumCalls(operations: seq<AllowedOperation>) returns (sum: nat)
    ensures sum == TotalCalls(operations)
  {
    sum := 0;
    for i := 0 to |operations|
      invariant sum == TotalCalls(operations[..i])
    {
      assert operations[..i + 1][..i] == operations[..i];
      sum := sum + operations[i].maxCalls;
    }
    assert operations[..|operations|] == operations;
  }

  /** The session limits, in the order in which they depend on each other. */
  method ClampSession(r: CompileRequest, p: Proposal, selections: seq<Selection>, clamped: seq<string>, ghost before: seq<Limit>)
    returns (limits: Limits, recorded: seq<string>)
    requires Exact(clamped, before)
    ensures limits == Clamp(r, p, selections) && Exact(recorded, before + SessionLimits(p, limits))
  {
    hide Cap, Exact, RecordClamp, Allowed, TotalCalls;
    var c, b := r.catalog, r.budget;
    var sum := SumCalls(Allowed(selections));
    var maxTotalCalls, c1 := ClampLimit(p.maxTotalCalls, [Some(sum), c.maxTotalCalls, b.maxTotalCalls], clamped, "constraints.maxTotalCalls");
    var maxRequests, c2 := ClampLimit(p.maxRequestsPerMinute,
      [Some(maxTotalCalls), c.maxRequestsPerMinute, b.maxRequestsPerMinute, Some(DEFAULT_MAX_REQUESTS_PER_MINUTE)], c1, "constraints.maxRequestsPerMinute");
    var ttl, c3 := ClampLimit(p.sessionTtlSeconds, [c.maxSessionTtlSeconds, b.maxSessionTtlSeconds, Some(DEFAULT_SESSION_TTL_SECONDS)],
      c2, "constraints.sessionTtlSeconds");
    var usageCap, c4 := ClampLimit(p.usageCap, [Some(b.usageCap), c.maxUsageCap], c3, "constraints.usageCapAtomic");
    var bondAmount, c5 := ClampLimit(p.bondAmount, [Some(b.bondCap), c.maxBondAmount], c4, "constraints.bondAmountAtomic");
    var maxPenalty, c6 := ClampLimit(p.maxPenalty, [Some(bondAmount), c.maxPenalty], c5, "constraints.maxPenaltyAtomic");
    limits, recorded := Limits(maxTotalCalls, maxRequests, ttl, usageCap, bondAmount, maxPenalty), c6;
    RecordSixExact(clamped, before, SessionLimits(p, limits));
  }

  lemma RecordSixExact(clamped: seq<string>, before: seq<Limit>, ls: seq<Limit>)
    requires Exact(clamped, before) && |ls| == 6
    ensures Exact(RecordClamp(RecordClamp(RecordClamp(RecordClamp(RecordClamp(RecordClamp(clamped, ls[0]), ls[1]), ls[2]), ls[3]), ls[4]), ls[5]), before + ls)
  {
    hide Exact;
    var c3 := RecordClamp(RecordClamp(RecordClamp(clamped, ls[0]), ls[1]), ls[2]);
    RecordThreeExact(clamped, before, ls[..3]);
    RecordThreeExact(c3, before + ls[..3], ls[3..]);
    assert before + ls[..3] + ls[3..] == before + ls;
  }

  lemma RecordThreeExact(clamped: seq<string>, before: seq<Limit>, ls: seq<Limit>)
    requires Exact(clamped, before) && |ls| == 3
    ensures Exact(RecordClamp(RecordClamp(RecordClamp(clamped, ls[0]), ls[1]), ls[2]), before + ls)
  {
    hide Exact, RecordClamp;
    var c1 := RecordClamp(clamped, ls[0]);
    var c2 := RecordClamp(c1, ls[1]);
    RecordKeepsExact(clamped, before, ls[0]);
    RecordKeepsExact(c1, before + [ls[0]], ls[1]);
    RecordKeepsExact(c2, before + [ls[0]] + [ls[1]], ls[2]);
    assert before + [ls[0]] + [ls[1]] + [ls[2]] == before + ls;
  }

  /** The bonded actions of selected bonded operations. */
  method ClampBondedActions(c: Catalog, limits: Limits, selections: seq<Selection>, actions: seq<BondedAction>, clamped: seq<string>, ghost before: seq<Limit>)
    returns (r: Result<(seq<BondedAction>, seq<string>), BuildError>)
    requires Exact(clamped, before)
    ensures r.Ok? <==> AllSelected(selections, actions)
    ensures r.Ok? ==>
      && r.value.0 == ClampActions(c, limits, selections, actions)
      && Exact(r.value.1, before + AllActionLimits(actions, r.value.0))
    ensures r.Err? ==> exists i | 0 <= i < |actions| ::
      && !Selected(selections, actions[i])
      && r.error == if FindSelection(selections, actions[i].operationId) == None then ActionNotSelected(actions[i].operationId) else ActionNotBonded(actions[i].operationId)
  {
    hide Exact, RecordClamp, FindSelection, Cap, AllActionLimits;
    var built: seq<BondedAction> := [];
    var recorded := clamped;
    NoActionLimits(before);
    for i := 0 to |actions|
      invariant AllSelected(selections, actions[..i]) && built == ClampActions(c, limits, selections, actions[..i])
      invariant Exact(recorded, before + AllActionLimits(actions[..i], built))
    {
      var a := actions[i];
      var selection := FindSelection(selections, a.operationId);
      if selection == None { return Err(ActionNotSelected(a.operationId)); }
      if !selection.value.operation.bonded { return Err(ActionNotBonded(a.operationId)); }
      assert Selected(selections, a);
      var prefix := "bondedActions." + a.operationId;
      ghost var soFar := before + AllActionLimits(actions[..i], built);
      var maxActive, c1 := ClampLimit(a.maxActive, [Some(selection.value.maxCalls)], recorded, prefix + ".maxActive");
      var ttl, c2 := ClampLimit(a.ttlSeconds, [Some(limits.ttlSeconds)], c1, prefix + ".ttlSeconds");
      var penalty, c3 := ClampLimit(a.expiryPenalty, [Some(limits.maxPenalty), Some(c.defaultExpiryPenalty)], c2, prefix + ".expiryPenaltyAtomic");
      var action := BondedAction(a.operationId, maxActive, ttl, penalty);
      RecordThreeExact(recorded, soFar, ActionLimits(a, action));
      NextActionLimits(before, actions, built, i, action);
      recorded, built := c3, built + [action];
      assert built == ClampActions(c, limits, selections, actions[..i + 1]);
    }
    assert actions[..|actions|] == actions;
    r := Ok((built, recorded));
  }

  lemma NoActionLimits(before: seq<Limit>)
    ensures before + AllActionLimits([], []) == before
  {}

  lemma NextActionLimits(before: seq<Limit>, actions: seq<BondedAction>, built: seq<BondedAction>, i: nat, action: BondedAction)
    requires i < |actions| && |built| == i
    ensures before + AllActionLimits(actions[..i + 1], built + [action]) == before + AllActionLimits(actions[..i], built) + ActionLimits(actions[i], action)
  {
    assert actions[..i + 1][..i] == actions[..i] && (built + [action])[..i] == built;
  }

  lemma BondedIdsCovered(c: Catalog, limits: Limits, selections: seq<Selection>, actions: seq<BondedAction>)
    requires AllSelected(selections, actions)
    ensures var selected := set x | x in selections && x.operation.bonded :: x.operation.id;
      var proposed := set a | a in ClampActions(c, limits, selections, actions) :: a.operationId;
      selected == proposed <==> Covered(selections, actions)
  {
    var built := ClampActions(c, limits, selections, actions);
    var selected := set x | x in selections && x.operation.bonded :: x.operation.id;
    var proposed := set a | a in built :: a.operationId;
    hide Cap;
    forall id ensures id in proposed <==> HasAction(actions, id) {
      if HasAction(actions, id) {
        var i :| 0 <= i < |actions| && actions[i].operationId == id;
        assert built[i] in built && built[i].operationId == id;
      }
    }
    forall id | id in proposed ensures id in selected {
      var i :| 0 <= i < |actions| && actions[i].operationId == id;
      assert Selected(selections, actions[i]);
      var x := FindSelection(selections, id).value;
      assert x in selections && x.operation.bonded && x.operation.id == id;
    }
    if Covered(selections, actions) {
      forall id | id in selected ensures id in proposed {
        var x :| x in selections && x.operation.bonded && x.operation.id == id;
        var i :| 0 <= i < |selections| && selections[i] == x;
        assert HasAction(actions, selections[i].operation.id);
      }
    } else {
      var i :| 0 <= i < |selections| && selections[i].operation.bonded && !HasAction(actions, selections[i].operation.id);
      assert selections[i] in selections;
      assert selections[i].operation.id in selected && selections[i].operation.id !in proposed;
    }
  }

  lemma {:induction false} LoweredConcat(a: seq<Limit>, b: seq<Limit>, name: string)
    ensures Lowered(a + b, name) <==> Lowered(a, name) || Lowered(b, name)
  {
    if Lowered(a, name) {
      var i :| 0 <= i < |a| && a[i].name == name && a[i].built < a[i].proposed;
      assert (a + b)[i] == a[i];
    }
    if Lowered(b, name) {
      var i :| 0 <= i < |b| && b[i].name == name && b[i].built < b[i].proposed;
      assert (a + b)[|a| + i] == b[i];
    }
  }

  lemma SessionLowered(p: Proposal, l: Limits, name: string)
    ensures Lowered(SessionLimits(p, l), name) <==>
            || (name == "constraints.maxTotalCalls" && l.maxTotalCalls < p.maxTotalCalls)
            || (name == "constraints.maxRequestsPerMinute" && l.maxRequestsPerMinute < p.maxRequestsPerMinute)
            || (name == "constraints.sessionTtlSeconds" && l.ttlSeconds < p.sessionTtlSeconds)
            || (name == "constraints.usageCapAtomic" && l.usageCap < p.usageCap)
            || (name == "constraints.bondAmountAtomic" && l.bondAmount < p.bondAmount)
            || (name == "constraints.maxPenaltyAtomic" && l.maxPenalty < p.maxPenalty)
  {
    var ls := SessionLimits(p, l);
    assert ls[0].name == "constraints.maxTotalCalls" && ls[1].name == "constraints.maxRequestsPerMinute" && ls[2].name == "constraints.sessionTtlSeconds";
    assert ls[3].name == "constraints.usageCapAtomic" && ls[4].name == "constraints.bondAmountAtomic" && ls[5].name == "constraints.maxPenaltyAtomic";
  }

  function Zeroed(l: Limits): Limits {
    l.(bondAmount := 0, maxPenalty := 0)
  }

  function ZeroingLimits(l: Limits): seq<Limit> {
    [Limit("constraints.bondAmountAtomic", l.bondAmount, 0), Limit("constraints.maxPenaltyAtomic", l.maxPenalty, 0)]
  }

  lemma ZeroingLowered(l: Limits, name: string)
    ensures Lowered(ZeroingLimits(l), name) <==>
            (name == "constraints.bondAmountAtomic" && 0 < l.bondAmount) || (name == "constraints.maxPenaltyAtomic" && 0 < l.maxPenalty)
  {
    var ls := ZeroingLimits(l);
    assert ls[0].name == "constraints.bondAmountAtomic" && ls[1].name == "constraints.maxPenaltyAtomic";
  }

  /** Recording the zeroing on top of an earlier clamp lists each limit as if it had been
      zeroed at once. */
  lemma ZeroingIsExact(clamped: seq<string>, ops: seq<Limit>, p: Proposal, l: Limits)
    requires Exact(clamped, ops + SessionLimits(p, l) + ZeroingLimits(l))
    requires l.bondAmount <= p.bondAmount && l.maxPenalty <= p.maxPenalty
    ensures Exact(clamped, ops + SessionLimits(p, Zeroed(l)))
  {
    hide SessionLimits, ZeroingLimits;
    forall name ensures name in clamped <==> Lowered(ops + SessionLimits(p, Zeroed(l)), name) {
      LoweredConcat(ops, SessionLimits(p, Zeroed(l)), name);
      LoweredConcat(ops + SessionLimits(p, l), ZeroingLimits(l), name);
      LoweredConcat(ops, SessionLimits(p, l), name);
      SessionLowered(p, l, name);
      SessionLowered(p, Zeroed(l), name);
      ZeroingLowered(l, name);
    }
  }

  lemma FinalIsConcat(p: Proposal, policy: AccessPolicy, now: int, selections: seq<Selection>, l: Limits)
    requires |p.operations| <= |selections| && policy.allowedOperations == Allowed(selections) && |p.bondedActions| == |policy.bondedActions|
    requires policy.constraints ==
      Constraints(l.maxTotalCalls, l.maxRequestsPerMinute, now / 1_000_000 + l.ttlSeconds, l.usageCap, l.bondAmount, l.maxPenalty)
    ensures FinalLimits(p, policy, now) ==
      OperationLimits(p.operations, selections) + SessionLimits(p, l) + AllActionLimits(p.bondedActions, policy.bondedActions)
  {
    hide SessionLimits, AllActionLimits;
    assert seq(|p.operations|, i requires 0 <= i < |p.operations| =>
        Limit(p.operations[i].operationId + ".maxCalls", p.operations[i].maxCalls, policy.allowedOperations[i].maxCalls))
      == OperationLimits(p.operations, selections);
  }

  /** Lifecycle operations come after the proposed ones. */
  lemma ProposedFirst(c: Catalog, p: Proposal)
    requires AllKnown(c, p.operations)
    ensures Proposed(c, p.operations) <= Selections(c, p)
    ensures OperationLimits(p.operations, Selections(c, p)) == OperationLimits(p.operations, Proposed(c, p.operations))
  {
    hide FindSelection, FindOperation, Cap;
  }

  /** The lists the compiler has recorded are the limits of the finished policy. */
  lemma LimitsAreFinal(r: CompileRequest, p: Proposal, now: int)
    requires Buildable(r.catalog, p)
    ensures var policy := Build(r, p, now);
      var selections := Selections(r.catalog, p);
      var limits := Clamp(r, p, selections);
      && |p.operations| <= |selections| && |policy.bondedActions| == |p.bondedActions|
      && policy.constraints.expiresAt >= now / 1_000_000
      && FinalLimits(p, policy, now) ==
         OperationLimits(p.operations, selections) + SessionLimits(p, if p.bondedActions == [] then Zeroed(limits) else limits)
         + AllActionLimits(p.bondedActions, policy.bondedActions)
      && OperationLimits(p.operations, selections) == OperationLimits(p.operations, Proposed(r.catalog, p.operations))
  {
    hide FindSelection, FindOperation, Cap, AllActionLimits, SessionLimits, OperationLimits, FinalLimits, Clamp, Selections, Covered;
    ProposedFirst(r.catalog, p);
    var limits := Clamp(r, p, Selections(r.catalog, p));
    FinalIsConcat(p, Build(r, p, now), now, Selections(r.catalog, p), if p.bondedActions == [] then Zeroed(limits) else limits);
  }

  /** The rest, once the proposed operations are known: everything from the lifecycle on. */
  method BuildFrom(r: CompileRequest, p: Proposal, now: int, proposed: seq<Selection>, recorded: seq<string>)
    returns (result: Result<(AccessPolicy, seq<string>), BuildError>)
    requires AllKnown(r.catalog, p.operations) && proposed == Proposed(r.catalog, p.operations)
    requires Exact(recorded, OperationLimits(p.operations, proposed))
    ensures result.Ok? <==> Buildable(r.catalog, p)
    ensures result.Ok? ==> result.value.0 == Build(r, p, now)
    ensures result.Ok? ==>
      && |p.operations| <= |result.value.0.allowedOperations| && |p.bondedActions| == |result.value.0.bondedActions|
      && result.value.0.constraints.expiresAt >= now / 1_000_000
      && Exact(result.value.1, FinalLimits(p, result.value.0, now))
    ensures result.Err? ==> Justified(r.catalog, p, result.error)
  {
    hide Exact, RecordClamp, FindSelection, FindOperation, Cap, AllActionLimits, SessionLimits, Clamp, WithLifecycle, ClampActions, FinalLimits, Known;
    var selections := AddLifecycle(r.catalog, proposed);
    ghost var ops := OperationLimits(p.operations, proposed);
    var limits, clamped := ClampSession(r, p, selections, recorded, ops);
    var actions := ClampBondedActions(r.catalog, limits, selections, p.bondedActions, clamped, ops + SessionLimits(p, limits));
    if actions.Err? { return Err(actions.error); }
    BondedIdsCovered(r.catalog, limits, selections, p.bondedActions);
    if (set x | x in selections && x.operation.bonded :: x.operation.id) != (set a | a in actions.value.0 :: a.operationId) {
      return Err(MissingActions);
    }
    LimitsAreFinal(r, p, now);
    clamped := actions.value.1;
    var bondAmount, maxPenalty := limits.bondAmount, limits.maxPenalty;
    if actions.value.0 == [] {
      clamped := RecordClamp(clamped, Limit("constraints.bondAmountAtomic", bondAmount, 0));
      clamped := RecordClamp(clamped, Limit("constraints.maxPenaltyAtomic", maxPenalty, 0));
      ZeroedList(clamped, actions.value.1, ops, p, limits, r, selections);
      bondAmount, maxPenalty := 0, 0;
    }
    var policy := AccessPolicy(
      r.catalog.merchantId, r.agentWallet, p.purpose, Allowed(selections),
      Constraints(limits.maxTotalCalls, limits.maxRequestsPerMinute, now / 1_000_000 + limits.ttlSeconds, limits.usageCap, bondAmount, maxPenalty),
      actions.value.0, r.catalog.version);
    result := Ok((policy, clamped));
  }

  /** `_validate_and_build_policy` */
  method ValidateAndBuildPolicy(r: CompileRequest, p: Proposal, now: int) returns (result: Result<(AccessPolicy, seq<string>), BuildError>)
    ensures result.Ok? <==> Buildable(r.catalog, p)
    ensures result.Ok? ==> result.value.0 == Build(r, p, now)
    ensures result.Ok? ==>
      && |p.operations| <= |result.value.0.allowedOperations| && |p.bondedActions| == |result.value.0.bondedActions|
      && result.value.0.constraints.expiresAt >= now / 1_000_000
      && Exact(result.value.1, FinalLimits(p, result.value.0, now))
    ensures result.Err? ==> Justified(r.catalog, p, result.error)
  {
    hide Exact, FindOperation, FinalLimits, Build, Selections, OperationLimits;
    var selected := SelectOperations(r.catalog, p.operations);
    if selected.Err? { return Err(selected.error); }
    result := BuildFrom(r, p, now, selected.value.0, selected.value.1);
  }

  lemma ZeroedList(zeroed: seq<string>, clamped: seq<string>, ops: seq<Limit>, p: Proposal, limits: Limits, r: CompileRequest, selections: seq<Selection>)
    requires Exact(clamped, ops + SessionLimits(p, limits) + AllActionLimits([], [])) && limits == Clamp(r, p, selections)
    requires zeroed == RecordClamp(RecordClamp(clamped, ZeroingLimits(limits)[0]), ZeroingLimits(limits)[1])
    ensures Exact(zeroed, ops + SessionLimits(p, Zeroed(limits)) + AllActionLimits([], []))
  {
    hide Exact, SessionLimits, RecordClamp;
    var before := ops + SessionLimits(p, limits);
    NoActionLimits(before);
    NoActionLimits(ops + SessionLimits(p, Zeroed(limits)));
    var ls := ZeroingLimits(limits);
    RecordKeepsExact(clamped, before, ls[0]);
    RecordKeepsExact(RecordClamp(clamped, ls[0]), before + [ls[0]], ls[1]);
    assert before + [ls[0]] + [ls[1]] == before + ls;
    ZeroingIsExact(zeroed, ops, p, limits);
  }

  // ---------------------------------------------------------------------------------
  // No two limits share a name
  // ---------------------------------------------------------------------------------

  ghost predicate NamesDistinct(limits: seq<Limit>) {
    forall i, j | 0 <= i < j < |limits| :: limits[i].name != limits[j].name
  }

  ghost predicate NamesApart(a: seq<Limit>, b: seq<Limit>) {
    forall i, j | 0 <= i < |a| && 0 <= j < |b| :: a[i].name != b[j].name
  }

  lemma ConcatDistinct(a: seq<Limit>, b: seq<Limit>)
    requires NamesDistinct(a) && NamesDistinct(b) && NamesApart(a, b)
    ensures NamesDistinct(a + b)
  {
    forall i, j | 0 <= i < j < |a + b| ensures (a + b)[i].name != (a + b)[j].name {
      if i < |a| && j >= |a| { assert a[i].name != b[j - |a|].name; }
    }
  }

  /** The kind of limit a name is for can be told from its end. */
  lemma SuffixTells(a: string, s: string, b: string, t: string, k: nat)
    requires 1 <= k <= |s| && k <= |t| && s[|s| - k] != t[|t| - k]
    ensures a + s != b + t
  {
    assert (a + s)[|a + s| - k] == s[|s| - k] && (b + t)[|b + t| - k] == t[|t| - k];
  }

  lemma SameSuffix(a: string, b: string, s: string)
    requires a + s == b + s
    ensures a == b
  {
    assert a == (a + s)[..|a|] && b == (b + s)[..|b|];
  }

  lemma NoPrefix(t: string)
    ensures "" + t == t
  {}

  lemma OperationVersusSession(id: string, p: Proposal, l: Limits)
    ensures forall j | 0 <= j < 6 :: id + ".maxCalls" != SessionLimits(p, l)[j].name
  {
    forall j | 0 <= j < 6 ensures id + ".maxCalls" != SessionLimits(p, l)[j].name {
      var name := SessionLimits(p, l)[j].name;
      NoPrefix(name);
      SuffixTells(id, ".maxCalls", "", name, if j == 0 then 6 else if j == 2 then 2 else 1);
    }
  }

  lemma OperationVersusAction(id: string, a: BondedAction, b: BondedAction)
    ensures forall j | 0 <= j < 3 :: id + ".maxCalls" != ActionLimits(a, b)[j].name
  {
    var prefix := "bondedActions." + a.operationId;
    SuffixTells(id, ".maxCalls", prefix, ".maxActive", 1);
    SuffixTells(id, ".maxCalls", prefix, ".ttlSeconds", 2);
    SuffixTells(id, ".maxCalls", prefix, ".expiryPenaltyAtomic", 1);
  }

  lemma SessionVersusAction(p: Proposal, l: Limits, a: BondedAction, b: BondedAction)
    ensures forall i, j | 0 <= i < 6 && 0 <= j < 3 :: SessionLimits(p, l)[i].name != ActionLimits(a, b)[j].name
  {
    forall i, j | 0 <= i < 6 && 0 <= j < 3 ensures SessionLimits(p, l)[i].name != ActionLimits(a, b)[j].name {
      assert SessionLimits(p, l)[i].name[0] == 'c';
      assert ActionLimits(a, b)[j].name[0] == 'b';
    }
  }

  lemma SessionNamesDistinct(p: Proposal, l: Limits)
    ensures NamesDistinct(SessionLimits(p, l))
  {
    var ls := SessionLimits(p, l);
    assert |ls[0].name| == 25 && |ls[1].name| == 32 && |ls[2].name| == 29;
    assert |ls[3].name| == 26 && |ls[4].name| == 28 && |ls[5].name| == 28;
    assert ls[4].name[12] == 'b' && ls[5].name[12] == 'm';
  }

  lemma ActionVersusAction(a: BondedAction, b: BondedAction, c: BondedAction, d: BondedAction)
    requires a.operationId != c.operationId
    ensures NamesApart(ActionLimits(a, b), ActionLimits(c, d))
  {
    forall i, j | 0 <= i < 3 && 0 <= j < 3 ensures ActionLimits(a, b)[i].name != ActionLimits(c, d)[j].name {
      var x, y := "bondedActions." + a.operationId, "bondedActions." + c.operationId;
      var s, t := ActionSuffix(i), ActionSuffix(j);
      assert x[14..] == a.operationId && y[14..] == c.operationId;
      if i == j {
        if x + s == y + s { SameSuffix(x, y, s); }
      } else {
        SuffixTells(x, s, y, t, 1);
      }
    }
  }

  function ActionSuffix(i: nat): string {
    if i == 0 then ".maxActive" else if i == 1 then ".ttlSeconds" else ".expiryPenaltyAtomic"
  }

  lemma ActionNamesDistinct(a: BondedAction, b: BondedAction)
    ensures NamesDistinct(ActionLimits(a, b))
  {
    var x := "bondedActions." + a.operationId;
    SuffixTells(x, ".maxActive", x, ".ttlSeconds", 1);
    SuffixTells(x, ".maxActive", x, ".expiryPenaltyAtomic", 1);
    SuffixTells(x, ".ttlSeconds", x, ".expiryPenaltyAtomic", 1);
  }

  lemma {:induction false} ActionLimitsApart(ls: seq<Limit>, proposed: seq<BondedAction>, built: seq<BondedAction>)
    requires |proposed| == |built|
    requires forall i | 0 <= i < |proposed| :: NamesApart(ls, ActionLimits(proposed[i], built[i]))
    ensures NamesApart(ls, AllActionLimits(proposed, built))
  {
    hide ActionLimits;
    if proposed != [] {
      var n := |proposed| - 1;
      assert forall i | 0 <= i < n :: proposed[..n][i] == proposed[i] && built[..n][i] == built[i];
      ActionLimitsApart(ls, proposed[..n], built[..n]);
      var front: seq<Limit>, last: seq<Limit> := AllActionLimits(proposed[..n], built[..n]), ActionLimits(proposed[n], built[n]);
      forall i, j | 0 <= i < |ls| && 0 <= j < |front + last| ensures ls[i].name != (front + last)[j].name {
        if j < |front| { assert ls[i].name != front[j].name; } else { assert ls[i].name != last[j - |front|].name; }
      }
    }
  }

  lemma ApartSymmetric(a: seq<Limit>, b: seq<Limit>)
    requires NamesApart(a, b)
    ensures NamesApart(b, a)
  {}

  lemma {:induction false} AllActionNamesDistinct(proposed: seq<BondedAction>, built: seq<BondedAction>)
    requires |proposed| == |built|
    requires forall i, j | 0 <= i < j < |proposed| :: proposed[i].operationId != proposed[j].operationId
    ensures NamesDistinct(AllActionLimits(proposed, built))
  {
    hide ActionLimits, NamesDistinct, NamesApart;
    if proposed == [] {
      assert NamesDistinct([]) by { NothingDistinct(); }
    } else {
      var n := |proposed| - 1;
      AllActionNamesDistinct(proposed[..n], built[..n]);
      ActionNamesDistinct(proposed[n], built[n]);
      forall i | 0 <= i < n ensures NamesApart(ActionLimits(proposed[n], built[n]), ActionLimits(proposed[..n][i], built[..n][i])) {
        ActionVersusAction(proposed[n], built[n], proposed[i], built[i]);
      }
      ActionLimitsApart(ActionLimits(proposed[n], built[n]), proposed[..n], built[..n]);
      ApartSymmetric(ActionLimits(proposed[n], built[n]), AllActionLimits(proposed[..n], built[..n]));
      ConcatDistinct(AllActionLimits(proposed[..n], built[..n]), ActionLimits(proposed[n], built[n]));
    }
  }

  lemma NothingDistinct()
    ensures NamesDistinct([])
  {}

  lemma OperationNamesDistinct(ps: seq<ProposedOperation>, selections: seq<Selection>)
    requires |ps| <= |selections|
    requires forall i, j | 0 <= i < j < |ps| :: ps[i].operationId != ps[j].operationId
    ensures NamesDistinct(OperationLimits(ps, selections))
  {
    var ls := OperationLimits(ps, selections);
    forall i, j | 0 <= i < j < |ls| ensures ls[i].name != ls[j].name {
      if ls[i].name == ls[j].name { SameSuffix(ps[i].operationId, ps[j].operationId, ".maxCalls"); }
    }
  }

  lemma OperationsApartFromSession(ps: seq<ProposedOperation>, selections: seq<Selection>, p: Proposal, l: Limits)
    requires |ps| <= |selections|
    ensures NamesApart(OperationLimits(ps, selections), SessionLimits(p, l))
  {
    forall i | 0 <= i < |ps| ensures forall j | 0 <= j < 6 :: ps[i].operationId + ".maxCalls" != SessionLimits(p, l)[j].name {
      OperationVersusSession(ps[i].operationId, p, l);
    }
  }

  lemma OperationsApartFromAction(ps: seq<ProposedOperation>, selections: seq<Selection>, a: BondedAction, b: BondedAction)
    requires |ps| <= |selections|
    ensures NamesApart(OperationLimits(ps, selections), ActionLimits(a, b))
  {
    forall i | 0 <= i < |ps| ensures forall j | 0 <= j < 3 :: ps[i].operationId + ".maxCalls" != ActionLimits(a, b)[j].name {
      OperationVersusAction(ps[i].operationId, a, b);
    }
  }

  lemma ApartConcat(a: seq<Limit>, b: seq<Limit>, c: seq<Limit>)
    requires NamesApart(a, c) && NamesApart(b, c)
    ensures NamesApart(a + b, c)
  {
    forall i, j | 0 <= i < |a + b| && 0 <= j < |c| ensures (a + b)[i].name != c[j].name {
      if i >= |a| { assert b[i - |a|].name != c[j].name; }
    }
  }

  lemma FinalNamesDistinct(r: CompileRequest, p: Proposal, now: int)
    requires ValidProposal(p) && Buildable(r.catalog, p)
    ensures |p.operations| <= |Build(r, p, now).allowedOperations| && |p.bondedActions| == |Build(r, p, now).bondedActions|
    ensures Build(r, p, now).constraints.expiresAt >= now / 1_000_000
    ensures NamesDistinct(FinalLimits(p, Build(r, p, now), now))
  {
    hide NamesDistinct, NamesApart, SessionLimits, ActionLimits, AllActionLimits, OperationLimits, FinalLimits, Build, Clamp, Selections;
    LimitsAreFinal(r, p, now);
    var selections := Selections(r.catalog, p);
    var limits := if p.bondedActions == [] then Zeroed(Clamp(r, p, selections)) else Clamp(r, p, selections);
    var built := Build(r, p, now).bondedActions;
    assert |Build(r, p, now).allowedOperations| == |selections| by { BuiltSizes(r, p, now); }
    var a, b, c := OperationLimits(p.operations, selections), SessionLimits(p, limits), AllActionLimits(p.bondedActions, built);
    OperationNamesDistinct(p.operations, selections);
    SessionNamesDistinct(p, limits);
    AllActionNamesDistinct(p.bondedActions, built);
    OperationsApartFromSession(p.operations, selections, p, limits);
    ConcatDistinct(a, b);
    forall i | 0 <= i < |p.bondedActions| ensures NamesApart(a, ActionLimits(p.bondedActions[i], built[i])) && NamesApart(b, ActionLimits(p.bondedActions[i], built[i])) {
      OperationsApartFromAction(p.operations, selections, p.bondedActions[i], built[i]);
      SessionApartFromAction(p, limits, p.bondedActions[i], built[i]);
    }
    ActionLimitsApart(a, p.bondedActions, built);
    ActionLimitsApart(b, p.bondedActions, built);
    ApartConcat(a, b, c);
    ConcatDistinct(a + b, c);
  }

  lemma SessionApartFromAction(p: Proposal, l: Limits, a: BondedAction, b: BondedAction)
    ensures NamesApart(SessionLimits(p, l), ActionLimits(a, b))
  {
    SessionVersusAction(p, l, a, b);
  }

  lemma BuiltSizes(r: CompileRequest, p: Proposal, now: int)
    requires Buildable(r.catalog, p)
    ensures |Build(r, p, now).allowedOperations| == |Selections(r.catalog, p)|
  {}

  /** No name twice, every name that of a limit, and a limit's name is listed iff the policy
      holds less than was proposed. */
  ghost predicate NamesExactlyLowered(clamped: seq<string>, limits: seq<Limit>) {
    && Distinct(clamped)
    && (forall i | 0 <= i < |limits| :: limits[i].name in clamped <==> limits[i].built < limits[i].proposed)
    && (forall name | name in clamped :: exists i | 0 <= i < |limits| :: limits[i].name == name)
  }

  /** The list a caller gets is exact, limit by limit: no name twice, every name that of a
      limit, and a limit's name is listed iff the policy holds less than was proposed,
      chained clamps and the zeroing of an unused bond included. */
  lemma ClampedListIsExact(r: CompileRequest, p: Proposal, now: int, clamped: seq<string>)
    requires ValidProposal(p) && Buildable(r.catalog, p)
    requires |p.operations| <= |Build(r, p, now).allowedOperations| && |p.bondedActions| == |Build(r, p, now).bondedActions|
    requires Build(r, p, now).constraints.expiresAt >= now / 1_000_000 && Exact(clamped, FinalLimits(p, Build(r, p, now), now))
    ensures NamesExactlyLowered(clamped, FinalLimits(p, Build(r, p, now), now))
  {
    hide FinalLimits, Build;
    FinalNamesDistinct(r, p, now);
    var limits := FinalLimits(p, Build(r, p, now), now);
    forall i | 0 <= i < |limits| ensures limits[i].name in clamped <==> limits[i].built < limits[i].proposed {
      assert Lowered(limits, limits[i].name) <==> limits[i].built < limits[i].proposed;
    }
    forall name | name in clamped ensures exists i | 0 <= i < |limits| :: limits[i].name == name {
      assert Lowered(limits, name);
    }
  }

  // ---------------------------------------------------------------------------------
  // The repair loop
  // ---------------------------------------------------------------------------------

  lemma ListIsExact(r: CompileRequest, p: Proposal, now: int, built: (AccessPolicy, seq<string>))
    requires Buildable(r.catalog, p) && built.0 == Build(r, p, now)
    requires |p.operations| <= |built.0.allowedOperations| && |p.bondedActions| == |built.0.bondedActions|
    requires built.0.constraints.expiresAt >= now / 1_000_000 && Exact(built.1, FinalLimits(p, built.0, now))
    ensures ValidProposal(p) ==> NamesExactlyLowered(built.1, FinalLimits(p, built.0, now))
  {
    hide FinalLimits, Build, ValidProposal, Exact, NamesExactlyLowered, Buildable;
    if ValidProposal(p) { ClampedListIsExact(r, p, now, built.1); }
  }

  const MAX_REPAIR_ATTEMPTS := 2

  /** What the provider answers an attempt with: a proposal that passes its model, or None for
      one that does not and for a provider error. */
  datatype Attempt = Attempt(proposal: Option<Proposal>, now: int)

  datatype Response = Response(policy: AccessPolicy, clamped: seq<string>, repairsAttempted: nat)

  predicate Succeeds(c: Catalog, a: Attempt) {
    a.proposal.Some? && Buildable(c, a.proposal.value)
  }

  /** `IntentCompiler.compile`: the first attempt that builds wins; the error lists one reason
      for each attempt. The compiler allows for
      at most MAX_REPAIR_ATTEMPTS repairs. */
  method Compile(r: CompileRequest, attempts: seq<Attempt>) returns (result: Result<Response, seq<Option<BuildError>>>)
    requires 1 <= |attempts| <= MAX_REPAIR_ATTEMPTS + 1
    ensures result.Ok? ==>
      var k := result.value.repairsAttempted;
      && k < |attempts| && k <= MAX_REPAIR_ATTEMPTS && Succeeds(r.catalog, attempts[k]) && (forall i | 0 <= i < k :: !Succeeds(r.catalog, attempts[i]))
      && var p, policy, now := attempts[k].proposal.value, result.value.policy, attempts[k].now;
      && policy == Build(r, p, now)
      && |p.operations| <= |policy.allowedOperations| && |p.bondedActions| == |policy.bondedActions|
      && policy.constraints.expiresAt >= now / 1_000_000 && Exact(result.value.clamped, FinalLimits(p, policy, now))
      && (ValidProposal(p) ==> NamesExactlyLowered(result.value.clamped, FinalLimits(p, policy, now)))
    ensures result.Err? ==> |result.error| == |attempts| && forall i | 0 <= i < |attempts| ::
      && !Succeeds(r.catalog, attempts[i])
      && (if attempts[i].proposal == None then result.error[i] == None
          else result.error[i].Some? && Justified(r.catalog, attempts[i].proposal.value, result.error[i].value))
  {
    var errors: seq<Option<BuildError>> := [];
    for attempt := 0 to |attempts|
      invariant |errors| == attempt
      invariant forall i | 0 <= i < attempt ::
        && !Succeeds(r.catalog, attempts[i])
        && (if attempts[i].proposal == None then errors[i] == None
            else errors[i].Some? && Justified(r.catalog, attempts[i].proposal.value, errors[i].value))
    {
      hide Buildable, Build, Justified, FinalLimits, NamesExactlyLowered, Exact, ValidProposal;
      if attempts[attempt].proposal == None {
        errors := errors + [None];
      } else {
        var built := ValidateAndBuildPolicy(r, attempts[attempt].proposal.value, attempts[attempt].now);
        if built.Ok? {
          ListIsExact(r, attempts[attempt].proposal.value, attempts[attempt].now, built.value);
          return Ok(Response(built.value.0, built.value.1, attempt));
        }
        errors := errors + [Some(built.error)];
      }
    }
    result := Err(errors);
  }
}
