/**
 * Merchant catalogues, policy proposals and access policies with the checks of their models
 * (services/intent-agent/app/models.py). Amounts are decimal strings without leading zeros in
 * the source and naturals here; an absent limit is None.
 */
module PolicyModels {
  import opened Wrappers

  datatype HttpMethod = GET | POST

  datatype Operation = Operation(id: string, verb: HttpMethod, pathTemplate: string, fields: seq<string>, maxCalls: nat, bonded: bool)

  datatype Catalog = Catalog(
    merchantId: string, version: string, operations: seq<Operation>,
    maxTotalCalls: Option<nat>, maxRequestsPerMinute: Option<nat>, maxSessionTtlSeconds: Option<nat>,
    maxUsageCap: Option<nat>, maxBondAmount: Option<nat>, maxPenalty: Option<nat>, defaultExpiryPenalty: nat)

  datatype Budget = Budget(
    usageCap: nat, bondCap: nat,
    maxTotalCalls: Option<nat>, maxRequestsPerMinute: Option<nat>, maxSessionTtlSeconds: Option<nat>)

  datatype CompileRequest = CompileRequest(agentWallet: string, catalog: Catalog, budget: Budget)

  datatype ProposedOperation = ProposedOperation(operationId: string, fields: seq<string>, maxCalls: nat)

  datatype BondedAction = BondedAction(operationId: string, maxActive: nat, ttlSeconds: nat, expiryPenalty: nat)

  datatype Proposal = Proposal(
    purpose: string, operations: seq<ProposedOperation>,
    maxTotalCalls: nat, maxRequestsPerMinute: nat, sessionTtlSeconds: nat,
    usageCap: nat, bondAmount: nat, maxPenalty: nat, bondedActions: seq<BondedAction>)

  datatype AllowedOperation = AllowedOperation(verb: HttpMethod, pathTemplate: string, fields: seq<string>, maxCalls: nat)

  /** `expiresAt` in seconds */
  datatype Constraints = Constraints(maxTotalCalls: nat, maxRequestsPerMinute: nat, expiresAt: int, usageCap: nat, bondAmount: nat, maxPenalty: nat)

  datatype AccessPolicy = AccessPolicy(
    merchantId: string, agentWallet: string, purpose: string, allowedOperations: seq<AllowedOperation>,
    constraints: Constraints, bondedActions: seq<BondedAction>, catalogVersion: string)

  predicate AtLeastOne(limit: Option<nat>) {
    limit.Some? ==> limit.value >= 1
  }

  ghost predicate Distinct(xs: seq<string>) {
    forall i, j | 0 <= i < j < |xs| :: xs[i] != xs[j]
  }

  ghost predicate ValidCatalog(c: Catalog) {
    && c.operations != []
    && (forall i | 0 <= i < |c.operations| ::
          c.operations[i].maxCalls >= 1 && c.operations[i].fields != [] && Distinct(c.operations[i].fields))
    && (forall i, j | 0 <= i < j < |c.operations| ::
          c.operations[i].id != c.operations[j].id
          && (c.operations[i].verb, c.operations[i].pathTemplate) != (c.operations[j].verb, c.operations[j].pathTemplate))
    && AtLeastOne(c.maxTotalCalls) && AtLeastOne(c.maxRequestsPerMinute) && AtLeastOne(c.maxSessionTtlSeconds)
  }

  ghost predicate ValidBudget(b: Budget) {
    AtLeastOne(b.maxTotalCalls) && AtLeastOne(b.maxRequestsPerMinute) && AtLeastOne(b.maxSessionTtlSeconds)
  }

  ghost predicate ValidRequest(r: CompileRequest) {
    ValidCatalog(r.catalog) && ValidBudget(r.budget)
  }

  ghost predicate ValidProposal(p: Proposal) {
    && p.operations != [] && p.maxTotalCalls >= 1 && p.maxRequestsPerMinute >= 1 && p.sessionTtlSeconds >= 1
    && (forall i | 0 <= i < |p.operations| ::
          p.operations[i].maxCalls >= 1 && p.operations[i].fields != [] && Distinct(p.operations[i].fields))
    && (forall i, j | 0 <= i < j < |p.operations| :: p.operations[i].operationId != p.operations[j].operationId)
    && (forall i | 0 <= i < |p.bondedActions| :: p.bondedActions[i].maxActive >= 1 && p.bondedActions[i].ttlSeconds >= 1)
    && (forall i, j | 0 <= i < j < |p.bondedActions| :: p.bondedActions[i].operationId != p.bondedActions[j].operationId)
  }

  /** What the model of a policy demands of its numbers. */
  ghost predicate ValidPolicy(p: AccessPolicy) {
    && p.allowedOperations != [] && p.constraints.maxTotalCalls >= 1 && p.constraints.maxRequestsPerMinute >= 1
    && (forall i | 0 <= i < |p.allowedOperations| :: p.allowedOperations[i].maxCalls >= 1 && p.allowedOperations[i].fields != [])
    && (forall i | 0 <= i < |p.bondedActions| :: p.bondedActions[i].maxActive >= 1 && p.bondedActions[i].ttlSeconds >= 1)
    && p.constraints.maxPenalty <= p.constraints.bondAmount
    && (forall i | 0 <= i < |p.bondedActions| :: p.bondedActions[i].expiryPenalty <= p.constraints.maxPenalty)
  }
}
