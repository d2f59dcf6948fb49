/** Results of the bond adapter as the gateway sees them (packages/contracts/src/index.ts). */
module AdapterContract {
  import opened Wrappers

  datatype AdapterStatus = PENDING | FAILED | CONFIRMED

  datatype FailureCode =
    | BOND_NOT_FOUND | BOND_NOT_OPEN | BOND_POLICY_MISMATCH | BOND_AMOUNT_MISMATCH | PENALTY_EXCEEDS_MAX
    | EVIDENCE_INVALID | EVIDENCE_REPLAY | SETTLEMENT_CONFLICT | NETWORK_UNAVAILABLE | TX_FAILED

  /** A settlement result. An amount is None when the adapter gave none or no decimal number;
      a provider reference is None when absent or empty. */
  datatype AdapterResult = AdapterResult(
    status: AdapterStatus, retryable: bool, providerReference: Option<string>, failureCode: Option<FailureCode>,
    penalty: Option<nat>, bondRefunded: Option<nat>)

  function Failure(code: FailureCode): AdapterResult {
    AdapterResult(FAILED, code == NETWORK_UNAVAILABLE, None, Some(code), None, None)
  }

  function Confirmation(reference: Option<string>, penalty: nat, bondRefunded: nat): AdapterResult {
    AdapterResult(CONFIRMED, false, reference, None, Some(penalty), Some(bondRefunded))
  }

  // ---------------------------------------------------------------------------------
  // apps/gateway/src/adapter-validation.ts; None stands for the thrown error
  // ---------------------------------------------------------------------------------

  datatype Amounts = Amounts(penalty: nat, bondRefunded: nat)

  function ValidateValidClose(result: AdapterResult, bondAmount: nat): Option<Amounts> {
    match (result.bondRefunded, result.penalty)
    case (Some(refunded), Some(penalty)) => if penalty != 0 || refunded != bondAmount then None else Some(Amounts(penalty, refunded))
    case _ => None
  }

  function ValidateExpiredReservation(result: AdapterResult, penalty: nat, maxPenalty: nat, bondAmount: nat): Option<Amounts> {
    match (result.bondRefunded, result.penalty)
    case (Some(refunded), Some(p)) =>
      if p != penalty || p > maxPenalty || p > bondAmount || refunded + p != bondAmount then None else Some(Amounts(p, refunded))
    case _ => None
  }

  function ValidateUsage(charged: Option<nat>, usageCap: nat): Option<nat> {
    match charged
    case Some(n) => if n > usageCap then None else Some(n)
    case None => None
  }

  // ---------------------------------------------------------------------------------
  // apps/gateway/src/settlement-polling.ts
  // ---------------------------------------------------------------------------------

  /** Polls a pending settlement until a status query gives a verdict or the attempts run out.
      `answers` are the replies the queries would get. Amounts and reference never change. */
  method PollSettlement(settlement: AdapterResult, answers: seq<AdapterResult>) returns (result: AdapterResult)
    ensures settlement.status != PENDING || settlement.providerReference == None ==> result == settlement
    ensures (result.penalty, result.bondRefunded, result.providerReference) ==
            (settlement.penalty, settlement.bondRefunded, settlement.providerReference)
    ensures settlement.status == PENDING && settlement.providerReference.Some? ==>
      if forall i | 0 <= i < |answers| :: answers[i].status == PENDING then result.status == PENDING && result.retryable
      else exists k | 0 <= k < |answers| :: answers[k].status != PENDING && result.status == answers[k].status
                && (forall i | 0 <= i < k :: answers[i].status == PENDING)
                && result.retryable == (answers[k].status == FAILED && answers[k].retryable)
                && result.failureCode == (if answers[k].status == FAILED && answers[k].failureCode.Some? then answers[k].failureCode else settlement.failureCode)
    ensures settlement.status == PENDING && settlement.providerReference.Some? && result.status == PENDING ==>
      result.failureCode == if |answers| > 0 && answers[|answers| - 1].failureCode.Some? then answers[|answers| - 1].failureCode else settlement.failureCode
  {
    if settlement.status != PENDING || settlement.providerReference == None {
      return settlement;
    }
    var status := settlement;
    for attempt := 0 to |answers|
      invariant forall i | 0 <= i < attempt :: answers[i].status == PENDING
      invariant status == if attempt == 0 then settlement else answers[attempt - 1]
    {
      status := answers[attempt];
      if status.status == CONFIRMED {
        return settlement.(status := CONFIRMED, retryable := false);
      }
      if status.status == FAILED {
        return settlement.(status := FAILED, retryable := status.retryable,
                           failureCode := if status.failureCode.Some? then status.failureCode else settlement.failureCode);
      }
    }
    return settlement.(status := PENDING, retryable := true,
                       failureCode := if status.failureCode.Some? then status.failureCode else settlement.failureCode);
  }
}
