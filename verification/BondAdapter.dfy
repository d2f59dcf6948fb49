/**
 * SolanaBondAdapter (packages/payment-client/src/bond-adapter.ts): evidence checks, a result
 * cache, a set of used nonces, and recovery of settlements whose response was lost. A settlement
 * call is split where it waits for the network, so that other processes can act in between.
 */
module BondAdapter {
  import opened Wrappers
  import opened Primitives
  import opened Checks
  import opened AdapterContract
  import opened SettlementEvidence
  import opened SettlementJournal
  import Chain = BondProgram

  /** The adapter's fields. */
  datatype Cache = Cache(sessions: map<string, Key>, settledResults: map<SettlementKey, AdapterResult>, seenNonces: set<Nonce>)

  const EMPTY := Cache(map[], map[], {})

  datatype Request =
    | CloseRequest(sessionId: string, bondAccount: Option<Key>, policyHash: Hash, amount: nat, evidence: Option<Evidence>)
    | ExpiryRequest(sessionId: string, bondAccount: Option<Key>, policyHash: Hash, penalty: nat, maxPenalty: nat, bondAmount: nat,
                    reservationId: string, evidence: Option<Evidence>)

  /** Fetching a bond account. */
  datatype Fetch = Found(view: Chain.Bond) | Missing | Unreachable

  /** Sending a transaction: its signature, or the failure the error is classified as. */
  datatype Delivery = Landed(signature: string) | Undelivered(code: FailureCode)

  function KeyOf(q: Request): SettlementKey {
    match q
    case CloseRequest(s, _, _, _, _) => CloseKey(s)
    case ExpiryRequest(s, _, _, _, _, _, r, _) => ExpiryKey(s, r)
  }

  function NonceOf(k: SettlementKey): Nonce {
    match k
    case CloseKey(s) => CloseNonce(s)
    case ExpiryKey(_, r) => ExpiryNonce(r)
  }

  function PenaltyOf(q: Request): nat {
    if q.CloseRequest? then 0 else q.penalty
  }

  /** bond minus penalty; only asked once the penalty is known to be within the bond. */
  function RefundOf(q: Request): nat {
    if q.CloseRequest? then q.amount else if q.penalty <= q.bondAmount then q.bondAmount - q.penalty else 0
  }

  /** The payload says what the request asks for. */
  predicate Authorizes(p: Payload, q: Request) {
    && p.sessionId == q.sessionId
    && p.outcome == (if q.CloseRequest? then VALID_CLOSE else EXPIRED_RESERVATION)
    && p.policyHash == q.policyHash
    && p.penalty == PenaltyOf(q) && p.bondRefunded == RefundOf(q)
    && (q.ExpiryRequest? ==> p.reservationId == Some(q.reservationId))
  }

  /** `checkEvidence`: the receipt hash, or why the evidence is refused. */
  function CheckEvidence(c: Cache, secret: string, q: Request): Result<Hash, FailureCode> {
    if q.evidence == None || secret == "" then Err(EVIDENCE_INVALID)
    else
      var e := q.evidence.value;
      if e.evidenceHash != EvidenceHash(e.payload) || !Authorizes(e.payload, q) then Err(EVIDENCE_INVALID)
      else if e.payload.nonce in c.seenNonces then Err(EVIDENCE_REPLAY)
      else if e.signature != Hmac(secret, EvidenceHash(e.payload)) then Err(EVIDENCE_INVALID)
      else Ok(e.evidenceHash)
  }

  /** Up to the account fetch: an answer at once, or the account to ask for. */
  datatype Begun = Answer(result: AdapterResult) | Ask(bond: Key, receiptHash: Hash)

  function Begin(c: Cache, secret: string, q: Request): (Begun, Cache) {
    if KeyOf(q) in c.settledResults then (Answer(c.settledResults[KeyOf(q)]), c)
    else if q.sessionId !in c.sessions && q.bondAccount == None then (Answer(Failure(BOND_NOT_FOUND)), c)
    else
      var bond := if q.sessionId in c.sessions then c.sessions[q.sessionId] else q.bondAccount.value;
      var c' := c.(sessions := c.sessions[q.sessionId := bond]);
      if q.ExpiryRequest? && !(q.penalty <= q.maxPenalty <= q.bondAmount) then (Answer(Failure(PENALTY_EXCEEDS_MAX)), c')
      else
        match CheckEvidence(c, secret, q)
        case Err(code) => (Answer(Failure(code)), c')
        case Ok(receiptHash) => (Ask(bond, receiptHash), c')
  }

  /** What the fetched account calls for. */
  datatype Decision = Reply(result: AdapterResult) | Recover(penalty: nat, bondRefunded: nat) | Submit

  function Decide(q: Request, receiptHash: Hash, fetch: Fetch): Decision {
    match fetch
    case Missing => Reply(Failure(BOND_NOT_FOUND))
    case Unreachable => Reply(Failure(NETWORK_UNAVAILABLE))
    case Found(view) =>
      if q.CloseRequest? then
        if view.status == Chain.CLOSED then
          if view.policyHash != q.policyHash then Reply(Failure(BOND_POLICY_MISMATCH))
          else if view.receiptHash == receiptHash then Recover(0, view.bondAmount)
          else Reply(Failure(SETTLEMENT_CONFLICT))
        else if view.status != Chain.OPEN then Reply(Failure(SETTLEMENT_CONFLICT))
        else if view.policyHash != q.policyHash then Reply(Failure(BOND_POLICY_MISMATCH))
        else if view.bondAmount != q.amount then Reply(Failure(BOND_AMOUNT_MISMATCH))
        else Submit
      else if view.status == Chain.VIOLATED then
        if view.policyHash != q.policyHash then Reply(Failure(BOND_POLICY_MISMATCH))
        else if view.receiptHash == receiptHash && view.settledPenalty == q.penalty then Recover(q.penalty, RefundOf(q))
        else Reply(Failure(SETTLEMENT_CONFLICT))
      else if view.status != Chain.OPEN then Reply(Failure(SETTLEMENT_CONFLICT))
      else if view.policyHash != q.policyHash then Reply(Failure(BOND_POLICY_MISMATCH))
      else if view.bondAmount != q.bondAmount then Reply(Failure(BOND_AMOUNT_MISMATCH))
      else Submit
  }

  function Remember(c: Cache, k: SettlementKey, result: AdapterResult): Cache {
    c.(settledResults := c.settledResults[k := result])
  }

  /** After a submission succeeded the nonce is used up as well. */
  function RememberSubmitted(c: Cache, q: Request, result: AdapterResult): Cache {
    var c' := Remember(c, KeyOf(q), result);
    if q.evidence.Some? then c'.(seenNonces := c'.seenNonces + {q.evidence.value.payload.nonce}) else c'
  }

  /** A whole call with nothing happening in between: the answer, the cache afterwards and
      whether a transaction was sent. */
  function Call(c: Cache, secret: string, q: Request, fetch: Fetch, latest: Option<string>, delivery: Delivery): (AdapterResult, Cache, bool) {
    match Begin(c, secret, q)
    case (Answer(result), c') => (result, c', false)
    case (Ask(_, receiptHash), c') =>
      match Decide(q, receiptHash, fetch)
      case Reply(result) => (result, c', false)
      case Recover(penalty, refunded) =>
        var result := Confirmation(latest, penalty, refunded);
        (result, Remember(c', KeyOf(q), result), false)
      case Submit =>
        match delivery
        case Undelivered(code) => (Failure(code), c', true)
        case Landed(signature) =>
          var result := Confirmation(Some(signature), PenaltyOf(q), RefundOf(q));
          (result, RememberSubmitted(c', q, result), true)
  }

  /** `verifyOpenBond` on the fetched account. */
  function CheckOpenBond(fetch: Fetch, policyHash: Hash, amount: nat, maxPenalty: nat): Option<FailureCode> {
    match fetch
    case Missing => Some(BOND_NOT_FOUND)
    case Unreachable => Some(NETWORK_UNAVAILABLE)
    case Found(view) =>
      if view.status != Chain.OPEN then Some(BOND_NOT_OPEN)
      else if view.policyHash != policyHash then Some(BOND_POLICY_MISMATCH)
      else if view.bondAmount != amount || view.maxPenalty != maxPenalty then Some(BOND_AMOUNT_MISMATCH)
      else None
  }

  /** Whatever the adapter remembers and whatever the network does: an uncached call is confirmed
      only when the bond already carries the receipt hash of the evidence with the requested
      outcome, or when a transaction sent for an open matching bond landed. */
  lemma ConfirmedOnlyWithCause(c: Cache, secret: string, q: Request, fetch: Fetch, latest: Option<string>, delivery: Delivery)
    requires KeyOf(q) !in c.settledResults
    ensures var (result, c', sent) := Call(c, secret, q, fetch, latest, delivery);
      && (result.status == CONFIRMED ==>
          && fetch.Found? && fetch.view.policyHash == q.policyHash
          && VerifyEvidence(q.evidence.value, secret) && Authorizes(q.evidence.value.payload, q)
          && q.evidence.value.payload.nonce !in c.seenNonces
          && (sent ==> fetch.view.status == Chain.OPEN && delivery.Landed?
                       && fetch.view.bondAmount == result.penalty.value + result.bondRefunded.value)
          && (!sent ==> fetch.view.receiptHash == q.evidence.value.evidenceHash
                        && fetch.view.status == (if q.CloseRequest? then Chain.CLOSED else Chain.VIOLATED)
                        && (q.ExpiryRequest? ==> fetch.view.settledPenalty == q.penalty))
          && c'.settledResults == c.settledResults[KeyOf(q) := result])
      && (result.status != CONFIRMED ==> c'.settledResults == c.settledResults && c'.seenNonces == c.seenNonces)
  {
    hide EvidenceHash;
  }

  // ---------------------------------------------------------------------------------
  // Refusals
  // ---------------------------------------------------------------------------------

  /** The bond has ended as the request asks, with that receipt hash. */
  predicate EndedAs(b: Chain.Bond, q: Request, receiptHash: Hash) {
    && b.receiptHash == receiptHash
    && b.status == (if q.CloseRequest? then Chain.CLOSED else Chain.VIOLATED)
    && (q.ExpiryRequest? ==> b.settledPenalty == q.penalty)
  }

  /** Before the account is fetched. */
  function RequestChecks(c: Cache, secret: string, q: Request): seq<Check<FailureCode>> {
    [ Check(q.sessionId !in c.sessions && q.bondAccount == None, BOND_NOT_FOUND),
      Check(q.ExpiryRequest? && (q.penalty > q.maxPenalty || q.maxPenalty > q.bondAmount), PENALTY_EXCEEDS_MAX),
      Check(q.evidence == None || secret == "", EVIDENCE_INVALID),
      Check(q.evidence.Some? && (q.evidence.value.evidenceHash != EvidenceHash(q.evidence.value.payload) || !Authorizes(q.evidence.value.payload, q)), EVIDENCE_INVALID),
      Check(q.evidence.Some? && q.evidence.value.payload.nonce in c.seenNonces, EVIDENCE_REPLAY),
      Check(q.evidence.Some? && !VerifyEvidence(q.evidence.value, secret), EVIDENCE_INVALID) ]
  }

  /** Of the fetched account. */
  function AccountChecks(q: Request, receiptHash: Hash, fetch: Fetch): seq<Check<FailureCode>> {
    [ Check(fetch.Missing?, BOND_NOT_FOUND),
      Check(fetch.Unreachable?, NETWORK_UNAVAILABLE),
      Check(fetch.Found? && fetch.view.status !in {Chain.OPEN, if q.CloseRequest? then Chain.CLOSED else Chain.VIOLATED}, SETTLEMENT_CONFLICT),
      Check(fetch.Found? && fetch.view.policyHash != q.policyHash, BOND_POLICY_MISMATCH),
      Check(fetch.Found? && fetch.view.status == Chain.OPEN && fetch.view.bondAmount != (if q.CloseRequest? then q.amount else q.bondAmount), BOND_AMOUNT_MISMATCH),
      Check(fetch.Found? && fetch.view.status != Chain.OPEN && !EndedAs(fetch.view, q, receiptHash), SETTLEMENT_CONFLICT) ]
  }

  lemma BeginRefuses(c: Cache, secret: string, q: Request)
    requires KeyOf(q) !in c.settledResults
    ensures var begun := Begin(c, secret, q).0;
      match begun
      case Ask(bond, receiptHash) =>
        && IsFirst(RequestChecks(c, secret, q), None) && receiptHash == q.evidence.value.evidenceHash
        && Some(bond) == if q.sessionId in c.sessions then Some(c.sessions[q.sessionId]) else q.bondAccount
      case Answer(result) => result.failureCode.Some? && result == Failure(result.failureCode.value) && IsFirst(RequestChecks(c, secret, q), result.failureCode)
  {
    hide EvidenceHash;
    var checks := RequestChecks(c, secret, q);
    if checks[0].fails { FirstIs(checks, 0); }
    else if checks[1].fails { FirstIs(checks, 1); }
    else if checks[2].fails { FirstIs(checks, 2); }
    else if checks[3].fails { FirstIs(checks, 3); }
    else if checks[4].fails { FirstIs(checks, 4); }
    else if checks[5].fails { FirstIs(checks, 5); }
  }

  lemma DecideRefuses(q: Request, receiptHash: Hash, fetch: Fetch)
    ensures match Decide(q, receiptHash, fetch)
      case Reply(result) => result.failureCode.Some? && result == Failure(result.failureCode.value) && IsFirst(AccountChecks(q, receiptHash, fetch), result.failureCode)
      case Recover(penalty, refunded) => IsFirst(AccountChecks(q, receiptHash, fetch), None) && fetch.view.status != Chain.OPEN
      case Submit => IsFirst(AccountChecks(q, receiptHash, fetch), None) && fetch.view.status == Chain.OPEN
  {
    var checks := AccountChecks(q, receiptHash, fetch);
    if checks[0].fails { FirstIs(checks, 0); }
    else if checks[1].fails { FirstIs(checks, 1); }
    else if checks[2].fails { FirstIs(checks, 2); }
    else if checks[3].fails { FirstIs(checks, 3); }
    else if checks[4].fails { FirstIs(checks, 4); }
    else if checks[5].fails { FirstIs(checks, 5); }
  }

  /** Refused, with the code of the first check that fails; only an outage is worth a retry. */
  ghost predicate RefusedBy(result: AdapterResult, checks: seq<Check<FailureCode>>) {
    && result.status == FAILED && result.failureCode.Some? && IsFirst(checks, result.failureCode)
    && result.retryable == (result.failureCode == Some(NETWORK_UNAVAILABLE))
    && result.providerReference == None && result.penalty == None && result.bondRefunded == None
  }

  /** What is reported of a settlement, found on chain or made by this call. */
  predicate Settles(result: AdapterResult, q: Request, view: Chain.Bond, reference: Option<string>) {
    && result.status == CONFIRMED && !result.retryable && result.failureCode == None && result.providerReference == reference
    && (if q.CloseRequest? then result.penalty == Some(0) && result.bondRefunded == Some(view.bondAmount)
        else result.penalty == Some(q.penalty) && result.bondRefunded == Some(q.bondAmount - q.penalty))
  }

  lemma RequestPasses(c: Cache, secret: string, q: Request)
    requires IsFirst(RequestChecks(c, secret, q), None)
    ensures q.evidence.Some? && (q.ExpiryRequest? ==> q.penalty <= q.maxPenalty <= q.bondAmount)
  {
    var checks := RequestChecks(c, secret, q);
    assert !checks[1].fails && !checks[2].fails;
    hide EvidenceHash;
  }

  lemma AccountPasses(q: Request, receiptHash: Hash, fetch: Fetch)
    requires IsFirst(AccountChecks(q, receiptHash, fetch), None)
    ensures fetch.Found? && (fetch.view.status == Chain.OPEN && q.CloseRequest? ==> fetch.view.bondAmount == q.amount)
  {
    var checks := AccountChecks(q, receiptHash, fetch);
    assert !checks[0].fails && !checks[1].fails && !checks[4].fails;
  }

  predicate OnlySession(c: Cache, c': Cache) {
    c'.settledResults == c.settledResults && c'.seenNonces == c.seenNonces
  }

  lemma BeginKeeps(c: Cache, secret: string, q: Request)
    ensures OnlySession(c, Begin(c, secret, q).1)
  {
    hide CheckEvidence;
  }

  /** The checks of the request are made in order, and the first that fails is reported. */
  lemma RequestIsChecked(c: Cache, secret: string, q: Request, fetch: Fetch, latest: Option<string>, delivery: Delivery)
    requires KeyOf(q) !in c.settledResults && !IsFirst(RequestChecks(c, secret, q), None)
    ensures var (result, c', sent) := Call(c, secret, q, fetch, latest, delivery);
      !sent && RefusedBy(result, RequestChecks(c, secret, q)) && OnlySession(c, c')
  {
    hide Begin, Decide, RequestChecks, IsFirst, EvidenceHash;
    BeginRefuses(c, secret, q);
    BeginKeeps(c, secret, q);
  }

  /** Then those of the account. */
  lemma AccountIsChecked(c: Cache, secret: string, q: Request, fetch: Fetch, latest: Option<string>, delivery: Delivery)
    requires KeyOf(q) !in c.settledResults && IsFirst(RequestChecks(c, secret, q), None)
    requires q.evidence.Some? && !IsFirst(AccountChecks(q, q.evidence.value.evidenceHash, fetch), None)
    ensures var (result, c', sent) := Call(c, secret, q, fetch, latest, delivery);
      !sent && RefusedBy(result, AccountChecks(q, q.evidence.value.evidenceHash, fetch)) && OnlySession(c, c')
  {
    hide Begin, Decide, RequestChecks, AccountChecks, IsFirst, EvidenceHash;
    BeginRefuses(c, secret, q);
    FirstIsOne(RequestChecks(c, secret, q));
    DecideRefuses(q, q.evidence.value.evidenceHash, fetch);
    BeginKeeps(c, secret, q);
  }

  /** A call that passes them all recovers a bond that has ended as asked, and sends a transaction
      for an open one. Only a transaction known to have landed uses up the nonce. */
  lemma CheckedCallSettles(c: Cache, secret: string, q: Request, fetch: Fetch, latest: Option<string>, delivery: Delivery)
    requires KeyOf(q) !in c.settledResults && IsFirst(RequestChecks(c, secret, q), None)
    requires q.evidence.Some? && fetch.Found? && IsFirst(AccountChecks(q, q.evidence.value.evidenceHash, fetch), None)
    ensures var (result, c', sent) := Call(c, secret, q, fetch, latest, delivery);
      && sent == (fetch.view.status == Chain.OPEN)
      && (if !sent then Settles(result, q, fetch.view, latest)
          else if delivery.Landed? then Settles(result, q, fetch.view, Some(delivery.signature))
          else result.status == FAILED && result.failureCode == Some(delivery.code) && result.retryable == (delivery.code == NETWORK_UNAVAILABLE))
      && c'.settledResults == (if result.status == CONFIRMED then c.settledResults[KeyOf(q) := result] else c.settledResults)
      && c'.seenNonces == (if sent && delivery.Landed? then c.seenNonces + {q.evidence.value.payload.nonce} else c.seenNonces)
  {
    hide Begin, Decide, RequestChecks, AccountChecks, IsFirst, EvidenceHash;
    BeginRefuses(c, secret, q);
    FirstIsOne(RequestChecks(c, secret, q));
    DecideRefuses(q, q.evidence.value.evidenceHash, fetch);
    FirstIsOne(AccountChecks(q, q.evidence.value.evidenceHash, fetch));
    RequestPasses(c, secret, q);
    AccountPasses(q, q.evidence.value.evidenceHash, fetch);
    if Decide(q, q.evidence.value.evidenceHash, fetch).Recover? { RecoveredAmounts(q, q.evidence.value.evidenceHash, fetch); }
    BeginKeeps(c, secret, q);
  }

  lemma RecoveredAmounts(q: Request, receiptHash: Hash, fetch: Fetch)
    requires fetch.Found? && Decide(q, receiptHash, fetch).Recover? && (q.ExpiryRequest? ==> q.penalty <= q.bondAmount)
    ensures var d := Decide(q, receiptHash, fetch);
      if q.CloseRequest? then d.penalty == 0 && d.bondRefunded == fetch.view.bondAmount else d.penalty == q.penalty && d.bondRefunded == q.bondAmount - q.penalty
  {}

  /** A call as one record. */
  datatype Input = Input(q: Request, fetch: Fetch, latest: Option<string>, delivery: Delivery)

  function CallAll(c: Cache, secret: string, xs: seq<Input>): Cache
    decreases |xs|
  {
    if xs == [] then c else CallAll(Call(c, secret, xs[0].q, xs[0].fetch, xs[0].latest, xs[0].delivery).1, secret, xs[1..])
  }

  lemma NonceStaysSeen(c: Cache, secret: string, x: Input)
    ensures c.seenNonces <= Call(c, secret, x.q, x.fetch, x.latest, x.delivery).1.seenNonces
  {
    hide CheckEvidence, Decide;
  }

  lemma {:induction false} NoncesStaySeen(c: Cache, secret: string, xs: seq<Input>)
    ensures c.seenNonces <= CallAll(c, secret, xs).seenNonces
    decreases |xs|
  {
    if xs != [] {
      NonceStaysSeen(c, secret, xs[0]);
      NoncesStaySeen(Call(c, secret, xs[0].q, xs[0].fetch, xs[0].latest, xs[0].delivery).1, secret, xs[1..]);
    }
    hide Call;
  }

  lemma LandedIsSeen(c: Cache, secret: string, x: Input)
    requires KeyOf(x.q) !in c.settledResults && x.delivery.Landed? && x.q.evidence.Some?
    requires Call(c, secret, x.q, x.fetch, x.latest, x.delivery).2
    ensures x.q.evidence.value.payload.nonce in Call(c, secret, x.q, x.fetch, x.latest, x.delivery).1.seenNonces
  {
    hide CheckEvidence, Decide;
  }

  /** The nonce of a transaction that landed is spent for good: whatever is called in between, a
      call for another settlement that shows the nonce again sends nothing and is refused. */
  lemma SpentNonceIsRefused(c: Cache, secret: string, x: Input, between: seq<Input>, y: Input)
    requires KeyOf(x.q) !in c.settledResults && x.delivery.Landed? && Call(c, secret, x.q, x.fetch, x.latest, x.delivery).2
    requires var c' := CallAll(Call(c, secret, x.q, x.fetch, x.latest, x.delivery).1, secret, between); KeyOf(y.q) !in c'.settledResults
    requires x.q.evidence.Some? && y.q.evidence.Some? && y.q.evidence.value.payload.nonce == x.q.evidence.value.payload.nonce
    ensures var c' := CallAll(Call(c, secret, x.q, x.fetch, x.latest, x.delivery).1, secret, between);
      var (result, _, sent) := Call(c', secret, y.q, y.fetch, y.latest, y.delivery);
      !sent && RefusedBy(result, RequestChecks(c', secret, y.q))
  {
    LandedIsSeen(c, secret, x);
    var c1 := Call(c, secret, x.q, x.fetch, x.latest, x.delivery).1;
    NoncesStaySeen(c1, secret, between);
    var c' := CallAll(c1, secret, between);
    hide Call, RefusedBy, EvidenceHash, VerifyEvidence, Authorizes;
    assert RequestChecks(c', secret, y.q)[4].fails;
    RequestIsChecked(c', secret, y.q, y.fetch, y.latest, y.delivery);
  }

  function OpenBondChecks(fetch: Fetch, policyHash: Hash, amount: nat, maxPenalty: nat): seq<Check<FailureCode>> {
    [ Check(fetch.Missing?, BOND_NOT_FOUND), Check(fetch.Unreachable?, NETWORK_UNAVAILABLE),
      Check(fetch.Found? && fetch.view.status != Chain.OPEN, BOND_NOT_OPEN),
      Check(fetch.Found? && fetch.view.policyHash != policyHash, BOND_POLICY_MISMATCH),
      Check(fetch.Found? && (fetch.view.bondAmount, fetch.view.maxPenalty) != (amount, maxPenalty), BOND_AMOUNT_MISMATCH) ]
  }

  /** A bond is accepted for a session exactly if it is open on the given terms; otherwise the first
      of its faults is reported. */
  lemma OpenBondAccepted(fetch: Fetch, policyHash: Hash, amount: nat, maxPenalty: nat)
    ensures IsFirst(OpenBondChecks(fetch, policyHash, amount, maxPenalty), CheckOpenBond(fetch, policyHash, amount, maxPenalty))
  {
    var checks := OpenBondChecks(fetch, policyHash, amount, maxPenalty);
    if checks[0].fails { FirstIs(checks, 0); }
    else if checks[1].fails { FirstIs(checks, 1); }
    else if checks[2].fails { FirstIs(checks, 2); }
    else if checks[3].fails { FirstIs(checks, 3); }
    else if checks[4].fails { FirstIs(checks, 4); }
  }

  class SolanaBondAdapter {
    var sessions: map<string, Key>
    var settledResults: map<SettlementKey, AdapterResult>
    var seenNonces: set<Nonce>
    const hmacSecret: string

    ghost function State(): Cache
      reads this
    {
      Cache(sessions, settledResults, seenNonces)
    }

    constructor (hmacSecret: string)
      ensures State() == EMPTY && this.hmacSecret == hmacSecret
    {
      this.hmacSecret := hmacSecret;
      sessions, settledResults, seenNonces := map[], map[], {};
    }

    method VerifyOpenBond(sessionId: string, bondAccount: Key, policyHash: Hash, amount: nat, maxPenalty: nat, fetch: Fetch)
      returns (failure: Option<FailureCode>)
      modifies this`sessions
      ensures failure == CheckOpenBond(fetch, policyHash, amount, maxPenalty)
      ensures sessions == if failure == None then old(sessions)[sessionId := bondAccount] else old(sessions)
    {
      match fetch {
        case Missing => return Some(BOND_NOT_FOUND);
        case Unreachable => return Some(NETWORK_UNAVAILABLE);
        case Found(view) =>
          if view.status != Chain.OPEN { return Some(BOND_NOT_OPEN); }
          if view.policyHash != policyHash { return Some(BOND_POLICY_MISMATCH); }
          if view.bondAmount != amount || view.maxPenalty != maxPenalty { return Some(BOND_AMOUNT_MISMATCH); }
          sessions := sessions[sessionId := bondAccount];
          return None;
      }
    }

    /** The answer from the cache, a refusal, or the account to fetch. */
    method Prepare(q: Request) returns (begun: Begun)
      modifies this`sessions
      ensures (begun, State()) == Begin(old(State()), hmacSecret, q)
    {
      hide EvidenceHash;
      if KeyOf(q) in settledResults { return Answer(settledResults[KeyOf(q)]); }
      var session := ResolveSession(q.sessionId, q.bondAccount);
      if session == None { return Answer(Failure(BOND_NOT_FOUND)); }
      if q.ExpiryRequest? && !(q.penalty <= q.maxPenalty && q.maxPenalty <= q.bondAmount) { return Answer(Failure(PENALTY_EXCEEDS_MAX)); }
      var check := CheckEvidence(Cache(sessions, settledResults, seenNonces), hmacSecret, q);
      if check.Err? { return Answer(Failure(check.error)); }
      return Ask(session.value, check.value);
    }

    method ResolveSession(sessionId: string, bondAccount: Option<Key>) returns (session: Option<Key>)
      modifies this`sessions
      ensures session == if sessionId in old(sessions) then Some(old(sessions)[sessionId]) else bondAccount
      ensures sessions == if session.Some? then old(sessions)[sessionId := session.value] else old(sessions)
    {
      if sessionId in sessions {
        assert sessions == sessions[sessionId := sessions[sessionId]];
        return Some(sessions[sessionId]);
      }
      if bondAccount.Some? { sessions := sessions[sessionId := bondAccount.value]; }
      return bondAccount;
    }

    method RequestValidClose(q: Request, fetch: Fetch, latest: Option<string>, delivery: Delivery) returns (result: AdapterResult, sent: bool)
      requires q.CloseRequest?
      modifies this
      ensures (result, State(), sent) == Call(old(State()), hmacSecret, q, fetch, latest, delivery)
    {
      hide EvidenceHash;
      sent := false;
      var begun := Prepare(q);
      if begun.Answer? { return begun.result, false; }
      if fetch.Missing? { return Failure(BOND_NOT_FOUND), false; }
      if fetch.Unreachable? { return Failure(NETWORK_UNAVAILABLE), false; }
      var view := fetch.view;
      if view.status == Chain.CLOSED {
        if view.policyHash != q.policyHash { return Failure(BOND_POLICY_MISMATCH), false; }
        if view.receiptHash != begun.receiptHash { return Failure(SETTLEMENT_CONFLICT), false; }
        result := RecoverSettled(KeyOf(q), latest, 0, view.bondAmount);
        return;
      }
      if view.status != Chain.OPEN { return Failure(SETTLEMENT_CONFLICT), false; }
      if view.policyHash != q.policyHash { return Failure(BOND_POLICY_MISMATCH), false; }
      if view.bondAmount != q.amount { return Failure(BOND_AMOUNT_MISMATCH), false; }
      sent := true;
      if delivery.Undelivered? { return Failure(delivery.code), true; }
      result := Confirmation(Some(delivery.signature), 0, view.bondAmount);
      settledResults := settledResults[KeyOf(q) := result];
      seenNonces := seenNonces + {q.evidence.value.payload.nonce};
    }

    method RequestExpiredReservationSettlement(q: Request, fetch: Fetch, latest: Option<string>, delivery: Delivery)
      returns (result: AdapterResult, sent: bool)
      requires q.ExpiryRequest?
      modifies this
      ensures (result, State(), sent) == Call(old(State()), hmacSecret, q, fetch, latest, delivery)
    {
      hide EvidenceHash;
      sent := false;
      var begun := Prepare(q);
      if begun.Answer? { return begun.result, false; }
      if fetch.Missing? { return Failure(BOND_NOT_FOUND), false; }
      if fetch.Unreachable? { return Failure(NETWORK_UNAVAILABLE), false; }
      var view := fetch.view;
      if view.status == Chain.VIOLATED {
        if view.policyHash != q.policyHash { return Failure(BOND_POLICY_MISMATCH), false; }
        if view.receiptHash != begun.receiptHash || view.settledPenalty != q.penalty { return Failure(SETTLEMENT_CONFLICT), false; }
        result := RecoverSettled(KeyOf(q), latest, q.penalty, q.bondAmount - q.penalty);
        return;
      }
      if view.status != Chain.OPEN { return Failure(SETTLEMENT_CONFLICT), false; }
      if view.policyHash != q.policyHash { return Failure(BOND_POLICY_MISMATCH), false; }
      if view.bondAmount != q.bondAmount { return Failure(BOND_AMOUNT_MISMATCH), false; }
      sent := true;
      if delivery.Undelivered? { return Failure(delivery.code), true; }
      result := Confirmation(Some(delivery.signature), q.penalty, q.bondAmount - q.penalty);
      settledResults := settledResults[KeyOf(q) := result];
      seenNonces := seenNonces + {q.evidence.value.payload.nonce};
    }

    method RecoverSettled(key: SettlementKey, latest: Option<string>, penalty: nat, refunded: nat) returns (result: AdapterResult)
      modifies this`settledResults
      ensures result == Confirmation(latest, penalty, refunded) && settledResults == old(settledResults)[key := result]
    {
      result := Confirmation(latest, penalty, refunded);
      settledResults := settledResults[key := result];
    }
  }
}
