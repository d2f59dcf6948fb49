/** The invariant of the settlement protocol, and why what it says is never undone. */
module SettlementInvariant {
  import opened Wrappers
  import opened Primitives
  import opened AdapterContract
  import opened SettlementEvidence
  import opened SettlementJournal
  import opened Settlement
  import S = Sessions
  import V = Inventory
  import P = BondProgram
  import B = BondAdapter

  // ---------------------------------------------------------------------------------
  // The invariant
  // ---------------------------------------------------------------------------------

  predicate Terminal(s: S.SessionState) {
    s == S.CLOSED || s == S.VIOLATED || s == S.EXPIRED
  }

  /** Activated at some time. */
  predicate Live(s: S.SessionState) {
    s == S.ACTIVE || s == S.SETTLING || Terminal(s)
  }

  ghost predicate BondMatches(w: World, k: Key, t: S.Terms) {
    && k in w.chain.bonds
    && w.chain.bonds[k].policyHash == t.policyHash
    && w.chain.bonds[k].bondAmount == t.bondAmount && w.chain.bonds[k].maxPenalty == t.maxPenalty
  }

  /** The bond has ended on chain as the attempt under `key` asked: same receipt hash, same
      penalty. Nothing can make this false again. */
  ghost predicate SettledFor(w: World, bond: Key, key: SettlementKey, penalty: nat) {
    && key in w.attempts && bond in w.chain.bonds
    && w.chain.bonds[bond].receiptHash == w.attempts[key].evidence.evidenceHash
    && w.chain.bonds[bond].status == (if key.CloseKey? then P.CLOSED else P.VIOLATED)
    && w.chain.bonds[bond].settledPenalty == penalty == w.attempts[key].evidence.payload.penalty
  }

  /** A receipt of a bonded session says what happened on chain. */
  ghost predicate ReceiptTrue(w: World, bond: Key, key: SettlementKey, t: S.Terms, r: S.Receipt) {
    && SettledFor(w, bond, key, r.penalty)
    && r.outcome == (if key.CloseKey? then S.CLOSED else S.EXPIRED)
    && r.penalty + r.bondRefunded == t.bondAmount
  }

  ghost predicate SessionGood(w: World, id: string)
    requires id in w.sessions
  {
    var r := w.sessions[id];
    && r.sessionId == id && ':' !in id && ValidTerms(r.terms)
    && (Live(r.state) ==> id in w.paid && w.paid[id] >= r.terms.usageCap)
    && (Live(r.state) && Bonded(r.terms) ==> id in w.verified && r.bondReference == Some(w.verified[id]) && BondMatches(w, w.verified[id], r.terms))
    && (r.tokenHash.Some? ==> Live(r.state))
    && (r.state == S.SETTLING || Terminal(r.state) ==> r.tokenHash.Some?)
    && (r.receipt.Some? ==>
          && Terminal(r.state) && r.receipt.value.outcome == r.state
          && (Bonded(r.terms) ==> exists key | key in w.attempts :: key.sessionId == id && ReceiptTrue(w, w.verified[id], key, r.terms, r.receipt.value)))
  }

  ghost predicate ReservationGood(w: World, id: string)
    requires id in w.goods.reservations
  {
    var r := w.goods.reservations[id];
    && r.reservationId == id == V.ReservationId(r.sessionId, r.productId) && '_' !in r.productId
    && r.sessionId in w.sessions && w.sessions[r.sessionId].tokenHash.Some? && Bonded(w.sessions[r.sessionId].terms)
  }

  /** A journal entry carries evidence made for its session, on the session's terms. */
  ghost predicate AttemptGood(w: World, key: SettlementKey)
    requires key in w.attempts
  {
    var a := w.attempts[key];
    var p := a.evidence.payload;
    && a.key == key && key.sessionId in w.sessions
    && var r := w.sessions[key.sessionId];
    && r.tokenHash.Some? && Bonded(r.terms)
    && VerifyEvidence(a.evidence, w.secret)
    && p.sessionId == key.sessionId && p.policyHash == r.terms.policyHash && p.nonce == B.NonceOf(key)
    && p.outcome == (if key.CloseKey? then VALID_CLOSE else EXPIRED_RESERVATION)
    && p.penalty + p.bondRefunded == r.terms.bondAmount && p.penalty <= r.terms.maxPenalty
    && (key.CloseKey? ==> p.penalty == 0)
    && (key.ExpiryKey? ==> p.reservationId == Some(key.reservationId) && Owned(w, key.sessionId, key.reservationId))
  }

  ghost predicate Owned(w: World, sessionId: string, reservationId: string) {
    reservationId in w.goods.reservations && w.goods.reservations[reservationId].sessionId == sessionId
  }

  ghost predicate NonceOfAny(keys: set<SettlementKey>, n: Nonce) {
    exists key | key in keys :: B.NonceOf(key) == n
  }

  /** A claimed nonce belongs to the attempt it was made for. */
  ghost predicate NoncesGood(w: World) {
    && (forall key | key in w.attempts && B.NonceOf(key) in w.nonces :: w.nonces[B.NonceOf(key)] == w.attempts[key].evidence.evidenceHash)
    && (forall n | n in w.nonces :: NonceOfAny(w.attempts.Keys, n))
  }

  ghost predicate CachedGood(w: World, key: SettlementKey, result: AdapterResult) {
    && key in w.attempts && key.sessionId in w.sessions && key.sessionId in w.verified
    && result.status == CONFIRMED && result.penalty.Some? && result.bondRefunded.Some?
    && SettledFor(w, w.verified[key.sessionId], key, result.penalty.value)
    && result.penalty.value + result.bondRefunded.value == w.sessions[key.sessionId].terms.bondAmount
  }

  ghost predicate CacheGood(w: World, c: B.Cache) {
    && (forall id | id in c.sessions :: id in w.verified && w.verified[id] == c.sessions[id])
    && (forall key | key in c.settledResults :: CachedGood(w, key, c.settledResults[key]))
    && (forall n | n in c.seenNonces :: NonceOfAny(c.settledResults.Keys, n))
  }

  /** A transaction is sent for a persisted attempt and asks for what its evidence says. */
  ghost predicate SubmissionGood(w: World, s: Submission) {
    && s.key in w.attempts && s.key.sessionId in w.verified && s.bond == w.verified[s.key.sessionId]
    && var p := w.attempts[s.key].evidence;
    && (match s.instruction
        case CloseValid(signer, bond, _, receiptHash) => s.key.CloseKey? && signer == w.gateway && bond == s.bond && receiptHash == p.evidenceHash
        case SettleViolation(signer, bond, _, _, receiptHash, penalty) =>
          s.key.ExpiryKey? && signer == w.gateway && bond == s.bond && receiptHash == p.evidenceHash && penalty == p.payload.penalty
        case _ => false)
    && (s.landed ==> SettledFor(w, s.bond, s.key, p.payload.penalty))
  }

  /** Whatever the gateway's authority ended, it ended for a persisted attempt. */
  ghost predicate ExitsGood(w: World) {
    forall k | k in w.chain.bonds && w.chain.bonds[k].authority == w.gateway && w.chain.bonds[k].status in {P.CLOSED, P.VIOLATED} ::
      k in w.settledBy && SettledFor(w, k, w.settledBy[k], w.chain.bonds[k].settledPenalty)
  }

  /** The session a process alone may write: one it is creating, or one it has just ended. */
  function Owns(pr: Process): Option<string> {
    match pr
    case Creating(_, record, _) => Some(record.sessionId)
    case Closing(_, record, _) => Some(record.sessionId)
    case _ => None
  }

  ghost predicate TaskGood(w: World, t: Task) {
    && t.sessionId in w.sessions
    && var r := w.sessions[t.sessionId];
    && Live(r.state) && t.session.terms == r.terms && t.session.bondReference == r.bondReference
    && (t.kind != EXPIRY_WORKER ==> r.tokenHash.Some?)
  }

  /** From the examination on, an expiry has its reservation. */
  ghost predicate ExaminedGood(w: World, t: Task) {
    && TaskGood(w, t) && w.sessions[t.sessionId].tokenHash.Some?
    && (t.kind != CLOSE_ROUTE ==> Owned(w, t.sessionId, t.reservationId))
  }

  ghost predicate CaseGood(w: World, c: Case) {
    && ExaminedGood(w, c.task) && Bonded(c.task.session.terms)
    && TaskKey(c.task) in w.attempts && c.attempt.key == TaskKey(c.task)
    && c.attempt.evidence == w.attempts[TaskKey(c.task)].evidence
    && c.request == NewRequest(c.task, c.attempt.evidence)
  }

  /** The amounts a process is about to report are those on chain. */
  ghost predicate AmountsTrue(w: World, t: Task, penalty: nat, refunded: nat) {
    && t.sessionId in w.verified && SettledFor(w, w.verified[t.sessionId], TaskKey(t), penalty)
    && penalty + refunded == t.session.terms.bondAmount
  }

  ghost predicate SettledGood(w: World, t: Task, amounts: Amounts) {
    && ExaminedGood(w, t)
    && (Bonded(t.session.terms) ==> AmountsTrue(w, t, amounts.penalty, amounts.bondRefunded))
  }

  ghost predicate CreatingGood(w: World, record: S.SessionRecord, stage: CreationStage) {
    var id := record.sessionId;
    && id in w.sessions && w.sessions[id] == record && record.tokenHash == None && record.receipt == None
    && (stage.CREATED? || stage.POLICY_READY? || stage.PAID? || stage.PAYMENT_SAVED? ==> id !in w.verified)
    && (!stage.CREATED? && !stage.POLICY_READY? ==> id in w.paid && w.paid[id] >= record.terms.usageCap)
    && (match stage
        case CREATED => record.state == S.CREATED
        case POLICY_READY => record.state == S.POLICY_READY
        case PAID => record.state == S.PAYMENT_READY
        case PAYMENT_SAVED => record.state == S.PAYMENT_READY
        case VERIFIED(k) => record.state == S.PAYMENT_READY && id in w.verified && w.verified[id] == k && BondMatches(w, k, record.terms)
        case BONDED(k) => record.state == S.BONDED && id in w.verified && w.verified[id] == k && BondMatches(w, k, record.terms)
        case BOND_SAVED(k) => record.state == S.BONDED && id in w.verified && w.verified[id] == k && BondMatches(w, k, record.terms) && record.bondReference == Some(k)
        case ACTIVATED => record.state == S.ACTIVE)
  }

  ghost predicate ProcessGood(w: World, pr: Process) {
    match pr
    case Creating(_, record, stage) => CreatingGood(w, record, stage)
    case Entered(t) => TaskGood(w, t)
    case Examined(t) => ExaminedGood(w, t)
    case Locked(t) => ExaminedGood(w, t)
    case Journaled(c) => CaseGood(w, c)
    case Granted(c) => CaseGood(w, c)
    case Asking(c, bond, receiptHash) =>
      && CaseGood(w, c) && c.task.sessionId in w.verified && bond == w.verified[c.task.sessionId]
      && receiptHash == c.attempt.evidence.evidenceHash && B.Authorizes(c.attempt.evidence.payload, c.request)
    case Recovering(c, penalty, refunded) => CaseGood(w, c) && AmountsTrue(w, c.task, penalty, refunded)
    case Submitted(c, tx) =>
      && CaseGood(w, c) && tx < |w.submissions| && w.submissions[tx].key == TaskKey(c.task)
      && B.Authorizes(c.attempt.evidence.payload, c.request)
    case Answered(c, result, _) =>
      && CaseGood(w, c)
      && (result.status == CONFIRMED ==> result.penalty.Some? && result.bondRefunded.Some? && AmountsTrue(w, c.task, result.penalty.value, result.bondRefunded.value))
    case Settled(t, _, amounts) => SettledGood(w, t, amounts)
    case Finalized(t, _, amounts, reservation) =>
      && SettledGood(w, t, amounts) && reservation.reservationId in w.goods.reservations
      && reservation.sessionId == w.goods.reservations[reservation.reservationId].sessionId
      && reservation.productId == w.goods.reservations[reservation.reservationId].productId
    case Finishing(t, _, amounts) => SettledGood(w, t, amounts)
    case Closing(_, record, receipt) =>
      && record.sessionId in w.sessions && w.sessions[record.sessionId] == record
      && record.tokenHash.Some? && Terminal(record.state) && record.receipt == None && receipt.outcome == record.state
      && (Bonded(record.terms) ==>
            (record.sessionId in w.verified
             && exists key | key in w.attempts :: key.sessionId == record.sessionId && ReceiptTrue(w, w.verified[record.sessionId], key, record.terms, receipt)))
  }

  ghost predicate OwnersDistinct(w: World) {
    forall p, q | p in w.processes && q in w.processes && p != q && Owns(w.processes[p]).Some? :: Owns(w.processes[p]) != Owns(w.processes[q])
  }

  ghost predicate SessionsGood(w: World) {
    forall id | id in w.sessions :: SessionGood(w, id)
  }

  ghost predicate ReservationsGood(w: World) {
    forall id | id in w.goods.reservations :: ReservationGood(w, id)
  }

  ghost predicate AttemptsGood(w: World) {
    forall key | key in w.attempts :: AttemptGood(w, key)
  }

  ghost predicate CachesGood(w: World) {
    forall a | a in w.caches :: CacheGood(w, w.caches[a])
  }

  ghost predicate SubmissionsGood(w: World) {
    forall i | 0 <= i < |w.submissions| :: SubmissionGood(w, w.submissions[i])
  }

  ghost predicate ProcessesGood(w: World) {
    forall p | p in w.processes :: ProcessGood(w, w.processes[p])
  }

  ghost predicate VerifiedKnown(w: World) {
    forall id | id in w.verified :: id in w.sessions
  }

  ghost predicate Inv(w: World) {
    && w.secret != "" && P.Good(w.chain)
    && SessionsGood(w) && ReservationsGood(w) && AttemptsGood(w) && NoncesGood(w) && CachesGood(w)
    && SubmissionsGood(w) && ProcessesGood(w) && OwnersDistinct(w) && ExitsGood(w) && VerifiedKnown(w)
  }

  /** Nothing has happened yet, on any ledger. */
  ghost predicate Initial(w: World) {
    && w.secret != "" && P.Good(w.chain) && w.chain.bonds == map[]
    && w.sessions == map[] && w.goods.reservations == map[] && w.attempts == map[] && w.nonces == map[]
    && w.caches == map[] && w.submissions == [] && w.processes == map[]
    && w.paid == map[] && w.verified == map[] && w.settledBy == map[]
  }

  // ---------------------------------------------------------------------------------
  // What no step takes back
  // ---------------------------------------------------------------------------------

  ghost predicate SessionGrows(w: World, w': World, id: string)
    requires id in w.sessions
  {
    var r := w.sessions[id];
    Live(r.state) ==>
      && id in w'.sessions && Live(w'.sessions[id].state)
      && w'.sessions[id].terms == r.terms && w'.sessions[id].bondReference == r.bondReference
      && (r.tokenHash.Some? ==> w'.sessions[id].tokenHash.Some?)
      && (id in w.paid ==> id in w'.paid && w'.paid[id] == w.paid[id])
  }

  ghost predicate Grows(w: World, w': World) {
    && w'.gateway == w.gateway && w'.secret == w.secret && P.Extends(w.chain, w'.chain)
    && (forall key | key in w.attempts :: key in w'.attempts && w'.attempts[key].key == w.attempts[key].key && w'.attempts[key].evidence == w.attempts[key].evidence)
    && (forall id | id in w.verified :: id in w'.verified && w'.verified[id] == w.verified[id])
    && (forall id | id in w.sessions :: SessionGrows(w, w', id))
    && (forall r | r in w.goods.reservations ::
          r in w'.goods.reservations && w'.goods.reservations[r].sessionId == w.goods.reservations[r].sessionId
          && w'.goods.reservations[r].productId == w.goods.reservations[r].productId)
    && |w.submissions| <= |w'.submissions|
    && (forall i | 0 <= i < |w.submissions| :: w'.submissions[i].key == w.submissions[i].key)
  }

  lemma SettledForStable(w: World, w': World, bond: Key, key: SettlementKey, penalty: nat)
    requires Grows(w, w') && SettledFor(w, bond, key, penalty)
    ensures SettledFor(w', bond, key, penalty)
  {}

  lemma ReceiptStable(w: World, w': World, id: string, bond: Key, t: S.Terms, r: S.Receipt)
    requires Grows(w, w') && exists key | key in w.attempts :: key.sessionId == id && ReceiptTrue(w, bond, key, t, r)
    ensures exists key | key in w'.attempts :: key.sessionId == id && ReceiptTrue(w', bond, key, t, r)
  {
    var key :| key in w.attempts && key.sessionId == id && ReceiptTrue(w, bond, key, t, r);
    SettledForStable(w, w', bond, key, r.penalty);
    assert key in w'.attempts && ReceiptTrue(w', bond, key, t, r);
  }

  lemma SessionStable(w: World, w': World, id: string)
    requires Grows(w, w') && id in w.sessions && SessionGood(w, id)
    requires id in w'.sessions && w'.sessions[id] == w.sessions[id]
    ensures SessionGood(w', id)
  {
    var r := w.sessions[id];
    assert SessionGrows(w, w', id);
    if r.receipt.Some? && Bonded(r.terms) {
      ReceiptStable(w, w', id, w.verified[id], r.terms, r.receipt.value);
    }
  }

  lemma AttemptStable(w: World, w': World, key: SettlementKey)
    requires Grows(w, w') && key in w.attempts && AttemptGood(w, key)
    requires SessionsGood(w)
    ensures key in w'.attempts && AttemptGood(w', key)
  {
    assert SessionGood(w, key.sessionId) && SessionGrows(w, w', key.sessionId);
  }

  lemma CacheStable(w: World, w': World, c: B.Cache)
    requires Grows(w, w') && CacheGood(w, c)
    requires AttemptsGood(w)
    requires SessionsGood(w)
    ensures CacheGood(w', c)
  {
    forall key | key in c.settledResults ensures CachedGood(w', key, c.settledResults[key]) {
      var result := c.settledResults[key];
      assert CachedGood(w, key, result) && AttemptGood(w, key);
      assert SessionGood(w, key.sessionId) && SessionGrows(w, w', key.sessionId);
      SettledForStable(w, w', w.verified[key.sessionId], key, result.penalty.value);
    }
  }

  lemma SubmissionStable(w: World, w': World, s: Submission)
    requires Grows(w, w') && SubmissionGood(w, s)
    ensures SubmissionGood(w', s)
  {
    if s.landed { SettledForStable(w, w', s.bond, s.key, w.attempts[s.key].evidence.payload.penalty); }
  }

  lemma TaskStable(w: World, w': World, t: Task)
    requires Grows(w, w') && TaskGood(w, t)
    ensures TaskGood(w', t)
    ensures ExaminedGood(w, t) ==> ExaminedGood(w', t)
  {
    assert SessionGrows(w, w', t.sessionId);
  }

  lemma AmountsStable(w: World, w': World, t: Task, penalty: nat, refunded: nat)
    requires Grows(w, w') && AmountsTrue(w, t, penalty, refunded)
    ensures AmountsTrue(w', t, penalty, refunded)
  {
    SettledForStable(w, w', w.verified[t.sessionId], TaskKey(t), penalty);
  }

  /** The part of the world that belongs to the owner of a session. */
  ghost predicate Untouched(w: World, w': World, id: string) {
    && (id in w.sessions <==> id in w'.sessions) && (id in w.sessions ==> w'.sessions[id] == w.sessions[id])
    && (id in w.verified <==> id in w'.verified)
    && (id in w.paid <==> id in w'.paid) && (id in w.paid ==> w'.paid[id] == w.paid[id])
  }

  lemma CreatingStable(w: World, w': World, record: S.SessionRecord, stage: CreationStage)
    requires Grows(w, w') && CreatingGood(w, record, stage) && Untouched(w, w', record.sessionId)
    ensures CreatingGood(w', record, stage)
  {}

  lemma CaseStable(w: World, w': World, c: Case)
    requires Grows(w, w') && CaseGood(w, c)
    ensures CaseGood(w', c)
  {
    TaskStable(w, w', c.task);
    hide ExaminedGood;
  }

  lemma TaskProcessStable(w: World, w': World, pr: Process)
    requires Grows(w, w') && ProcessGood(w, pr) && (pr.Entered? || pr.Examined? || pr.Locked?)
    ensures ProcessGood(w', pr)
  {
    hide Grows, CreatingGood, CaseGood, AmountsTrue, SettledGood, ReceiptTrue, B.Authorizes;
    TaskStable(w, w', pr.task);
  }

  lemma CaseProcessStable(w: World, w': World, pr: Process)
    requires Grows(w, w') && ProcessGood(w, pr)
    requires pr.Journaled? || pr.Granted? || pr.Asking? || pr.Submitted?
    ensures ProcessGood(w', pr)
  {
    hide CreatingGood, CaseGood, TaskGood, ExaminedGood, AmountsTrue, SettledGood, ReceiptTrue, SessionGrows, P.Extends, B.Authorizes;
    CaseStable(w, w', pr.c);
  }

  lemma AnswerStable(w: World, w': World, pr: Process)
    requires Grows(w, w') && ProcessGood(w, pr) && (pr.Recovering? || pr.Answered?)
    ensures ProcessGood(w', pr)
  {
    hide Grows, CreatingGood, CaseGood, TaskGood, ExaminedGood, AmountsTrue, SettledGood, ReceiptTrue, B.Authorizes;
    CaseStable(w, w', pr.c);
    if pr.Recovering? { AmountsStable(w, w', pr.c.task, pr.penalty, pr.bondRefunded); }
    if pr.Answered? && pr.result.status == CONFIRMED { AmountsStable(w, w', pr.c.task, pr.result.penalty.value, pr.result.bondRefunded.value); }
  }

  lemma SettledProcessStable(w: World, w': World, pr: Process)
    requires Grows(w, w') && ProcessGood(w, pr) && (pr.Settled? || pr.Finalized? || pr.Finishing?)
    ensures ProcessGood(w', pr)
  {
    hide CreatingGood, CaseGood, TaskGood, ExaminedGood, AmountsTrue, SettledGood, ReceiptTrue, SessionGrows, P.Extends, B.Authorizes;
    SettledStable(w, w', pr.task, pr.amounts);
  }

  lemma OwnerStable(w: World, w': World, pr: Process)
    requires Grows(w, w') && ProcessGood(w, pr) && (pr.Creating? || pr.Closing?) && Untouched(w, w', pr.record.sessionId)
    ensures ProcessGood(w', pr)
  {
    hide CreatingGood, CaseGood, TaskGood, ExaminedGood, AmountsTrue, SettledGood, ReceiptTrue, SessionGrows, P.Extends, B.Authorizes;
    if pr.Creating? {
      CreatingStable(w, w', pr.record, pr.stage);
    } else if Bonded(pr.record.terms) {
      ReceiptStable(w, w', pr.record.sessionId, w.verified[pr.record.sessionId], pr.record.terms, pr.receipt);
    }
  }

  lemma ProcessStable(w: World, w': World, pr: Process)
    requires Grows(w, w') && ProcessGood(w, pr)
    requires Owns(pr).Some? ==> Untouched(w, w', Owns(pr).value)
    ensures ProcessGood(w', pr)
  {
    hide Grows, ProcessGood, Untouched;
    if pr.Entered? || pr.Examined? || pr.Locked? {
      TaskProcessStable(w, w', pr);
    } else if pr.Recovering? || pr.Answered? {
      AnswerStable(w, w', pr);
    } else if pr.Settled? || pr.Finalized? || pr.Finishing? {
      SettledProcessStable(w, w', pr);
    } else if pr.Creating? || pr.Closing? {
      OwnerStable(w, w', pr);
    } else {
      CaseProcessStable(w, w', pr);
    }
  }

  lemma SettledStable(w: World, w': World, t: Task, amounts: Amounts)
    requires Grows(w, w') && SettledGood(w, t, amounts)
    ensures SettledGood(w', t, amounts)
  {
    TaskStable(w, w', t);
    if Bonded(t.session.terms) { AmountsStable(w, w', t, amounts.penalty, amounts.bondRefunded); }
  }
}
