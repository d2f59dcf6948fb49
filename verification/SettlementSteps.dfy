/** Every step of the settlement protocol keeps the invariant. */
module SettlementSteps {
  import opened Wrappers
  import opened Primitives
  import opened AdapterContract
  import opened SettlementEvidence
  import opened SettlementJournal
  import opened Settlement
  import opened SettlementInvariant
  import opened SettlementFrames
  import S = Sessions
  import V = Inventory
  import P = BondProgram
  import B = BondAdapter

  lemma PublicUnowned(w: World, acting: Option<nat>, id: string)
    requires ProcessesGood(w) && id in w.sessions && w.sessions[id].tokenHash.Some? && !Terminal(w.sessions[id].state)
    ensures Unowned(w, acting, id)
  {
    hide TaskGood, ExaminedGood, CaseGood, AmountsTrue, SettledGood, B.Authorizes;
    forall q | q in w.processes && Some(q) != acting ensures Owns(w.processes[q]) != Some(id) {
      assert ProcessGood(w, w.processes[q]);
    }
  }

  /** Steps that change sessions, caches or history only. */
  lemma GrowsBySession(w: World, w': World, touched: string)
    requires w'.gateway == w.gateway && w'.secret == w.secret && w'.chain == w.chain && w'.attempts == w.attempts
    requires w'.goods == w.goods && w'.submissions == w.submissions
    requires OnlyTouches(w, w', Some(touched))
    requires forall id | id in w.verified :: id in w'.verified && w'.verified[id] == w.verified[id]
    requires touched in w.sessions ==> SessionGrows(w, w', touched)
    ensures Grows(w, w')
  {
    forall id | id in w.sessions ensures SessionGrows(w, w', id) {
      assert id != touched ==> Untouched(w, w', id);
    }
  }

  // ---------------------------------------------------------------------------------
  // Sessions
  // ---------------------------------------------------------------------------------

  /** A session that does not exist has no owner. */
  lemma UnknownUnowned(w: World, acting: Option<nat>, id: string)
    requires ProcessesGood(w) && id !in w.sessions
    ensures Unowned(w, acting, id)
  {
    hide TaskGood, ExaminedGood, CaseGood, AmountsTrue, SettledGood, B.Authorizes;
    forall q | q in w.processes && Some(q) != acting ensures Owns(w.processes[q]) != Some(id) {
      assert ProcessGood(w, w.processes[q]);
    }
  }

  lemma CreatingIsProcess(w: World, adapter: nat, record: S.SessionRecord, stage: CreationStage)
    requires CreatingGood(w, record, stage)
    ensures ProcessGood(w, Creating(adapter, record, stage))
  {
    hide TaskGood, ExaminedGood, CaseGood, AmountsTrue, SettledGood, B.Authorizes, CreatingGood;
  }

  lemma CreateSessionLocal(w: World, p: nat, adapter: nat, id: string, terms: S.Terms)
    requires ProcessesGood(w) && VerifiedKnown(w) && DoCreateSession(w, p, adapter, id, terms).Some?
    ensures var w' := DoCreateSession(w, p, adapter, id, terms).value;
      Grows(w, w') && SameStores(w, w') && Local(w, w', Some(p), Some(id))
  {
    hide ProcessGood, ProcessesGood, Unowned;
    var w' := DoCreateSession(w, p, adapter, id, terms).value;
    UnknownUnowned(w, Some(p), id);
    GrowsBySession(w, w', id);
    CreatingIsProcess(w', adapter, FreshRecord(id, terms), CREATED);
  }

  /** Writing a public session: its identity, terms, bond, token and receipt stay. */
  lemma Rewritten(w: World, w': World, id: string, record: S.SessionRecord)
    requires id in w.sessions && SessionGood(w, id) && w.sessions[id].tokenHash.Some? && w.sessions[id].state in {S.ACTIVE, S.SETTLING}
    requires record.sessionId == id && record.terms == w.sessions[id].terms && record.bondReference == w.sessions[id].bondReference
    requires record.tokenHash == w.sessions[id].tokenHash && record.receipt == w.sessions[id].receipt && Live(record.state)
    requires w' == w.(sessions := w.sessions[id := record], processes := w'.processes)
    ensures Grows(w, w') && SameStores(w, w') && OnlyTouches(w, w', Some(id)) && SessionGood(w', id)
  {
    GrowsBySession(w, w', id);
  }

  lemma LockEffect(w: World, p: nat, now: int) returns (t: Task, t': Task, record: S.SessionRecord)
    requires DoLock(w, p, now).Some?
    ensures p in w.processes && w.processes[p] == Examined(t) && t.sessionId in w.sessions
    ensures t' == t || (t' == t.(session := record) && t.kind == CLOSE_ROUTE)
    ensures w.sessions[t.sessionId].state in {S.ACTIVE, S.SETTLING}
    ensures exists lease :: record == w.sessions[t.sessionId].(state := S.SETTLING, leaseExpiresAt := lease)
    ensures DoLock(w, p, now).value == With(w.(sessions := w.sessions[t.sessionId := record]), p, Locked(t'))
  {
    t := w.processes[p].task;
    record := if t.kind == EXPIRE_ROUTE then S.Transition(w.sessions, t.sessionId, S.ACTIVE, S.SETTLING).value
              else S.Claim(w.sessions, t.sessionId, now, LEASE_MS).value.value;
    t' := if t.kind == CLOSE_ROUTE then t.(session := record) else t;
    assert record == w.sessions[t.sessionId].(state := S.SETTLING, leaseExpiresAt := record.leaseExpiresAt);
  }

  lemma LockLocal(w: World, p: nat, now: int)
    requires DoLock(w, p, now).Some? && ProcessGood(w, w.processes[p])
    requires var id := w.processes[p].task.sessionId; SessionGood(w, id) && Unowned(w, Some(p), id)
    ensures var w' := DoLock(w, p, now).value;
      Grows(w, w') && SameStores(w, w') && Local(w, w', Some(p), Some(w.processes[p].task.sessionId))
  {
    hide CreatingGood, CaseGood, AmountsTrue, SettledGood, B.Authorizes;
    hide Unowned;
    var w' := DoLock(w, p, now).value;
    var t, t', record := LockEffect(w, p, now);
    hide DoLock;
    assert ExaminedGood(w, t);
    Rewritten(w, w', t.sessionId, record);
    hide SessionGood;
    TaskStable(w, w', t);
  }

  lemma UnlockLocal(w: World, id: string)
    requires SessionsGood(w) && ProcessesGood(w) && DoUnlock(w, id).Some?
    ensures var w' := DoUnlock(w, id).value; Grows(w, w') && SameStores(w, w') && Local(w, w', None, Some(id))
  {
    hide ProcessGood;
    var w' := DoUnlock(w, id).value;
    assert SessionGood(w, id);
    hide SessionsGood;
    PublicUnowned(w, None, id);
    Rewritten(w, w', id, w'.sessions[id]);
  }

  lemma CountLocal(w: World, id: string, request: S.Request, expected: S.SessionState)
    requires SessionsGood(w) && ProcessesGood(w) && DoCount(w, id, request, expected).Some?
    ensures var w' := DoCount(w, id, request, expected).value; Grows(w, w') && SameStores(w, w') && Local(w, w', None, Some(id))
  {
    hide ProcessGood;
    var w' := DoCount(w, id, request, expected).value;
    assert SessionGood(w, id);
    hide SessionsGood;
    PublicUnowned(w, None, id);
    Rewritten(w, w', id, w'.sessions[id]);
  }

  lemma OwnerAlone(w: World, p: nat, id: string)
    requires OwnersDistinct(w) && p in w.processes && Owns(w.processes[p]) == Some(id)
    ensures Unowned(w, Some(p), id)
  {}

  lemma StoreReceiptLocal(w: World, p: nat)
    requires DoStoreReceipt(w, p).Some? && ProcessGood(w, w.processes[p])
    requires var id := w.processes[p].record.sessionId; SessionGood(w, id) && Unowned(w, Some(p), id)
    ensures var w' := DoStoreReceipt(w, p).value;
      Grows(w, w') && SameStores(w, w') && Local(w, w', Some(p), Some(w.processes[p].record.sessionId))
  {
    hide TaskGood, ExaminedGood, CaseGood, AmountsTrue, SettledGood, B.Authorizes;
    hide Unowned;
    var w' := DoStoreReceipt(w, p).value;
    var pr := w.processes[p];
    var id := pr.record.sessionId;
    assert w' == w.(sessions := w.sessions[id := pr.record.(receipt := Some(pr.receipt))], processes := w.processes - {p});
    hide DoStoreReceipt;
    GrowsBySession(w, w', id);
    if Bonded(pr.record.terms) { ReceiptStable(w, w', id, w.verified[id], pr.record.terms, pr.receipt); }
  }

  lemma FinishEffect(w: World, p: nat) returns (t: Task, record: S.SessionRecord, receipt: S.Receipt)
    requires DoFinish(w, p).Some?
    ensures p in w.processes && w.processes[p].Finishing? && w.processes[p].task == t && t.sessionId in w.sessions
    ensures w.sessions[t.sessionId].state == S.SETTLING
    ensures record == w.sessions[t.sessionId].(state := if t.kind == CLOSE_ROUTE then S.CLOSED else S.EXPIRED, leaseExpiresAt := None)
    ensures receipt == S.Receipt(record.state, if t.kind == EXPIRY_WORKER then t.session.calls else record.calls, w.processes[p].usage, w.processes[p].amounts.bondRefunded, w.processes[p].amounts.penalty)
    ensures DoFinish(w, p).value == With(w.(sessions := w.sessions[t.sessionId := record]), p, Closing(t.adapter, record, receipt))
  {
    var pr := w.processes[p];
    t := pr.task;
    var outcome := if t.kind == CLOSE_ROUTE then S.CLOSED else S.EXPIRED;
    record := S.Transition(w.sessions, t.sessionId, S.SETTLING, outcome).value;
    receipt := S.Receipt(outcome, if t.kind == EXPIRY_WORKER then t.session.calls else record.calls, pr.usage, pr.amounts.bondRefunded, pr.amounts.penalty);
  }

  lemma FinishLocal(w: World, p: nat)
    requires DoFinish(w, p).Some? && ProcessGood(w, w.processes[p])
    requires var id := w.processes[p].task.sessionId; SessionGood(w, id) && Unowned(w, Some(p), id)
    ensures var w' := DoFinish(w, p).value;
      Grows(w, w') && SameStores(w, w') && Local(w, w', Some(p), Some(w.processes[p].task.sessionId))
  {
    hide CreatingGood, CaseGood, AmountsTrue, B.Authorizes, Unowned;
    var t, record, receipt := FinishEffect(w, p);
    hide DoFinish;
    FinishWrites(w, DoFinish(w, p).value, p, t, w.processes[p].amounts, record, receipt);
  }

  lemma FinishWrites(w: World, w': World, p: nat, t: Task, amounts: Amounts, record: S.SessionRecord, receipt: S.Receipt)
    requires t.sessionId in w.sessions && SettledGood(w, t, amounts) && SessionGood(w, t.sessionId) && Unowned(w, Some(p), t.sessionId)
    requires w.sessions[t.sessionId].state == S.SETTLING
    requires record == w.sessions[t.sessionId].(state := if t.kind == CLOSE_ROUTE then S.CLOSED else S.EXPIRED, leaseExpiresAt := None)
    requires receipt.outcome == record.state && receipt.penalty == amounts.penalty && receipt.bondRefunded == amounts.bondRefunded
    requires w' == With(w.(sessions := w.sessions[t.sessionId := record]), p, Closing(t.adapter, record, receipt))
    ensures Grows(w, w') && SameStores(w, w') && Local(w, w', Some(p), Some(t.sessionId))
  {
    hide ProcessGood, SettledGood, Unowned;
    SettlingSession(w, t.sessionId);
    Rewritten(w, w', t.sessionId, record);
    hide SessionGood;
    SettledStable(w, w', t, amounts);
    ClosingStarts(w', t, amounts, record, receipt);
    hide Grows, OnlyTouches;
  }

  lemma SettlingSession(w: World, id: string)
    requires id in w.sessions && SessionGood(w, id) && w.sessions[id].state == S.SETTLING
    ensures w.sessions[id].sessionId == id && w.sessions[id].tokenHash.Some? && w.sessions[id].receipt == None
  {}

  lemma ClosingStarts(w: World, t: Task, amounts: Amounts, record: S.SessionRecord, receipt: S.Receipt)
    requires SettledGood(w, t, amounts) && t.sessionId in w.sessions && w.sessions[t.sessionId] == record
    requires record.sessionId == t.sessionId && record.receipt == None && record.tokenHash.Some?
    requires record.state == receipt.outcome == if t.kind == CLOSE_ROUTE then S.CLOSED else S.EXPIRED
    requires receipt.penalty == amounts.penalty && receipt.bondRefunded == amounts.bondRefunded
    ensures ProcessGood(w, Closing(t.adapter, record, receipt))
  {
    hide CreatingGood, CaseGood, B.Authorizes, SessionGood;
    if Bonded(record.terms) {
      assert TaskKey(t) in w.attempts && ReceiptTrue(w, w.verified[t.sessionId], TaskKey(t), record.terms, receipt);
    }
  }

  /** What a step of session creation that goes on writes: the record, perhaps the payment. */
  lemma CreationEffect(w: World, p: nat, s: CreationStep) returns (record: S.SessionRecord, stage: CreationStage)
    requires DoCreation(w, p, s).Some? && !s.VerifyBond? && !s.SaveToken? && !s.AbortCreation?
    requires CreatingGood(w, w.processes[p].record, w.processes[p].stage)
    ensures var was := w.processes[p].record; var before := w.processes[p].stage;
      && record == was.(state := record.state, leaseExpiresAt := record.leaseExpiresAt, paymentReference := record.paymentReference, bondReference := record.bondReference)
      && (match s
          case CompilePolicy => before.CREATED? && stage.POLICY_READY? && record.state == S.POLICY_READY && record.bondReference == was.bondReference
          case VerifyPayment(limit) => before.POLICY_READY? && stage.PAID? && record.state == S.PAYMENT_READY && limit >= was.terms.usageCap
          case SavePayment(_) => before.PAID? && stage.PAYMENT_SAVED? && record.state == was.state
          case MarkBonded => before.VERIFIED? && stage == BONDED(before.bond) && record.state == S.BONDED
          case SaveBond => before.BONDED? && stage == BOND_SAVED(before.bond) && record.state == was.state && record.bondReference == Some(before.bond)
          case Activate =>
            && stage.ACTIVATED? && record.state == S.ACTIVE && record.bondReference == was.bondReference
            && (before.BOND_SAVED? || (before.PAYMENT_SAVED? && !Bonded(was.terms)))
          case _ => false)
    ensures DoCreation(w, p, s).value ==
            w.(sessions := w.sessions[w.processes[p].record.sessionId := record],
               paid := if s.VerifyPayment? then w.paid[w.processes[p].record.sessionId := s.limit] else w.paid,
               processes := w.processes[p := Creating(w.processes[p].adapter, record, stage)])
  {
    var w' := DoCreation(w, p, s).value;
    record, stage := w'.processes[p].record, w'.processes[p].stage;
  }

  /** A creating process moves its session on and keeps the stored record as its copy. */
  lemma CreatorWrites(w: World, w': World, p: nat, record: S.SessionRecord, stage: CreationStage)
    requires p in w.processes && w.processes[p].Creating? && CreatingGood(w, w.processes[p].record, w.processes[p].stage)
    requires w.processes[p].record.sessionId == record.sessionId && record.terms == w.processes[p].record.terms
    requires Unowned(w, Some(p), record.sessionId) && SessionGood(w, record.sessionId)
    requires w' == w.(sessions := w.sessions[record.sessionId := record], paid := w'.paid,
                      processes := w.processes[p := Creating(w.processes[p].adapter, record, stage)])
    requires w.processes[p].stage != ACTIVATED && CreatingGood(w', record, stage)
    requires forall id | id != record.sessionId :: (id in w.paid <==> id in w'.paid) && (id in w.paid ==> w'.paid[id] == w.paid[id])
    requires Live(record.state) && Bonded(record.terms) ==> w.processes[p].stage.BOND_SAVED? && record.bondReference == w.processes[p].record.bondReference
    ensures Grows(w, w') && SameStores(w, w') && Local(w, w', Some(p), Some(record.sessionId))
  {
    hide Unowned, ProcessGood;
    CreatingIsProcess(w', w.processes[p].adapter, record, stage);
    CreatorSession(w, w', p, record, stage);
    GrowsBySession(w, w', record.sessionId);
    hide CreatingGood, SessionGood, Grows;
  }

  lemma CreatorSession(w: World, w': World, p: nat, record: S.SessionRecord, stage: CreationStage)
    requires p in w.processes && w.processes[p].Creating? && CreatingGood(w, w.processes[p].record, w.processes[p].stage)
    requires w.processes[p].record.sessionId == record.sessionId && record.terms == w.processes[p].record.terms
    requires SessionGood(w, record.sessionId) && w.processes[p].stage != ACTIVATED && CreatingGood(w', record, stage)
    requires w'.verified == w.verified && w'.chain == w.chain
    requires Live(record.state) && Bonded(record.terms) ==> w.processes[p].stage.BOND_SAVED? && record.bondReference == w.processes[p].record.bondReference
    ensures SessionGood(w', record.sessionId) && SessionGrows(w, w', record.sessionId)
  {}

  ghost predicate CreatorReady(w: World, p: nat) {
    && p in w.processes && w.processes[p].Creating? && CreatingGood(w, w.processes[p].record, w.processes[p].stage)
    && var id := w.processes[p].record.sessionId; SessionGood(w, id) && Unowned(w, Some(p), id)
  }

  lemma CreatorIsReady(w: World, p: nat)
    requires SessionsGood(w) && ProcessesGood(w) && OwnersDistinct(w) && p in w.processes && w.processes[p].Creating?
    ensures CreatorReady(w, p)
  {
    hide TaskGood, ExaminedGood, CaseGood, AmountsTrue, SettledGood, B.Authorizes;
    assert ProcessGood(w, w.processes[p]) && SessionGood(w, w.processes[p].record.sessionId);
    OwnerAlone(w, p, w.processes[p].record.sessionId);
  }

  lemma CreationStored(w: World, p: nat, s: CreationStep) returns (record: S.SessionRecord, stage: CreationStage)
    requires CreatorReady(w, p) && DoCreation(w, p, s).Some? && !s.VerifyBond? && !s.SaveToken? && !s.AbortCreation?
    ensures var w', pr := DoCreation(w, p, s).value, w.processes[p];
      && CreatingGood(w', record, stage) && pr.stage != ACTIVATED
      && pr.record.sessionId == record.sessionId && record.terms == pr.record.terms
      && (Live(record.state) && Bonded(record.terms) ==> pr.stage.BOND_SAVED? && record.bondReference == pr.record.bondReference)
      && w' == w.(sessions := w.sessions[record.sessionId := record], paid := w'.paid, processes := w.processes[p := Creating(pr.adapter, record, stage)])
      && (forall id | id != record.sessionId :: (id in w.paid <==> id in w'.paid) && (id in w.paid ==> w'.paid[id] == w.paid[id]))
  {
    hide Unowned, SessionGood;
    record, stage := CreationEffect(w, p, s);
    hide DoCreation;
  }

  lemma CreationLocal(w: World, p: nat, s: CreationStep)
    requires CreatorReady(w, p) && DoCreation(w, p, s).Some? && !s.VerifyBond? && !s.SaveToken? && !s.AbortCreation?
    ensures var w' := DoCreation(w, p, s).value;
      Grows(w, w') && SameStores(w, w') && Local(w, w', Some(p), Some(w.processes[p].record.sessionId))
  {
    var record, stage := CreationStored(w, p, s);
    hide DoCreation, SessionGood, Unowned, CreatingGood, Grows, Local, SameStores;
    CreatorWrites(w, DoCreation(w, p, s).value, p, record, stage);
  }

  lemma SaveTokenLocal(w: World, p: nat, tokenHash: Hash)
    requires CreatorReady(w, p) && DoCreation(w, p, SaveToken(tokenHash)).Some?
    ensures var w' := DoCreation(w, p, SaveToken(tokenHash)).value;
      Grows(w, w') && SameStores(w, w') && Local(w, w', Some(p), Some(w.processes[p].record.sessionId))
  {
    hide TaskGood, ExaminedGood, CaseGood, AmountsTrue, SettledGood, B.Authorizes;
    hide Unowned;
    var w' := DoCreation(w, p, SaveToken(tokenHash)).value;
    var record := w.processes[p].record;
    assert w' == w.(sessions := w.sessions[record.sessionId := record.(tokenHash := Some(tokenHash))], processes := w.processes - {p});
    assert w.processes[p].stage.ACTIVATED?;
    hide DoCreation;
    GrowsBySession(w, w', record.sessionId);
  }

  lemma AbortLocal(w: World, p: nat)
    requires CreatorReady(w, p) && DoCreation(w, p, AbortCreation).Some?
    ensures var w' := DoCreation(w, p, AbortCreation).value;
      Grows(w, w') && SameStores(w, w') && Local(w, w', Some(p), Some(w.processes[p].record.sessionId))
      && w.processes[p].record.sessionId !in w.verified
  {
    hide TaskGood, ExaminedGood, CaseGood, AmountsTrue, SettledGood, B.Authorizes;
    hide Unowned;
    var w' := DoCreation(w, p, AbortCreation).value;
    var id := w.processes[p].record.sessionId;
    assert w' == w.(sessions := w.sessions - {id}, processes := w.processes - {p});
    assert w.processes[p].stage.POLICY_READY? || w.processes[p].stage.PAYMENT_SAVED?;
    hide DoCreation;
    GrowsBySession(w, w', id);
  }

  // ---------------------------------------------------------------------------------
  // Steps that only change where a process stands
  // ---------------------------------------------------------------------------------

  lemma KeepEnter(w: World, p: nat, kind: Kind, adapter: nat, id: string, reservation: string)
    requires Inv(w) && DoEnter(w, p, kind, adapter, id, reservation).Some?
    ensures var w' := DoEnter(w, p, kind, adapter, id, reservation).value; Inv(w') && Grows(w, w')
  {
    hide Inv, CreatingGood, ExaminedGood, CaseGood, AmountsTrue, SettledGood, B.Authorizes;
    ProcessStepKeeps(w, DoEnter(w, p, kind, adapter, id, reservation).value, p);
  }

  lemma ProcessFact(w: World, p: nat)
    requires Inv(w) && p in w.processes
    ensures ProcessGood(w, w.processes[p])
  {
    hide SessionGood, ProcessGood, CacheGood, AttemptGood, SubmissionGood, ReservationGood, NoncesGood, ExitsGood, OwnersDistinct, P.Good;
  }

  lemma ReservationFact(w: World, r: string)
    requires Inv(w) && r in w.goods.reservations
    ensures ReservationGood(w, r)
  {
    hide SessionGood, ProcessGood, CacheGood, AttemptGood, SubmissionGood, ReservationGood, NoncesGood, ExitsGood, OwnersDistinct, P.Good;
  }

  lemma ExaminedIsGood(w: World, p: nat, now: int)
    requires DoExamine(w, p, now).Some? && ProcessGood(w, w.processes[p])
    requires var t := w.processes[p].task; t.kind != CLOSE_ROUTE ==> ReservationGood(w, t.reservationId)
    ensures DoExamine(w, p, now).value == With(w, p, Examined(w.processes[p].task)) && ExaminedGood(w, w.processes[p].task)
  {
    hide CreatingGood, CaseGood, AmountsTrue, SettledGood, B.Authorizes, V.HasActive, V.ReservationId;
  }

  lemma KeepExamine(w: World, p: nat, now: int)
    requires Inv(w) && DoExamine(w, p, now).Some?
    ensures var w' := DoExamine(w, p, now).value; Inv(w') && Grows(w, w')
  {
    hide Inv, ExaminedGood, ProcessGood, ReservationGood;
    ProcessFact(w, p);
    if w.processes[p].task.kind != CLOSE_ROUTE { ReservationFact(w, w.processes[p].task.reservationId); }
    ExaminedIsGood(w, p, now);
    hide DoExamine;
    IdleProcess(w, w.processes[p].task);
    ProcessStepKeeps(w, DoExamine(w, p, now).value, p);
  }

  lemma IdleProcess(w: World, t: Task)
    requires ExaminedGood(w, t)
    ensures ProcessGood(w, Examined(t)) && ProcessGood(w, Locked(t))
  {
    hide CreatingGood, CaseGood, AmountsTrue, SettledGood, B.Authorizes;
  }

  lemma KeepSkipBond(w: World, p: nat, usage: nat)
    requires Inv(w) && DoSkipBond(w, p, usage).Some?
    ensures var w' := DoSkipBond(w, p, usage).value; Inv(w') && Grows(w, w')
  {
    hide Inv;
    ProcessFact(w, p);
    ProcessStepKeeps(w, DoSkipBond(w, p, usage).value, p);
  }

  lemma KeepLoseResponse(w: World, p: nat, code: FailureCode)
    requires Inv(w) && DoLoseResponse(w, p, code).Some?
    ensures var w' := DoLoseResponse(w, p, code).value; Inv(w') && Grows(w, w')
  {
    hide Inv;
    ProcessFact(w, p);
    ProcessStepKeeps(w, DoLoseResponse(w, p, code).value, p);
  }

  lemma ValidateEffect(w: World, p: nat) returns (amounts: Amounts)
    requires DoValidate(w, p).Some?
    ensures w.processes[p].Answered? && w.processes[p].result.status == CONFIRMED
    ensures w.processes[p].result.penalty == Some(amounts.penalty) && w.processes[p].result.bondRefunded == Some(amounts.bondRefunded)
    ensures DoValidate(w, p).value == With(w, p, Settled(w.processes[p].c.task, w.processes[p].c.usage, amounts))
  {
    amounts := DoValidate(w, p).value.processes[p].amounts;
  }

  lemma KeepValidate(w: World, p: nat)
    requires Inv(w) && DoValidate(w, p).Some?
    ensures var w' := DoValidate(w, p).value; Inv(w') && Grows(w, w')
  {
    hide Inv;
    ProcessFact(w, p);
    var w' := DoValidate(w, p).value;
    var amounts := ValidateEffect(w, p);
    hide DoValidate;
    ProcessStepKeeps(w, w', p);
  }

  lemma KeepCrash(w: World, p: nat)
    requires Inv(w)
    ensures var w' := w.(processes := w.processes - {p}); Inv(w') && Grows(w, w')
  {
    hide Inv;
    ProcessStepKeeps(w, w.(processes := w.processes - {p}), p);
  }

  lemma KeepRestart(w: World, adapter: nat)
    requires Inv(w)
    ensures Inv(DoRestart(w, adapter)) && Grows(w, DoRestart(w, adapter))
  {
    var w' := DoRestart(w, adapter);
    hide SessionGood, ProcessGood, CacheGood, AttemptGood, SubmissionGood, ReservationGood, NoncesGood, ExitsGood, OwnersDistinct;
    GrowsIfSameSessions(w, w');
    CachesKept(w, w', None);
    StoresKept(w, w');
    StoreStepKeeps(w, w', None);
  }

  // ---------------------------------------------------------------------------------
  // The journal and the nonces
  // ---------------------------------------------------------------------------------

  /** A key whose nonce is that of a journalled attempt is that attempt's, because a
      reservation has one owner. */
  lemma NonceDetermines(w: World, j: SettlementKey, k: SettlementKey)
    requires j in w.attempts && AttemptGood(w, j) && B.NonceOf(j) == B.NonceOf(k)
    requires k.ExpiryKey? ==> Owned(w, k.sessionId, k.reservationId)
    ensures j == k
  {
    hide EvidenceHash;
  }

  ghost predicate JournalReady(w: World, t: Task) {
    && ExaminedGood(w, t) && SessionGood(w, t.sessionId) && Bonded(t.session.terms)
  }

  lemma PenaltyWithinBond(t: Task)
    requires ValidTerms(t.session.terms) && Bonded(t.session.terms)
    ensures TaskPenalty(t) <= t.session.terms.maxPenalty <= t.session.terms.bondAmount
  {
    if FindAction(t.session.terms.bondedActions).Some? { FoundIsListed(t.session.terms.bondedActions); }
  }

  lemma {:induction false} FoundIsListed(actions: seq<S.BondedAction>)
    requires FindAction(actions).Some?
    ensures FindAction(actions).value in actions
  {
    if actions[0].operationId != "reserve-inventory" { FoundIsListed(actions[1..]); }
  }

  ghost predicate IsFirstReserve(actions: seq<S.BondedAction>, i: nat) {
    && i < |actions| && actions[i].operationId == "reserve-inventory"
    && forall j | 0 <= j < i :: actions[j].operationId != "reserve-inventory"
  }

  lemma {:induction false} FoundIsFirst(actions: seq<S.BondedAction>)
    ensures match FindAction(actions)
      case None => forall j | 0 <= j < |actions| :: actions[j].operationId != "reserve-inventory"
      case Some(a) => exists i: nat :: IsFirstReserve(actions, i) && actions[i] == a
  {
    if actions != [] {
      var tail := actions[1..];
      if actions[0].operationId == "reserve-inventory" {
        assert IsFirstReserve(actions, 0);
      } else {
        FoundIsFirst(tail);
        if FindAction(tail).Some? {
          var i: nat :| IsFirstReserve(tail, i) && tail[i] == FindAction(tail).value;
          assert forall j | 0 < j < i + 1 :: actions[j] == tail[j - 1];
          assert IsFirstReserve(actions, i + 1);
        } else {
          assert forall j | 0 < j < |actions| :: actions[j] == tail[j - 1];
        }
      }
    }
  }

  /** The penalty a process asks for: none to close, that of the first bonded action on the expire
      route, and that of the first one on reservations for the worker, if there is one. */
  lemma PenaltyExact(t: Task, i: nat)
    requires Bonded(t.session.terms)
    ensures var actions := t.session.terms.bondedActions;
      && (t.kind == CLOSE_ROUTE ==> TaskPenalty(t) == 0)
      && (t.kind == EXPIRE_ROUTE ==> TaskPenalty(t) == actions[0].expiryPenalty)
      && (t.kind == EXPIRY_WORKER && IsFirstReserve(actions, i) ==> TaskPenalty(t) == actions[i].expiryPenalty)
      && (t.kind == EXPIRY_WORKER && (forall j | 0 <= j < |actions| :: actions[j].operationId != "reserve-inventory") ==> TaskPenalty(t) == actions[0].expiryPenalty)
  {
    FoundIsFirst(t.session.terms.bondedActions);
  }

  lemma NewAttemptGood(w: World, w': World, t: Task, attempt: Attempt, usage: nat, issuedAt: string, authority: string)
    requires JournalReady(w, t) && w.secret != ""
    requires attempt.key == TaskKey(t) && Some(attempt.evidence) == CreateEvidence(NewPayload(t, usage, issuedAt, authority), w.secret)
    requires w' == w.(attempts := w.attempts[TaskKey(t) := attempt], processes := w'.processes)
    ensures AttemptGood(w', TaskKey(t))
  {
    hide EvidenceHash;
    PenaltyWithinBond(t);
  }

  lemma NewAttemptNonces(w: World, w': World, k: SettlementKey, attempt: Attempt)
    requires NoncesGood(w) && B.NonceOf(k) !in w.nonces
    requires w' == w.(attempts := w.attempts[k := attempt], processes := w'.processes)
    ensures NoncesGood(w')
  {
    forall n | n in w.nonces ensures NonceOfAny(w'.attempts.Keys, n) {
      var key :| key in w.attempts.Keys && B.NonceOf(key) == n;
      assert key in w'.attempts.Keys;
    }
  }

  lemma NonceFresh(w: World, t: Task)
    requires NoncesGood(w) && AttemptsGood(w) && ExaminedGood(w, t) && TaskKey(t) !in w.attempts
    ensures B.NonceOf(TaskKey(t)) !in w.nonces
  {
    hide AttemptGood, TaskGood;
    if B.NonceOf(TaskKey(t)) in w.nonces {
      var key :| key in w.attempts.Keys && B.NonceOf(key) == B.NonceOf(TaskKey(t));
      NonceDetermines(w, key, TaskKey(t));
    }
  }

  lemma JournalEffect(w: World, p: nat, usage: nat, issuedAt: string, authority: string, now: int) returns (attempt: Attempt, stored: Attempt)
    requires DoJournal(w, p, usage, issuedAt, authority, now).Some?
    ensures p in w.processes && w.processes[p].Locked? && Bonded(w.processes[p].task.session.terms)
    ensures var t := w.processes[p].task;
      && attempt.key == TaskKey(t) && Some(attempt.evidence) == CreateEvidence(NewPayload(t, usage, issuedAt, authority), w.secret)
      && stored == (if TaskKey(t) in w.attempts then w.attempts[TaskKey(t)] else attempt)
      && DoJournal(w, p, usage, issuedAt, authority, now).value ==
         With(w.(attempts := w.attempts[TaskKey(t) := stored]), p, Journaled(Case(t, usage, stored, NewRequest(t, stored.evidence))))
  {
    var t := w.processes[p].task;
    attempt := Attempt(TaskKey(t), CreateEvidence(NewPayload(t, usage, issuedAt, authority), w.secret).value, PENDING, true, None, None, now, now);
    stored := Create(w.attempts, attempt)[TaskKey(t)];
    assert Create(w.attempts, attempt) == w.attempts[TaskKey(t) := stored];
  }

  lemma JournalFacts(w: World, p: nat)
    requires Inv(w) && p in w.processes && w.processes[p].Locked? && Bonded(w.processes[p].task.session.terms)
    ensures var t := w.processes[p].task; JournalReady(w, t) && (TaskKey(t) in w.attempts ==> w.attempts[TaskKey(t)].key == TaskKey(t))
  {
    hide Inv;
    ProcessFact(w, p);
    SessionFact(w, w.processes[p].task.sessionId);
    if TaskKey(w.processes[p].task) in w.attempts { AttemptFact(w, TaskKey(w.processes[p].task)); }
    hide SessionGood, EvidenceHash;
  }

  lemma SessionFact(w: World, id: string)
    requires Inv(w) && id in w.sessions
    ensures SessionGood(w, id)
  {
    hide SessionGood, ProcessGood, CacheGood, AttemptGood, SubmissionGood, ReservationGood, NoncesGood, ExitsGood, OwnersDistinct, P.Good;
  }

  lemma AttemptFact(w: World, key: SettlementKey)
    requires Inv(w) && key in w.attempts
    ensures AttemptGood(w, key)
  {
    hide SessionGood, ProcessGood, CacheGood, AttemptGood, SubmissionGood, ReservationGood, NoncesGood, ExitsGood, OwnersDistinct, P.Good;
  }

  lemma KeepJournal(w: World, p: nat, usage: nat, issuedAt: string, authority: string, now: int)
    requires Inv(w) && DoJournal(w, p, usage, issuedAt, authority, now).Some?
    ensures var w' := DoJournal(w, p, usage, issuedAt, authority, now).value; Inv(w') && Grows(w, w')
  {
    hide Inv, JournalReady, CreateEvidence, NewPayload, NewRequest;
    var attempt, stored := JournalEffect(w, p, usage, issuedAt, authority, now);
    hide DoJournal;
    JournalFacts(w, p);
    JournalKeeps(w, DoJournal(w, p, usage, issuedAt, authority, now).value, p, w.processes[p].task, attempt, stored, usage, issuedAt, authority);
  }

  lemma CaseIsProcess(w: World, c: Case)
    requires CaseGood(w, c)
    ensures ProcessGood(w, Journaled(c)) && ProcessGood(w, Granted(c))
  {
    hide CaseGood, TaskGood, SettledGood, CreatingGood, AmountsTrue, B.Authorizes;
  }

  lemma JournalStores(w: World, w': World, t: Task, attempt: Attempt, usage: nat, issuedAt: string, authority: string)
    requires Inv(w) && JournalReady(w, t) && TaskKey(t) !in w.attempts
    requires attempt.key == TaskKey(t) && Some(attempt.evidence) == CreateEvidence(NewPayload(t, usage, issuedAt, authority), w.secret)
    requires w' == w.(attempts := w.attempts[TaskKey(t) := attempt], processes := w'.processes)
    ensures AttemptGood(w', TaskKey(t)) && NoncesGood(w')
  {
    hide SessionGood, ProcessGood, CacheGood, AttemptGood, SubmissionGood, ReservationGood, NoncesGood, ExitsGood, OwnersDistinct, P.Good;
    hide CreateEvidence, NewPayload, TaskGood;
    NewAttemptGood(w, w', t, attempt, usage, issuedAt, authority);
    NonceFresh(w, t);
    NewAttemptNonces(w, w', TaskKey(t), attempt);
  }

  /** An attempt that was there stays; one that was not is good. */
  lemma JournalKeeps(w: World, w': World, p: nat, t: Task, attempt: Attempt, stored: Attempt, usage: nat, issuedAt: string, authority: string)
    requires Inv(w) && JournalReady(w, t)
    requires attempt.key == TaskKey(t) && Some(attempt.evidence) == CreateEvidence(NewPayload(t, usage, issuedAt, authority), w.secret)
    requires stored == (if TaskKey(t) in w.attempts then w.attempts[TaskKey(t)] else attempt) && stored.key == TaskKey(t)
    requires w' == With(w.(attempts := w.attempts[TaskKey(t) := stored]), p, Journaled(Case(t, usage, stored, NewRequest(t, stored.evidence))))
    ensures Inv(w') && Grows(w, w')
  {
    hide Inv, ProcessGood, AttemptGood, NoncesGood, SessionGood, CreateEvidence, NewPayload, NewRequest, TaskGood;
    if TaskKey(t) in w.attempts {
      assert w'.attempts == w.attempts;
    } else {
      JournalStores(w, w', t, attempt, usage, issuedAt, authority);
    }
    GrowsIfSameSessions(w, w');
    TaskStable(w, w', t);
    CaseIsProcess(w', Case(t, usage, stored, NewRequest(t, stored.evidence)));
    hide Grows, ExaminedGood;
    NewAttemptStepKeeps(w, w', p, TaskKey(t));
  }

  lemma KeepGrantNonce(w: World, p: nat)
    requires Inv(w) && DoGrantNonce(w, p).Some?
    ensures var w' := DoGrantNonce(w, p).value; Inv(w') && Grows(w, w')
  {
    hide Inv;
    ProcessFact(w, p);
    var w' := DoGrantNonce(w, p).value;
    var c := w.processes[p].c;
    assert w' == With(w.(nonces := ClaimNonce(w.nonces, c.attempt.evidence.payload.nonce, c.attempt.evidence.evidenceHash)), p, Granted(c));
    hide DoGrantNonce;
    NonceStepKeeps(w, w', p, c);
  }

  lemma NonceStepKeeps(w: World, w': World, p: nat, c: Case)
    requires Inv(w) && CaseGood(w, c)
    requires w' == With(w.(nonces := ClaimNonce(w.nonces, c.attempt.evidence.payload.nonce, c.attempt.evidence.evidenceHash)), p, Granted(c))
    ensures Inv(w') && Grows(w, w')
  {
    hide SessionGood, ProcessGood, CacheGood, AttemptGood, SubmissionGood, ReservationGood, NoncesGood, ExitsGood, OwnersDistinct;
    ClaimKeepsNonces(w, w', c);
    GrowsIfSameSessions(w, w');
    StoresKept(w, w');
    TaskStable(w, w', c.task);
    CaseIsProcess(w', c);
    StoreStepKeeps(w, w', Some(p));
  }

  lemma NonceOfAttempt(w: World, k: SettlementKey)
    requires k in w.attempts && AttemptGood(w, k)
    ensures w.attempts[k].evidence.payload.nonce == B.NonceOf(k)
  {
    hide EvidenceHash;
  }

  lemma ClaimKeepsNonces(w: World, w': World, c: Case)
    requires NoncesGood(w) && AttemptsGood(w) && CaseGood(w, c)
    requires w' == w.(nonces := ClaimNonce(w.nonces, c.attempt.evidence.payload.nonce, c.attempt.evidence.evidenceHash), processes := w'.processes)
    ensures NoncesGood(w')
  {
    hide AttemptGood, TaskGood;
    var k := TaskKey(c.task);
    NonceOfAttempt(w, k);
    assert k in w.attempts.Keys;
    forall key | key in w.attempts && B.NonceOf(key) == B.NonceOf(k) ensures key == k {
      NonceDetermines(w, key, k);
    }
    hide AttemptsGood, CaseGood;
  }

  // ---------------------------------------------------------------------------------
  // The adapter
  // ---------------------------------------------------------------------------------

  /** What is known of a case: its journal entry, its session, its reservation. */
  ghost predicate CaseReady(w: World, c: Case) {
    CaseGood(w, c) && AttemptGood(w, TaskKey(c.task)) && SessionGood(w, c.task.sessionId)
  }

  lemma CaseIsReady(w: World, c: Case)
    requires Inv(w) && CaseGood(w, c)
    ensures CaseReady(w, c) && P.Good(w.chain) && CachesGood(w)
  {
    hide SessionGood, ProcessGood, CacheGood, AttemptGood, SubmissionGood, ReservationGood, NoncesGood, ExitsGood, OwnersDistinct, P.Good;
  }

  lemma RequestIsTask(w: World, c: Case)
    requires CaseReady(w, c)
    ensures B.KeyOf(c.request) == TaskKey(c.task) && c.request.evidence == Some(c.attempt.evidence)
    ensures c.task.sessionId in w.verified && c.request.bondAccount == Some(w.verified[c.task.sessionId])
    ensures BondMatches(w, w.verified[c.task.sessionId], c.task.session.terms)
    ensures c.request.policyHash == c.task.session.terms.policyHash
    ensures c.request.CloseRequest? <==> TaskKey(c.task).CloseKey?
    ensures B.Authorizes(c.attempt.evidence.payload, c.request) ==>
      && c.attempt.evidence.payload.penalty == B.PenaltyOf(c.request)
      && B.PenaltyOf(c.request) + B.RefundOf(c.request) == c.task.session.terms.bondAmount
  {
    hide EvidenceHash;
  }

  lemma CacheOfGood(w: World, a: nat)
    requires CachesGood(w)
    ensures CacheGood(w, CacheOf(w, a))
  {}

  lemma RememberedIsTrue(w: World, cache: B.Cache, c: Case)
    requires CaseReady(w, c) && CacheGood(w, cache) && TaskKey(c.task) in cache.settledResults
    ensures forall n :: ProcessGood(w, Answered(c, cache.settledResults[TaskKey(c.task)], n))
  {
    hide EvidenceHash, CreatingGood, SettledGood;
    assert CachedGood(w, TaskKey(c.task), cache.settledResults[TaskKey(c.task)]);
  }

  lemma BeginEffect(cache: B.Cache, secret: string, q: B.Request, verified: Key)
    requires q.bondAccount == Some(verified) && (q.sessionId in cache.sessions ==> cache.sessions[q.sessionId] == verified)
    requires B.KeyOf(q) !in cache.settledResults
    ensures var (begun, cache') := B.Begin(cache, secret, q);
      && (cache' == cache || cache' == cache.(sessions := cache.sessions[q.sessionId := verified]))
      && (match begun
          case Answer(result) => result.status == FAILED
          case Ask(bond, receiptHash) => bond == verified && q.evidence.Some? && receiptHash == q.evidence.value.evidenceHash && B.Authorizes(q.evidence.value.payload, q))
  {
    hide B.Authorizes;
  }

  lemma AskingGood(w: World, c: Case, bond: Key, receiptHash: Hash)
    requires CaseGood(w, c) && c.task.sessionId in w.verified && bond == w.verified[c.task.sessionId]
    requires receiptHash == c.attempt.evidence.evidenceHash && B.Authorizes(c.attempt.evidence.payload, c.request)
    ensures ProcessGood(w, Asking(c, bond, receiptHash))
  {
    hide CaseGood, CreatingGood, SettledGood, TaskGood, ExaminedGood, AmountsTrue, B.Authorizes;
  }

  /** The call begins: a cached answer is true, and otherwise the account asked for is the
      bond verified for the session, with evidence that authorises the request. */
  lemma BeginGood(w: World, cache: B.Cache, secret: string, c: Case)
    requires CaseReady(w, c) && CacheGood(w, cache)
    ensures var (begun, cache') := B.Begin(cache, secret, c.request);
      && CacheGood(w, cache')
      && (match begun
          case Answer(result) => forall n :: ProcessGood(w, Answered(c, result, n))
          case Ask(bond, receiptHash) => ProcessGood(w, Asking(c, bond, receiptHash)))
  {
    hide ProcessGood, EvidenceHash, VerifyEvidence, B.Authorizes, AttemptGood, SessionGood, TaskGood;
    RequestIsTask(w, c);
    if TaskKey(c.task) in cache.settledResults {
      RememberedIsTrue(w, cache, c);
      hide CaseReady;
    } else {
      assert c.request.sessionId == c.task.sessionId;
      assert CaseGood(w, c);
      hide CaseReady, CaseGood;
      BeginEffect(cache, secret, c.request, w.verified[c.task.sessionId]);
      var begun := B.Begin(cache, secret, c.request).0;
      hide B.Begin, CachedGood;
      if begun.Answer? { AnsweredGood(w, c, begun.result); } else { AskingGood(w, c, begun.bond, begun.receiptHash); }
    }
  }

  function After(c: Case, begun: B.Begun): Process {
    match begun
    case Answer(result) => Answered(c, result, 2)
    case Ask(bond, receiptHash) => Asking(c, bond, receiptHash)
  }

  lemma BeginCallEffect(w: World, p: nat, secret: string)
    requires DoBeginCall(w, p, secret).Some?
    ensures p in w.processes && w.processes[p].Granted?
    ensures var c := w.processes[p].c;
      var (begun, cache) := B.Begin(CacheOf(w, c.task.adapter), secret, c.request);
      DoBeginCall(w, p, secret).value == With(w.(caches := w.caches[c.task.adapter := cache]), p, After(c, begun))
  {
    hide B.Begin, CacheOf;
  }

  lemma BeginKeeps(w: World, w': World, p: nat, c: Case, secret: string)
    requires Inv(w) && CaseGood(w, c)
    requires var (begun, cache) := B.Begin(CacheOf(w, c.task.adapter), secret, c.request);
      w' == With(w.(caches := w.caches[c.task.adapter := cache]), p, After(c, begun))
    ensures Inv(w') && Grows(w, w')
  {
    hide EvidenceHash, VerifyEvidence, AttemptGood, SessionGood, TaskGood;
    hide Inv, B.Begin;
    CaseIsReady(w, c);
    CacheOfGood(w, c.task.adapter);
    hide CaseReady, CaseGood, CacheGood, CachesGood;
    var (begun, cache) := B.Begin(CacheOf(w, c.task.adapter), secret, c.request);
    BeginGood(w, CacheOf(w, c.task.adapter), secret, c);
    hide ProcessGood, CacheOf;
    CacheStepKeeps(w, w', p, c.task.adapter, cache);
  }

  lemma KeepBeginCall(w: World, p: nat, secret: string)
    requires Inv(w) && DoBeginCall(w, p, secret).Some?
    ensures var w' := DoBeginCall(w, p, secret).value; Inv(w') && Grows(w, w')
  {
    hide Inv, B.Begin, CacheOf, After;
    BeginCallEffect(w, p, secret);
    hide DoBeginCall;
    ProcessFact(w, p);
    hide CaseGood;
    BeginKeeps(w, DoBeginCall(w, p, secret).value, p, w.processes[p].c, secret);
  }

  /** A recovery is reported only for a bond that has ended as the journal entry asked. */
  lemma RecoverTrue(w: World, c: Case, bond: Key, receiptHash: Hash, reachable: bool)
    requires CaseReady(w, c) && P.Good(w.chain) && ProcessGood(w, Asking(c, bond, receiptHash))
    ensures match B.Decide(c.request, receiptHash, FetchFrom(w.chain, bond, reachable))
      case Reply(result) => result.status == FAILED
      case Recover(penalty, refunded) => AmountsTrue(w, c.task, penalty, refunded)
      case Submit => bond in w.chain.bonds
  {
    hide EvidenceHash, CreatingGood, SettledGood;
    RequestIsTask(w, c);
    assert P.GoodBond(w.chain, bond);
  }

  lemma SubmitGood(w: World, c: Case, bond: Key, receiptHash: Hash)
    requires CaseReady(w, c) && ProcessGood(w, Asking(c, bond, receiptHash)) && bond in w.chain.bonds && B.PenaltyOf(c.request) <= U64_MAX
    ensures SubmissionGood(w, Submission(TaskKey(c.task), bond, SettlementInstruction(w.gateway, bond, w.chain.bonds[bond], c.request, receiptHash), false))
  {
    hide EvidenceHash, CreatingGood, SettledGood;
    RequestIsTask(w, c);
  }

  lemma SubmissionStepKeeps(w: World, w': World, p: nat, s: Submission)
    requires Inv(w) && SubmissionGood(w, s)
    requires p in w'.processes && w' == With(w.(submissions := w.submissions + [s]), p, w'.processes[p])
    requires Owns(w'.processes[p]) == None && ProcessGood(w', w'.processes[p])
    ensures Inv(w') && Grows(w, w')
  {
    hide SessionGood, ProcessGood, CacheGood, AttemptGood, SubmissionGood, ReservationGood, NoncesGood, ExitsGood, OwnersDistinct;
    assert Grows(w, w');
    SubmissionStable(w, w', s);
    SubmissionsKept(w, w', Some(|w.submissions|));
    StoresKept(w, w');
    StoreStepKeeps(w, w', Some(p));
  }

  lemma FetchEffect(w: World, p: nat, reachable: bool)
    requires DoFetch(w, p, reachable).Some?
    ensures p in w.processes && w.processes[p].Asking?
    ensures var pr := w.processes[p];
      var w' := DoFetch(w, p, reachable).value;
      match B.Decide(pr.c.request, pr.receiptHash, FetchFrom(w.chain, pr.bond, reachable))
      case Reply(result) => w' == With(w, p, Answered(pr.c, result, 2))
      case Recover(penalty, refunded) => w' == With(w, p, Recovering(pr.c, penalty, refunded))
      case Submit =>
        && B.PenaltyOf(pr.c.request) <= U64_MAX && pr.bond in w.chain.bonds
        && w' == With(w.(submissions := w.submissions + [Submission(TaskKey(pr.c.task), pr.bond,
                   SettlementInstruction(w.gateway, pr.bond, w.chain.bonds[pr.bond], pr.c.request, pr.receiptHash), false)]), p, Submitted(pr.c, |w.submissions|))
  {
    hide B.Decide, SettlementInstruction;
  }

  lemma SubmitKeeps(w: World, w': World, p: nat, c: Case, bond: Key, receiptHash: Hash)
    requires Inv(w) && CaseReady(w, c) && ProcessGood(w, Asking(c, bond, receiptHash)) && bond in w.chain.bonds && B.PenaltyOf(c.request) <= U64_MAX
    requires w' == With(w.(submissions := w.submissions + [Submission(TaskKey(c.task), bond,
                     SettlementInstruction(w.gateway, bond, w.chain.bonds[bond], c.request, receiptHash), false)]), p, Submitted(c, |w.submissions|))
    ensures Inv(w') && Grows(w, w')
  {
    hide Inv;
    SubmitGood(w, c, bond, receiptHash);
    hide SubmissionGood, SettlementInstruction, CaseReady;
    SubmissionStepKeeps(w, w', p, w'.submissions[|w.submissions|]);
  }

  lemma NoSubmitKeeps(w: World, w': World, p: nat, c: Case, pr: Process)
    requires Inv(w) && CaseGood(w, c) && w' == With(w, p, pr)
    requires match pr
      case Answered(d, result, _) => d == c && result.status == FAILED
      case Recovering(d, penalty, refunded) => d == c && AmountsTrue(w, c.task, penalty, refunded)
      case _ => false
    ensures Inv(w') && Grows(w, w')
  {
    hide Inv, CaseGood, AmountsTrue;
    ProcessStepKeeps(w, w', p);
  }

  lemma KeepFetch(w: World, p: nat, reachable: bool)
    requires Inv(w) && DoFetch(w, p, reachable).Some?
    ensures var w' := DoFetch(w, p, reachable).value; Inv(w') && Grows(w, w')
  {
    hide Inv, B.Decide;
    FetchEffect(w, p, reachable);
    hide DoFetch, SettlementInstruction;
    var pr := w.processes[p];
    ProcessFact(w, p);
    CaseIsReady(w, pr.c);
    hide CaseReady, CaseGood;
    RecoverTrue(w, pr.c, pr.bond, pr.receiptHash, reachable);
    hide ProcessGood;
    var w' := DoFetch(w, p, reachable).value;
    match B.Decide(pr.c.request, pr.receiptHash, FetchFrom(w.chain, pr.bond, reachable)) {
      case Reply(result) => NoSubmitKeeps(w, w', p, pr.c, Answered(pr.c, result, 2));
      case Recover(penalty, refunded) => NoSubmitKeeps(w, w', p, pr.c, Recovering(pr.c, penalty, refunded));
      case Submit => SubmitKeeps(w, w', p, pr.c, pr.bond, pr.receiptHash);
    }
  }

  lemma RememberGood(w: World, cache: B.Cache, c: Case, result: AdapterResult)
    requires CaseReady(w, c) && CacheGood(w, cache) && result.status == CONFIRMED && result.penalty.Some? && result.bondRefunded.Some?
    requires AmountsTrue(w, c.task, result.penalty.value, result.bondRefunded.value)
    ensures CacheGood(w, B.Remember(cache, B.KeyOf(c.request), result))
    ensures CacheGood(w, B.RememberSubmitted(cache, c.request, result))
    ensures forall n :: ProcessGood(w, Answered(c, result, n))
  {
    hide EvidenceHash, VerifyEvidence, ProcessGood;
    RequestIsTask(w, c);
    NonceOfAttempt(w, TaskKey(c.task));
    AnsweredGood(w, c, result);
    assert CachedGood(w, TaskKey(c.task), result);
    assert c.attempt.evidence.payload.nonce == B.NonceOf(TaskKey(c.task));
    hide CaseReady, AmountsTrue, AttemptGood, SessionGood, CachedGood, CaseGood;
    MoreRemembered(w, cache, TaskKey(c.task), result);
  }

  lemma AnsweredGood(w: World, c: Case, result: AdapterResult)
    requires CaseGood(w, c)
    requires result.status == CONFIRMED ==>
      result.penalty.Some? && result.bondRefunded.Some? && AmountsTrue(w, c.task, result.penalty.value, result.bondRefunded.value)
    ensures forall n :: ProcessGood(w, Answered(c, result, n))
  {
    hide CaseGood, CreatingGood, SettledGood, TaskGood, ExaminedGood, AmountsTrue;
  }

  lemma MoreRemembered(w: World, cache: B.Cache, k: SettlementKey, result: AdapterResult)
    requires CacheGood(w, cache) && CachedGood(w, k, result)
    ensures var remembered := B.Remember(cache, k, result);
      CacheGood(w, remembered) && CacheGood(w, remembered.(seenNonces := remembered.seenNonces + {B.NonceOf(k)}))
  {
    hide CachedGood;
    var remembered := B.Remember(cache, k, result);
    forall n | n in cache.seenNonces ensures NonceOfAny(remembered.settledResults.Keys, n) {
      var key :| key in cache.settledResults.Keys && B.NonceOf(key) == n;
      assert key in remembered.settledResults.Keys;
    }
    assert k in remembered.settledResults.Keys;
  }

  lemma AnswerKeeps(w: World, w': World, p: nat, c: Case, result: AdapterResult, cache: B.Cache)
    requires Inv(w) && CacheGood(w, cache) && ProcessGood(w, Answered(c, result, 2))
    requires w' == With(w.(caches := w.caches[c.task.adapter := cache]), p, Answered(c, result, 2))
    ensures Inv(w') && Grows(w, w')
  {
    hide Inv, CacheGood, ProcessGood;
    CacheStepKeeps(w, w', p, c.task.adapter, cache);
  }

  lemma KeepRecordRecovery(w: World, p: nat, latest: Option<string>)
    requires Inv(w) && DoRecordRecovery(w, p, latest).Some?
    ensures var w' := DoRecordRecovery(w, p, latest).value; Inv(w') && Grows(w, w')
  {
    hide Inv;
    ProcessFact(w, p);
    var w' := DoRecordRecovery(w, p, latest).value;
    var pr := w.processes[p];
    var result := Confirmation(latest, pr.penalty, pr.bondRefunded);
    CaseIsReady(w, pr.c);
    CacheOfGood(w, pr.c.task.adapter);
    hide CaseReady, CaseGood, CacheGood, CachesGood, AmountsTrue;
    var cache := CacheOf(w, pr.c.task.adapter);
    RememberGood(w, cache, pr.c, result);
    AnswerKeeps(w, w', p, pr.c, result, B.Remember(cache, B.KeyOf(pr.c.request), result));
  }

  /** The transaction of a waiting process did what the process reports. */
  lemma ConfirmTrue(w: World, c: Case, tx: nat)
    requires CaseReady(w, c) && ProcessGood(w, Submitted(c, tx)) && SubmissionGood(w, w.submissions[tx]) && w.submissions[tx].landed
    ensures AmountsTrue(w, c.task, B.PenaltyOf(c.request), B.RefundOf(c.request))
  {
    RequestIsTask(w, c);
  }

  lemma SubmissionFact(w: World, tx: nat)
    requires Inv(w) && tx < |w.submissions|
    ensures SubmissionGood(w, w.submissions[tx])
  {}

  lemma KeepConfirm(w: World, p: nat, signature: string)
    requires Inv(w) && DoConfirm(w, p, signature).Some?
    ensures var w' := DoConfirm(w, p, signature).value; Inv(w') && Grows(w, w')
  {
    hide Inv;
    ProcessFact(w, p);
    var w' := DoConfirm(w, p, signature).value;
    var pr := w.processes[p];
    var result := Confirmation(Some(signature), B.PenaltyOf(pr.c.request), B.RefundOf(pr.c.request));
    CaseIsReady(w, pr.c);
    CacheOfGood(w, pr.c.task.adapter);
    hide CaseReady, CaseGood, CacheGood, CachesGood, AmountsTrue, SubmissionGood;
    SubmissionFact(w, pr.tx);
    ConfirmTrue(w, pr.c, pr.tx);
    var cache := CacheOf(w, pr.c.task.adapter);
    RememberGood(w, cache, pr.c, result);
    AnswerKeeps(w, w', p, pr.c, result, B.RememberSubmitted(cache, pr.c.request, result));
  }

  // ---------------------------------------------------------------------------------
  // Saving the result
  // ---------------------------------------------------------------------------------

  lemma SaveResultEffect(w: World, p: nat, now: int) returns (merged: Attempt)
    requires DoSaveResult(w, p, now).Some?
    ensures p in w.processes && w.processes[p].Answered? && w.processes[p].c.attempt.key in w.attempts && w.processes[p].saves > 0
    ensures var pr := w.processes[p];
      && merged.key == w.attempts[pr.c.attempt.key].key && merged.evidence == w.attempts[pr.c.attempt.key].evidence
      && DoSaveResult(w, p, now).value ==
         With(w.(attempts := w.attempts[pr.c.attempt.key := merged]), p, Answered(pr.c.(attempt := merged), pr.result, pr.saves - 1))
  {
    var pr := w.processes[p];
    merged := Merge(w.attempts[pr.c.attempt.key], WithResult(pr.c.attempt, pr.result, now)).value;
  }

  lemma SavedGood(w: World, w': World, c: Case, merged: Attempt, result: AdapterResult, saves: nat)
    requires Grows(w, w') && ProcessGood(w, Answered(c, result, saves)) && saves > 0
    requires TaskKey(c.task) in w'.attempts && w'.attempts[TaskKey(c.task)] == merged
    requires merged.key == TaskKey(c.task) && merged.evidence == c.attempt.evidence
    ensures ProcessGood(w', Answered(c.(attempt := merged), result, saves - 1))
  {
    ProcessStable(w, w', Answered(c, result, saves));
    hide Grows, CreatingGood, SettledGood, AmountsTrue, TaskGood, ExaminedGood, B.Authorizes;
  }

  lemma SavedKeeps(w: World, w': World, p: nat, c: Case, merged: Attempt, result: AdapterResult, saves: nat)
    requires Inv(w) && ProcessGood(w, Answered(c, result, saves)) && saves > 0 && TaskKey(c.task) in w.attempts
    requires merged.key == TaskKey(c.task) == w.attempts[TaskKey(c.task)].key
    requires merged.evidence == c.attempt.evidence == w.attempts[TaskKey(c.task)].evidence
    requires w' == With(w.(attempts := w.attempts[TaskKey(c.task) := merged]), p, Answered(c.(attempt := merged), result, saves - 1))
    ensures Inv(w') && Grows(w, w')
  {
    hide Inv, ProcessGood;
    GrowsIfSameSessions(w, w');
    SavedGood(w, w', c, merged, result, saves);
    hide Grows;
    AttemptStepKeeps(w, w', p);
  }

  lemma SavedCase(w: World, c: Case)
    requires Inv(w) && CaseGood(w, c)
    ensures TaskKey(c.task) in w.attempts && c.attempt.key == TaskKey(c.task) == w.attempts[TaskKey(c.task)].key
    ensures c.attempt.evidence == w.attempts[TaskKey(c.task)].evidence
  {
    hide Inv, EvidenceHash, VerifyEvidence, TaskGood;
    AttemptFact(w, TaskKey(c.task));
  }

  lemma KeepSaveResult(w: World, p: nat, now: int)
    requires Inv(w) && DoSaveResult(w, p, now).Some?
    ensures var w' := DoSaveResult(w, p, now).value; Inv(w') && Grows(w, w')
  {
    hide Inv, CaseGood, CreatingGood, SettledGood, TaskGood, ExaminedGood, AmountsTrue;
    var merged := SaveResultEffect(w, p, now);
    var pr := w.processes[p];
    hide DoSaveResult;
    ProcessFact(w, p);
    SavedCase(w, pr.c);
    SavedKeeps(w, DoSaveResult(w, p, now).value, p, pr.c, merged, pr.result, pr.saves);
  }

  // ---------------------------------------------------------------------------------
  // Reservations
  // ---------------------------------------------------------------------------------

  /** Only the state of a reservation can change when it is finalised. */
  lemma FinalizeFrame(m: V.Memory, sessionId: string, id: string, state: V.ReservationState, now: int)
    ensures var (m', r) := V.MemoryFinalize(m, sessionId, id, state, now);
      && m'.reservations.Keys == m.reservations.Keys
      && (forall k | k in m.reservations ::
            m'.reservations[k].sessionId == m.reservations[k].sessionId && m'.reservations[k].productId == m.reservations[k].productId
            && m'.reservations[k].reservationId == m.reservations[k].reservationId)
      && (r.Ok? ==> id in m'.reservations && r.value.reservation == m'.reservations[id])
  {}

  lemma KeepEndReservation(w: World, id: string, reservation: string, state: V.ReservationState, now: int)
    requires Inv(w)
    ensures var w' := w.(goods := V.MemoryFinalize(w.goods, id, reservation, state, now).0); Inv(w') && Grows(w, w')
  {
    hide Inv, V.MemoryFinalize;
    FinalizeFrame(w.goods, id, reservation, state, now);
    GoodsStepKeeps(w, w.(goods := V.MemoryFinalize(w.goods, id, reservation, state, now).0), None);
  }

  lemma FinalizeReservationEffect(w: World, p: nat, now: int)
    requires DoFinalizeReservation(w, p, now).Some?
    ensures p in w.processes && w.processes[p].Settled?
    ensures var pr := w.processes[p];
      var (goods, r) := V.MemoryFinalize(w.goods, pr.task.sessionId, pr.task.reservationId, V.EXPIRED, now);
      DoFinalizeReservation(w, p, now).value ==
        if pr.task.kind == CLOSE_ROUTE then With(w, p, Finishing(pr.task, pr.usage, pr.amounts))
        else if r.Ok? then With(w.(goods := goods), p, Finalized(pr.task, pr.usage, pr.amounts, r.value.reservation))
        else w
    ensures w.processes[p].task.kind != CLOSE_ROUTE ==>
      V.MemoryFinalize(w.goods, w.processes[p].task.sessionId, w.processes[p].task.reservationId, V.EXPIRED, now).1.Ok?
  {
    hide V.MemoryFinalize;
  }

  lemma FinalizedKeeps(w: World, w': World, p: nat, t: Task, usage: nat, amounts: Amounts, goods: V.Memory, r: V.Reservation)
    requires Inv(w) && SettledGood(w, t, amounts) && goods.reservations.Keys == w.goods.reservations.Keys
    requires forall k | k in w.goods.reservations ::
      goods.reservations[k].sessionId == w.goods.reservations[k].sessionId && goods.reservations[k].productId == w.goods.reservations[k].productId
      && goods.reservations[k].reservationId == w.goods.reservations[k].reservationId
    requires t.reservationId in goods.reservations && r == goods.reservations[t.reservationId] && r.reservationId == t.reservationId
    requires w' == With(w.(goods := goods), p, Finalized(t, usage, amounts, r))
    ensures Inv(w') && Grows(w, w')
  {
    hide CreatingGood, CaseGood, AmountsTrue;
    hide Inv;
    GrowsIfSameSessions(w, w');
    SettledStable(w, w', t, amounts);
    hide SettledGood;
    GoodsStepKeeps(w, w', Some(p));
  }

  lemma KeepFinalizeReservation(w: World, p: nat, now: int)
    requires Inv(w) && DoFinalizeReservation(w, p, now).Some?
    ensures var w' := DoFinalizeReservation(w, p, now).value; Inv(w') && Grows(w, w')
  {
    hide Inv, V.MemoryFinalize;
    FinalizeReservationEffect(w, p, now);
    hide DoFinalizeReservation;
    ProcessFact(w, p);
    hide SettledGood;
    var w' := DoFinalizeReservation(w, p, now).value;
    var pr := w.processes[p];
    var t := pr.task;
    if t.kind == CLOSE_ROUTE {
      ProcessStepKeeps(w, w', p);
    } else {
      FinalizeFrame(w.goods, t.sessionId, t.reservationId, V.EXPIRED, now);
      ReservationFact(w, t.reservationId);
      var (goods, r) := V.MemoryFinalize(w.goods, t.sessionId, t.reservationId, V.EXPIRED, now);
      FinalizedKeeps(w, w', p, t, pr.usage, pr.amounts, goods, r.value.reservation);
    }
  }

  lemma FinishingGood(w: World, t: Task, usage: nat, amounts: Amounts)
    requires SettledGood(w, t, amounts)
    ensures ProcessGood(w, Finishing(t, usage, amounts))
  {
    hide CreatingGood, CaseGood, AmountsTrue, TaskGood, ExaminedGood, SettledGood;
  }

  lemma MarkedKeeps(w: World, w': World, p: nat, t: Task, usage: nat, amounts: Amounts, r: V.Reservation)
    requires Inv(w) && SettledGood(w, t, amounts) && r.reservationId in w.goods.reservations
    requires var stored := w.goods.reservations[r.reservationId];
      r.sessionId == stored.sessionId && r.productId == stored.productId && stored.reservationId == r.reservationId
    requires var marked := r.(settlementRequested := true);
      w' == With(w.(goods := w.goods.(reservations := w.goods.reservations[r.reservationId := marked])), p, Finishing(t, usage, amounts))
    ensures Inv(w') && Grows(w, w')
  {
    hide Inv, SettledGood, ProcessGood;
    GrowsIfSameSessions(w, w');
    SettledStable(w, w', t, amounts);
    FinishingGood(w', t, usage, amounts);
    hide Grows;
    GoodsStepKeeps(w, w', Some(p));
  }

  lemma KeepMarkSettled(w: World, p: nat)
    requires Inv(w) && DoMarkSettled(w, p).Some?
    ensures var w' := DoMarkSettled(w, p).value; Inv(w') && Grows(w, w')
  {
    hide Inv, SettledGood, CreatingGood, CaseGood, AmountsTrue, TaskGood, ExaminedGood, V.ReservationId;
    ProcessFact(w, p);
    var pr := w.processes[p];
    ReservationFact(w, pr.reservation.reservationId);
    MarkedKeeps(w, DoMarkSettled(w, p).value, p, pr.task, pr.usage, pr.amounts, pr.reservation);
  }

  /** A reservation id that is in use belongs to the same session and product. */
  lemma KeepReserve(w: World, id: string, product: string, now: int, expiresAt: int)
    requires Inv(w) && DoReserve(w, id, product, now, expiresAt).Some?
    ensures var w' := DoReserve(w, id, product, now, expiresAt).value; Inv(w') && Grows(w, w')
  {
    hide Inv;
    var w' := DoReserve(w, id, product, now, expiresAt).value;
    var r := V.Reservation(V.ReservationId(id, product), id, product, 1, now, expiresAt, V.ACTIVE, false);
    assert w'.goods.reservations == w.goods.reservations[r.reservationId := r] && w' == w.(goods := w'.goods);
    assert '_' !in product && id in w.sessions && w.sessions[id].tokenHash.Some?;
    hide DoReserve;
    if r.reservationId in w.goods.reservations {
      ReservationFact(w, r.reservationId);
      V.ReservationIdInjective(id, product, w.goods.reservations[r.reservationId].sessionId, w.goods.reservations[r.reservationId].productId);
    }
    GoodsStepKeeps(w, w', None);
  }

  // ---------------------------------------------------------------------------------
  // The chain
  // ---------------------------------------------------------------------------------

  /** Nobody but the gateway ends a bond whose authority it is. */
  lemma ForeignExits(w: World, w': World, i: P.Instruction)
    requires ExitsGood(w) && Foreign(w, i) && w' == w.(chain := P.Apply(w.chain, i)) && Grows(w, w')
    requires P.Extends(w.chain, w'.chain)
    ensures ExitsGood(w')
  {
    hide P.Apply, Grows;
    forall k | k in w'.chain.bonds && w'.chain.bonds[k].authority == w'.gateway && w'.chain.bonds[k].status in {P.CLOSED, P.VIOLATED}
      ensures k in w'.settledBy && SettledFor(w', k, w'.settledBy[k], w'.chain.bonds[k].settledPenalty)
    {
      P.OnlyAuthoritySettles(w.chain, i, k);
    }
  }

  lemma KeepOnchain(w: World, i: P.Instruction)
    requires Inv(w) && Foreign(w, i)
    ensures var w' := w.(chain := P.Apply(w.chain, i)); Inv(w') && Grows(w, w')
  {
    hide SessionGood, ProcessGood, CacheGood, AttemptGood, SubmissionGood, ReservationGood, NoncesGood, ExitsGood, OwnersDistinct, P.Apply, P.Good, Foreign;
    var w' := w.(chain := P.Apply(w.chain, i));
    P.ExecuteKeepsGood(w.chain, i);
    P.ExecuteExtends(w.chain, i);
    GrowsByChain(w, w');
    ForeignExits(w, w', i);
    ChainStepKeeps(w, w', None);
  }

  /** A settlement that executes ends the bond as the journal entry says. */
  lemma LandedSettles(w: World, w': World, s: Submission)
    requires SubmissionGood(w, s) && P.Good(w.chain) && P.Execute(w.chain, s.instruction).Ok?
    requires w'.chain == P.Execute(w.chain, s.instruction).value && w'.attempts == w.attempts
    requires s.key.CloseKey? ==> w.attempts[s.key].evidence.payload.penalty == 0
    ensures SettledFor(w', s.bond, s.key, w.attempts[s.key].evidence.payload.penalty)
    ensures s.bond in w.chain.bonds && w'.chain.bonds == w.chain.bonds[s.bond := w'.chain.bonds[s.bond]]
  {
    hide EvidenceHash;
    assert s.bond in w.chain.bonds && P.GoodBond(w.chain, s.bond);
    hide P.Transfer, P.PayOut;
  }

  lemma LandedExits(w: World, w': World, s: Submission)
    requires ExitsGood(w) && Grows(w, w') && w'.settledBy == w.settledBy[s.bond := s.key] && w'.gateway == w.gateway
    requires s.bond in w.chain.bonds && w'.chain.bonds == w.chain.bonds[s.bond := w'.chain.bonds[s.bond]]
    requires s.key in w.attempts && SettledFor(w', s.bond, s.key, w.attempts[s.key].evidence.payload.penalty)
    ensures ExitsGood(w')
  {
    forall k | k in w'.chain.bonds && w'.chain.bonds[k].authority == w'.gateway && w'.chain.bonds[k].status in {P.CLOSED, P.VIOLATED}
      ensures k in w'.settledBy && SettledFor(w', k, w'.settledBy[k], w'.chain.bonds[k].settledPenalty)
    {
      if k != s.bond { assert k in w.chain.bonds && w.chain.bonds[k] == w'.chain.bonds[k]; }
    }
  }

  lemma LandedSubmission(w: World, w': World, s: Submission)
    requires Grows(w, w') && SubmissionGood(w, s) && SettledFor(w', s.bond, s.key, w.attempts[s.key].evidence.payload.penalty)
    ensures SubmissionGood(w', s.(landed := true))
  {}

  lemma LandFacts(w: World, tx: nat)
    requires Inv(w) && tx < |w.submissions|
    ensures SubmissionGood(w, w.submissions[tx]) && AttemptGood(w, w.submissions[tx].key) && P.Good(w.chain) && ExitsGood(w)
  {
    hide SessionGood, ProcessGood, CacheGood, AttemptGood, ReservationGood, NoncesGood, ExitsGood, OwnersDistinct, P.Good;
    assert SubmissionGood(w, w.submissions[tx]);
  }

  lemma KeepLand(w: World, tx: nat)
    requires Inv(w) && DoLand(w, tx).Some?
    ensures var w' := DoLand(w, tx).value; Inv(w') && Grows(w, w')
  {
    hide Inv, P.Execute, P.Good, ExitsGood, SettledFor;
    var w' := DoLand(w, tx).value;
    var s := w.submissions[tx];
    assert w' == w.(chain := P.Apply(w.chain, s.instruction), submissions := w.submissions[tx := s.(landed := true)], settledBy := w.settledBy[s.bond := s.key]);
    LandFacts(w, tx);
    LandedSettles(w, w', s);
    hide DoLand, SubmissionGood, AttemptGood;
    P.ExecuteKeepsGood(w.chain, s.instruction);
    P.ExecuteExtends(w.chain, s.instruction);
    GrowsByChain(w, w');
    LandedExits(w, w', s);
    LandedSubmission(w, w', s);
    ChainStepKeeps(w, w', Some(tx));
  }

  // ---------------------------------------------------------------------------------
  // Verifying a bond for a session
  // ---------------------------------------------------------------------------------

  lemma VerifyBondEffect(w: World, p: nat, account: Key)
    requires DoCreation(w, p, VerifyBond(account)).Some?
    ensures p in w.processes && w.processes[p].Creating? && w.processes[p].stage.PAYMENT_SAVED?
    ensures var pr := w.processes[p];
      var cache := CacheOf(w, pr.adapter);
      && BondMatches(w, account, pr.record.terms) && w.chain.bonds[account].status == P.OPEN && Bonded(pr.record.terms)
      && DoCreation(w, p, VerifyBond(account)).value ==
         With(w.(caches := w.caches[pr.adapter := cache.(sessions := cache.sessions[pr.record.sessionId := account])],
                 verified := w.verified[pr.record.sessionId := account]), p, Creating(pr.adapter, pr.record, VERIFIED(account)))
  {}

  lemma VerifyBondLocal(w: World, w': World, p: nat, account: Key)
    requires CreatorReady(w, p) && w.processes[p].stage.PAYMENT_SAVED?
    requires BondMatches(w, account, w.processes[p].record.terms)
    requires var pr := w.processes[p];
      && w' == w.(caches := w'.caches, verified := w.verified[pr.record.sessionId := account],
                  processes := w.processes[p := Creating(pr.adapter, pr.record, VERIFIED(account))])
    ensures Grows(w, w') && Local(w, w', Some(p), Some(w.processes[p].record.sessionId))
  {
    hide Unowned;
    GrowsBySession(w, w', w.processes[p].record.sessionId);
  }

  lemma VerifiedCache(w: World, w': World, cache: B.Cache, id: string, account: Key)
    requires CacheGood(w, cache) && AttemptsGood(w) && SessionsGood(w) && Grows(w, w')
    requires id !in w.verified && w'.verified == w.verified[id := account]
    ensures CacheGood(w', cache.(sessions := cache.sessions[id := account]))
  {
    CacheStable(w, w', cache);
    hide AttemptsGood, SessionsGood, CachedGood;
  }

  lemma KeepVerifyBond(w: World, p: nat, account: Key)
    requires Inv(w) && DoCreation(w, p, VerifyBond(account)).Some?
    ensures var w' := DoCreation(w, p, VerifyBond(account)).value; Inv(w') && Grows(w, w')
  {
    hide SessionGood, ProcessGood, CacheGood, AttemptGood, SubmissionGood, ReservationGood, NoncesGood, ExitsGood, OwnersDistinct;
    VerifyBondEffect(w, p, account);
    hide DoCreation;
    CreatorIsReady(w, p);
    var w' := DoCreation(w, p, VerifyBond(account)).value;
    var pr := w.processes[p];
    VerifyBondLocal(w, w', p, account);
    CacheOfGood(w, pr.adapter);
    VerifiedCache(w, w', CacheOf(w, pr.adapter), pr.record.sessionId, account);
    CachesKept(w, w', Some(pr.adapter));
    StoresKept(w, w');
    LocalKeeps(w, w', Some(p), Some(pr.record.sessionId));
  }

  // ---------------------------------------------------------------------------------
  // All steps
  // ---------------------------------------------------------------------------------

  lemma CreatorFacts(w: World, p: nat, s: CreationStep)
    requires Inv(w) && DoCreation(w, p, s).Some?
    ensures CreatorReady(w, p)
  {
    assert p in w.processes && w.processes[p].Creating?;
    hide DoCreation, SessionGood, ProcessGood, CacheGood, AttemptGood, SubmissionGood, ReservationGood, NoncesGood, ExitsGood, OwnersDistinct, P.Good, CreatorReady;
    CreatorIsReady(w, p);
  }

  lemma KeepCreation(w: World, p: nat, s: CreationStep)
    requires Inv(w) && DoCreation(w, p, s).Some?
    ensures var w' := DoCreation(w, p, s).value; Inv(w') && Grows(w, w')
  {
    hide Inv, CreatorReady, Local;
    CreatorFacts(w, p, s);
    var w' := DoCreation(w, p, s).value;
    var id := w.processes[p].record.sessionId;
    match s {
      case VerifyBond(account) =>
        hide DoCreation;
        KeepVerifyBond(w, p, account);
      case SaveToken(tokenHash) =>
        SaveTokenLocal(w, p, tokenHash);
        assert id in w'.sessions;
        hide DoCreation;
        SessionStepKeeps(w, w', Some(p), Some(id));
      case AbortCreation =>
        hide DoCreation;
        AbortLocal(w, p);
        SessionStepKeeps(w, w', Some(p), Some(id));
      case _ =>
        hide DoCreation;
        CreationLocal(w, p, s);
        CreationStores(w, p, s);
        SessionStepKeeps(w, w', Some(p), Some(id));
    }
  }

  lemma CreationStores(w: World, p: nat, s: CreationStep)
    requires CreatorReady(w, p) && DoCreation(w, p, s).Some? && !s.VerifyBond? && !s.SaveToken? && !s.AbortCreation?
    ensures w.processes[p].record.sessionId in DoCreation(w, p, s).value.sessions
  {
    var record, stage := CreationStored(w, p, s);
    hide DoCreation, CreatorReady, CreatingGood;
  }

  lemma KeepCreateSession(w: World, p: nat, adapter: nat, id: string, terms: S.Terms)
    requires Inv(w) && DoCreateSession(w, p, adapter, id, terms).Some?
    ensures var w' := DoCreateSession(w, p, adapter, id, terms).value; Inv(w') && Grows(w, w')
  {
    hide SessionGood, ProcessGood, CacheGood, AttemptGood, SubmissionGood, ReservationGood, NoncesGood, ExitsGood, OwnersDistinct, P.Good, Local;
    CreateSessionLocal(w, p, adapter, id, terms);
    SessionStepKeeps(w, DoCreateSession(w, p, adapter, id, terms).value, Some(p), Some(id));
  }

  lemma PublicFacts(w: World, acting: Option<nat>, id: string)
    requires Inv(w) && id in w.sessions && w.sessions[id].tokenHash.Some? && !Terminal(w.sessions[id].state)
    ensures SessionGood(w, id) && Unowned(w, acting, id)
  {
    hide SessionGood, ProcessGood, CacheGood, AttemptGood, SubmissionGood, ReservationGood, NoncesGood, ExitsGood, OwnersDistinct, P.Good;
    PublicUnowned(w, acting, id);
  }

  lemma KeepLock(w: World, p: nat, now: int)
    requires Inv(w) && DoLock(w, p, now).Some?
    ensures var w' := DoLock(w, p, now).value; Inv(w') && Grows(w, w')
  {
    hide Inv, Unowned;
    var t, t', record := LockEffect(w, p, now);
    hide DoLock;
    ProcessFact(w, p);
    PublicFacts(w, Some(p), t.sessionId);
    hide SessionGood;
    LockLocal(w, p, now);
    hide Local, ProcessGood;
    SessionStepKeeps(w, DoLock(w, p, now).value, Some(p), Some(t.sessionId));
  }

  lemma KeepFinish(w: World, p: nat)
    requires Inv(w) && DoFinish(w, p).Some?
    ensures var w' := DoFinish(w, p).value; Inv(w') && Grows(w, w')
  {
    hide Inv, Unowned;
    var t, record, receipt := FinishEffect(w, p);
    hide DoFinish;
    ProcessFact(w, p);
    PublicFacts(w, Some(p), t.sessionId);
    hide SessionGood;
    FinishLocal(w, p);
    hide Local, ProcessGood;
    SessionStepKeeps(w, DoFinish(w, p).value, Some(p), Some(t.sessionId));
  }

  lemma OwnerFacts(w: World, p: nat)
    requires Inv(w) && p in w.processes && w.processes[p].Closing?
    ensures ProcessGood(w, w.processes[p])
    ensures var id := w.processes[p].record.sessionId; id in w.sessions && SessionGood(w, id) && Unowned(w, Some(p), id)
  {
    hide CreatingGood, CaseGood, SettledGood, TaskGood, AmountsTrue, AttemptGood, CacheGood, SubmissionGood, ReservationGood, NoncesGood, ExitsGood, P.Good;
    assert ProcessGood(w, w.processes[p]);
    OwnerAlone(w, p, w.processes[p].record.sessionId);
  }

  lemma KeepStoreReceipt(w: World, p: nat)
    requires Inv(w) && DoStoreReceipt(w, p).Some?
    ensures var w' := DoStoreReceipt(w, p).value; Inv(w') && Grows(w, w')
  {
    hide Inv, Unowned, SessionGood;
    var w' := DoStoreReceipt(w, p).value;
    var id := w.processes[p].record.sessionId;
    OwnerFacts(w, p);
    StoreReceiptLocal(w, p);
    assert id in w'.sessions;
    hide DoStoreReceipt, ProcessGood, Local;
    SessionStepKeeps(w, w', Some(p), Some(id));
  }

  lemma KeepUnlock(w: World, id: string)
    requires Inv(w) && DoUnlock(w, id).Some?
    ensures var w' := DoUnlock(w, id).value; Inv(w') && Grows(w, w')
  {
    UnlockLocal(w, id);
    hide Inv, Local;
    SessionStepKeeps(w, DoUnlock(w, id).value, None, Some(id));
  }

  lemma KeepCount(w: World, id: string, request: S.Request, expected: S.SessionState)
    requires Inv(w) && DoCount(w, id, request, expected).Some?
    ensures var w' := DoCount(w, id, request, expected).value; Inv(w') && Grows(w, w')
  {
    CountLocal(w, id, request, expected);
    hide Inv, Local;
    SessionStepKeeps(w, DoCount(w, id, request, expected).value, None, Some(id));
  }

  /** Every step keeps the invariant and takes nothing back. */
  lemma StepKeepsInvariant(w: World, s: Step)
    requires Inv(w) && Next(w, s).Some?
    ensures Inv(Next(w, s).value) && Grows(w, Next(w, s).value)
  {
    hide Inv, Grows, DoCreateSession, DoCreation, DoEnter, DoExamine, DoLock, DoJournal, DoSkipBond, DoGrantNonce, DoBeginCall, DoFetch,
      DoRecordRecovery, DoLand, DoConfirm, DoLoseResponse, DoSaveResult, DoValidate, DoFinalizeReservation, DoMarkSettled, DoFinish,
      DoStoreReceipt, DoUnlock, DoRestart, DoCount, DoReserve, P.Apply, V.MemoryFinalize;
    match s {
      case CreateSession(p, adapter, id, terms) => KeepCreateSession(w, p, adapter, id, terms);
      case Creation(p, creation) => KeepCreation(w, p, creation);
      case Enter(p, kind, adapter, id, reservation) => KeepEnter(w, p, kind, adapter, id, reservation);
      case Examine(p, now) => KeepExamine(w, p, now);
      case Lock(p, now) => KeepLock(w, p, now);
      case Journal(p, usage, issuedAt, authority, now) => KeepJournal(w, p, usage, issuedAt, authority, now);
      case SkipBond(p, usage) => KeepSkipBond(w, p, usage);
      case GrantNonce(p) => KeepGrantNonce(w, p);
      case BeginCall(p, secret) => KeepBeginCall(w, p, secret);
      case FetchBond(p, reachable) => KeepFetch(w, p, reachable);
      case RecordRecovery(p, latest) => KeepRecordRecovery(w, p, latest);
      case Land(tx) => KeepLand(w, tx);
      case Confirm(p, signature) => KeepConfirm(w, p, signature);
      case LoseResponse(p, code) => KeepLoseResponse(w, p, code);
      case SaveResult(p, now) => KeepSaveResult(w, p, now);
      case Validate(p) => KeepValidate(w, p);
      case FinalizeReservation(p, now) => KeepFinalizeReservation(w, p, now);
      case MarkSettled(p) => KeepMarkSettled(w, p);
      case Finish(p) => KeepFinish(w, p);
      case StoreReceipt(p) => KeepStoreReceipt(w, p);
      case Unlock(id) => KeepUnlock(w, id);
      case Crash(p) => KeepCrash(w, p);
      case Restart(adapter) => KeepRestart(w, adapter);
      case CountRequest(id, request, expected) => KeepCount(w, id, request, expected);
      case MakeReservation(id, product, now, expiresAt) => KeepReserve(w, id, product, now, expiresAt);
      case EndReservation(id, reservation, state, now) => KeepEndReservation(w, id, reservation, state, now);
      case Onchain(i) => KeepOnchain(w, i);
    }
  }
}
