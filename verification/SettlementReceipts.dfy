/** Which ended sessions get a receipt, and which settled sessions no call ends. */
module SettlementReceipts {
  import opened Wrappers
  import opened Primitives
  import opened SettlementEvidence
  import opened SettlementJournal
  import opened Settlement
  import opened SettlementInvariant
  import opened SettlementFrames
  import opened SettlementSteps
  import opened SettlementSafety
  import opened SettlementLeases
  import opened SettlementTruth
  import opened SettlementProgress
  import opened SettlementCalls
  import opened SettlementExpiry
  import S = Sessions
  import V = Inventory
  import P = BondProgram

  // ---------------------------------------------------------------------------------
  // Between the end and the receipt
  // ---------------------------------------------------------------------------------

  /** A process has ended the session and is about to store its receipt. */
  predicate HoldsReceipt(w: World, p: nat, id: string) {
    p in w.processes && w.processes[p].Closing? && w.processes[p].record.sessionId == id
  }

  /** The session has ended without a receipt, and no process holds one. */
  ghost predicate Orphan(w: World, id: string) {
    && id in w.sessions && Terminal(w.sessions[id].state) && w.sessions[id].receipt == None
    && forall p :: !HoldsReceipt(w, p, id)
  }

  ghost predicate SessionKept(w: World, w': World, id: string) {
    id in w.sessions && id in w'.sessions && w'.sessions[id] == w.sessions[id]
  }

  ghost predicate Ended(w: World, id: string) {
    id in w.sessions && Terminal(w.sessions[id].state)
  }

  lemma CreationKeepsEnded(w: World, p: nat, s: CreationStep, id: string)
    requires Inv(w) && Ended(w, id) && DoCreation(w, p, s).Some?
    ensures SessionKept(w, DoCreation(w, p, s).value, id)
  {
    hide Inv, DoCreation;
    CreationTouchesOwn(w, p, s);
    CreatorFacts(w, p, s);
    hide SessionGood, Unowned;
    assert w.processes[p].record.sessionId != id by { CreatorNotEnded(w, w.processes[p].record, w.processes[p].stage); }
    hide CreatorReady;
  }

  lemma CreatorNotEnded(w: World, record: S.SessionRecord, stage: CreationStage)
    requires CreatingGood(w, record, stage)
    ensures record.sessionId in w.sessions && !Terminal(w.sessions[record.sessionId].state)
  {}

  lemma CreateKeepsEnded(w: World, p: nat, adapter: nat, other: string, terms: S.Terms, id: string)
    requires Ended(w, id) && DoCreateSession(w, p, adapter, other, terms).Some?
    ensures SessionKept(w, DoCreateSession(w, p, adapter, other, terms).value, id)
  {}

  lemma LockKeepsEnded(w: World, p: nat, now: int, id: string)
    requires Ended(w, id) && DoLock(w, p, now).Some?
    ensures SessionKept(w, DoLock(w, p, now).value, id)
  {
    var _, _, _ := LockEffect(w, p, now);
    hide DoLock;
  }

  lemma FinishKeepsEnded(w: World, p: nat, id: string)
    requires Ended(w, id) && DoFinish(w, p).Some?
    ensures SessionKept(w, DoFinish(w, p).value, id)
  {
    var _, _, _ := FinishEffect(w, p);
    hide DoFinish;
  }

  lemma StoreKeepsOther(w: World, p: nat, id: string)
    requires id in w.sessions && DoStoreReceipt(w, p).Some? && !HoldsReceipt(w, p, id)
    ensures SessionKept(w, DoStoreReceipt(w, p).value, id)
  {}

  lemma UnlockKeepsEnded(w: World, other: string, id: string)
    requires Ended(w, id) && DoUnlock(w, other).Some?
    ensures SessionKept(w, DoUnlock(w, other).value, id)
  {}

  lemma CountKeepsEnded(w: World, other: string, request: S.Request, expected: S.SessionState, id: string)
    requires Ended(w, id) && DoCount(w, other, request, expected).Some?
    ensures SessionKept(w, DoCount(w, other, request, expected).value, id)
  {}

  lemma StepKeepsEnded(w: World, s: Step, id: string)
    requires Inv(w) && Ended(w, id) && Next(w, s).Some? && (s.StoreReceipt? ==> !HoldsReceipt(w, s.p, id))
    ensures SessionKept(w, Next(w, s).value, id)
  {
    hide Inv, SessionKept, DoCreateSession, DoCreation, DoEnter, DoExamine, DoLock, DoJournal, DoSkipBond, DoGrantNonce, DoBeginCall, DoFetch, DoRecordRecovery,
      DoLand, DoConfirm, DoLoseResponse, DoSaveResult, DoValidate, DoFinalizeReservation, DoMarkSettled, DoFinish, DoStoreReceipt, DoUnlock, DoCount,
      DoReserve, P.Apply, V.MemoryFinalize;
    if !WritesSessions(s) {
      OthersKeepSessions(w, s);
      SameSessionsKeep(w, Next(w, s).value, id);
    } else {
      match s {
        case CreateSession(p, adapter, other, terms) => CreateKeepsEnded(w, p, adapter, other, terms, id);
        case Creation(p, creation) => CreationKeepsEnded(w, p, creation, id);
        case Lock(p, now) => LockKeepsEnded(w, p, now, id);
        case Finish(p) => FinishKeepsEnded(w, p, id);
        case StoreReceipt(p) => StoreKeepsOther(w, p, id);
        case Unlock(other) => UnlockKeepsEnded(w, other, id);
        case CountRequest(other, request, expected) => CountKeepsEnded(w, other, request, expected, id);
      }
    }
  }

  lemma SameSessionsKeep(w: World, w': World, id: string)
    requires id in w.sessions && w'.sessions == w.sessions
    ensures SessionKept(w, w', id)
  {}

  lemma JournalHolder(w: World, q: nat, usage: nat, issuedAt: string, authority: string, now: int, p: nat, id: string)
    requires DoJournal(w, q, usage, issuedAt, authority, now).Some? && HoldsReceipt(DoJournal(w, q, usage, issuedAt, authority, now).value, p, id)
    ensures HoldsReceipt(w, p, id)
  {
    var _, _ := JournalEntry(w, q, usage, issuedAt, authority, now);
    hide DoJournal, NewRequest;
  }

  lemma SaveHolder(w: World, q: nat, now: int, p: nat, id: string)
    requires DoSaveResult(w, q, now).Some? && HoldsReceipt(DoSaveResult(w, q, now).value, p, id)
    ensures HoldsReceipt(w, p, id)
  {
    var _ := SaveTells(w, q, now);
    hide DoSaveResult;
  }

  lemma FinishHolder(w: World, q: nat, p: nat, id: string)
    requires Inv(w) && Ended(w, id) && DoFinish(w, q).Some? && HoldsReceipt(DoFinish(w, q).value, p, id)
    ensures HoldsReceipt(w, p, id)
  {
    hide Inv;
    var _, _, _ := FinishEffect(w, q);
    hide DoFinish;
    FinishedIsOther(w, q, id);
  }

  /** A receipt comes into a process's hands only when it ends the session. */
  lemma NewHolder(w: World, s: Step, p: nat, id: string)
    requires Inv(w) && Ended(w, id) && Next(w, s).Some? && HoldsReceipt(Next(w, s).value, p, id)
    ensures HoldsReceipt(w, p, id)
  {
    hide Inv, DoJournal, DoSaveResult, DoFinish, Carried, HoldsReceipt, Ended, DoCreateSession, DoCreation, DoEnter, DoExamine, DoLock, DoSkipBond, DoGrantNonce,
      DoBeginCall, DoFetch, DoRecordRecovery, DoLand, DoConfirm, DoLoseResponse, DoValidate, DoFinalizeReservation, DoMarkSettled, DoStoreReceipt, DoUnlock,
      DoRestart, DoCount, DoReserve, P.Apply, V.MemoryFinalize;
    match s {
      case Journal(q, usage, issuedAt, authority, now) => JournalHolder(w, q, usage, issuedAt, authority, now, p, id);
      case SaveResult(q, now) => SaveHolder(w, q, now, p, id);
      case Finish(q) => FinishHolder(w, q, p, id);
      case _ =>
        StepCarries(w, s);
        hide Next;
        CarriedHolder(w, Next(w, s).value, p, id, RoleIn(s));
    }
  }

  lemma CarriedHolder(w: World, w': World, p: nat, id: string, role: Role)
    requires Carried(w, w', role) && !role.Finishes? && HoldsReceipt(w', p, id)
    ensures HoldsReceipt(w, p, id)
  {
    assert HandCarried(w, p, w'.processes[p], role);
  }

  lemma FinishedIsOther(w: World, p: nat, id: string)
    requires Inv(w) && Ended(w, id) && p in w.processes && w.processes[p].Finishing?
    requires w.processes[p].task.sessionId in w.sessions && w.sessions[w.processes[p].task.sessionId].state == S.SETTLING
    ensures w.sessions[w.processes[p].task.sessionId].sessionId != id
  {
    hide Inv;
    SessionFact(w, w.processes[p].task.sessionId);
  }

  lemma StepKeepsOrphan(w: World, s: Step, id: string)
    requires Inv(w) && Orphan(w, id) && Next(w, s).Some?
    ensures Orphan(Next(w, s).value, id)
  {
    hide Inv, Next, HoldsReceipt;
    StepKeepsEnded(w, s, id);
    var w' := Next(w, s).value;
    forall p ensures !HoldsReceipt(w', p, id) {
      if HoldsReceipt(w', p, id) { NewHolder(w, s, p, id); }
    }
  }

  lemma {:induction false} RunKeepsOrphan(w: World, steps: seq<Step>, id: string)
    requires Inv(w) && Orphan(w, id)
    ensures Orphan(Run(w, steps), id)
    decreases |steps|
  {
    hide Inv, Next, Orphan;
    if steps != [] {
      match Next(w, steps[0]) {
        case Some(w') =>
          StepKeepsOrphan(w, steps[0], id);
          StepKeepsInvariant(w, steps[0]);
          RunKeepsOrphan(w', steps[1..], id);
        case None => RunKeepsOrphan(w, steps[1..], id);
      }
    }
  }

  predicate HasReceipt(w: World, id: string) {
    id in w.sessions && w.sessions[id].receipt.Some?
  }

  lemma HolderStores(w: World, p: nat, id: string)
    requires HoldsReceipt(w, p, id)
    ensures HasReceipt(Run(w, [StoreReceipt(p)]), id)
  {
    CanStore(w, p);
    RunOne(w, StoreReceipt(p));
    hide Run, Next;
  }

  /** On every run: a session that has ended can still get a receipt exactly if it has one or the
      process that ended it is alive and holds it. Nobody else ever makes up for it. */
  lemma ReceiptComesIff(start: World, before: seq<Step>, id: string)
    requires Initial(start) && Ended(Run(start, before), id)
    ensures var w := Run(start, before);
      (exists steps :: HasReceipt(Run(w, steps), id)) <==> HasReceipt(w, id) || exists p :: HoldsReceipt(w, p, id)
  {
    hide Initial, Inv, Run, Next;
    InitialIsGood(start);
    RunKeepsInvariant(start, before);
    var w := Run(start, before);
    if HasReceipt(w, id) {
      var none: seq<Step> := [];
      RunNothing(w, none);
      assert HasReceipt(Run(w, none), id);
    } else if p :| HoldsReceipt(w, p, id) {
      HolderStores(w, p, id);
    } else {
      assert Orphan(w, id);
      forall steps ensures !HasReceipt(Run(w, steps), id) {
        RunKeepsOrphan(w, steps, id);
      }
    }
  }

  lemma RunNothing(w: World, none: seq<Step>)
    requires none == []
    ensures Run(w, none) == w
  {}

  /** A process that dies between the two leaves an orphan behind. */
  lemma DeathOrphans(w: World, p: nat)
    requires Inv(w) && p in w.processes && w.processes[p].Finishing?
    requires w.processes[p].task.sessionId in w.sessions && w.sessions[w.processes[p].task.sessionId].state == S.SETTLING
    ensures Orphan(Run(w, [Finish(p), Crash(p)]), w.processes[p].task.sessionId)
  {
    hide Inv, DoFinish;
    var id := w.processes[p].task.sessionId;
    SettlingFacts(w, id);
    var w1, w2 := Do(w, Finish(p)), Do(Do(w, Finish(p)), Crash(p));
    FinishesSettling(w, p);
    assert w2 == w1.(processes := w1.processes - {p});
    hide Next, Run, Do;
    RunSingle(w, Finish(p));
    RunSnoc(w, [Finish(p)], Crash(p));
    assert [Finish(p)] + [Crash(p)] == [Finish(p), Crash(p)];
    assert forall q :: HoldsReceipt(w2, q, id) ==> HoldsReceipt(w, q, id);
  }

  lemma FinishesSettling(w: World, p: nat)
    requires p in w.processes && w.processes[p].Finishing?
    requires w.processes[p].task.sessionId in w.sessions && w.sessions[w.processes[p].task.sessionId].state == S.SETTLING
    ensures var w', id := Do(w, Finish(p)), w.processes[p].task.sessionId;
      && w'.processes.Keys == w.processes.Keys && (forall q | q in w.processes && q != p :: w'.processes[q] == w.processes[q])
      && id in w'.sessions && Terminal(w'.sessions[id].state) && w'.sessions[id].receipt == w.sessions[id].receipt
  {
    hide Next, Do;
    if w.processes[p].task.kind == CLOSE_ROUTE { CanFinish(w, p); } else { CanFinishExpiry(w, p); }
    DoIsNext(w, Finish(p));
  }

  lemma SettlingFacts(w: World, id: string)
    requires Inv(w) && id in w.sessions && w.sessions[id].state == S.SETTLING
    ensures w.sessions[id].receipt == None && forall q :: !HoldsReceipt(w, q, id)
  {
    hide Inv;
    SessionFact(w, id);
    hide SessionGood;
    forall q ensures !HoldsReceipt(w, q, id) {
      if HoldsReceipt(w, q, id) {
        ProcessFact(w, q);
        HolderEnded(w, w.processes[q]);
      }
    }
  }

  lemma HolderEnded(w: World, pr: Process)
    requires pr.Closing? && ProcessGood(w, pr)
    ensures pr.record.sessionId in w.sessions && Terminal(w.sessions[pr.record.sessionId].state)
  {}

  // ---------------------------------------------------------------------------------
  // Between the end of the reservation and the end of the session
  // ---------------------------------------------------------------------------------

  /** The bond has been settled for the reservation's attempt, and the reservation is not active
      any more: what a process leaves that dies after it has finalised the reservation. */
  ghost predicate Stranded(w: World, id: string, reservation: string) {
    && id in w.sessions && !Terminal(w.sessions[id].state) && Bonded(w.sessions[id].terms) && w.sessions[id].bondReference.Some?
    && ExpiryKey(id, reservation) in w.attempts && w.sessions[id].bondReference.value in w.chain.bonds
    && w.chain.bonds[w.sessions[id].bondReference.value].status == P.VIOLATED
    && w.chain.bonds[w.sessions[id].bondReference.value].receiptHash == w.attempts[ExpiryKey(id, reservation)].evidence.evidenceHash
    && (reservation in w.goods.reservations ==> w.goods.reservations[reservation].state != V.ACTIVE)
  }

  /** Evidence with that hash is that attempt's. */
  lemma HashTellsKey(w: World, x: Call, key: SettlementKey)
    requires Inv(w) && Bonded(x.task.session.terms) && key in w.attempts && HashFor(w, x) == w.attempts[key].evidence.evidenceHash
    ensures TaskKey(x.task) == key
  {
    hide Inv, VerifyEvidence, TaskPenalty, EvidenceHash, AttemptGood;
    AttemptFact(w, key);
    EntryHash(w, key);
    if TaskKey(x.task) in w.attempts {
      AttemptFact(w, TaskKey(x.task));
      EntryHash(w, TaskKey(x.task));
      EvidenceHashInjective(w.attempts[key].evidence.payload, w.attempts[TaskKey(x.task)].evidence.payload);
      SameEntryKey(w, key, TaskKey(x.task));
    } else {
      EvidenceHashInjective(w.attempts[key].evidence.payload, NewPayload(x.task, x.usage, x.issuedAt, x.authority));
      NewPayloadKey(w, x, key);
    }
  }

  lemma EntryHash(w: World, key: SettlementKey)
    requires key in w.attempts && AttemptGood(w, key)
    ensures w.attempts[key].evidence.evidenceHash == EvidenceHash(w.attempts[key].evidence.payload)
  {
    hide EvidenceHash, SessionGood;
  }

  lemma SameEntryKey(w: World, i: SettlementKey, j: SettlementKey)
    requires i in w.attempts && j in w.attempts && AttemptGood(w, i) && AttemptGood(w, j)
    requires w.attempts[i].evidence.payload == w.attempts[j].evidence.payload
    ensures i == j
  {
    hide EvidenceHash, VerifyEvidence;
  }

  lemma NewPayloadKey(w: World, x: Call, key: SettlementKey)
    requires Bonded(x.task.session.terms) && key in w.attempts && AttemptGood(w, key)
    requires w.attempts[key].evidence.payload == NewPayload(x.task, x.usage, x.issuedAt, x.authority)
    ensures TaskKey(x.task) == key
  {
    hide EvidenceHash, VerifyEvidence, ExpiryPenalty;
  }

  /** From every such state: no undisturbed call for the session ends in a receipt. A close and an
      expiry of another reservation are refused by the chain, and the worker does not pick up a
      reservation that is not active; only if the session makes the same reservation again,
      and it expires again, does a call reach the settlement that is already there. */
  lemma StrandedStaysOpen(start: World, before: seq<Step>, id: string, reservation: string, x: Call)
    requires Initial(start) && Stranded(Run(start, before), id, reservation)
    requires Callable(Run(start, before), x) && x.task.sessionId == id
    ensures !HasBondReceipt(Run(Run(start, before), CallSteps(Run(start, before), x)), id)
  {
    hide Initial, Inv, JournalTrue, Run, CallSteps, TaskPenalty, HashFor, V.HasActive;
    var k := CallCompletesIff(start, before, x);
    ReachableIsTrue(start, before);
    var w := Run(start, before);
    CallableFacts(w, x);
    if WillSettle(w, x) {
      HashTellsKey(w, x, ExpiryKey(id, reservation));
      KeyIsExpiry(x.task, id, reservation);
    }
  }

  lemma KeyIsExpiry(t: Task, id: string, reservation: string)
    requires TaskKey(t) == ExpiryKey(id, reservation)
    ensures t.kind != CLOSE_ROUTE && t.reservationId == reservation
  {}

  // ---------------------------------------------------------------------------------
  // Both do occur
  // ---------------------------------------------------------------------------------

  lemma FinalizedStrands(w: World, w1: World, w2: World, x: Call, c: Case, k: Key)
    requires LandedUnheard(w, w1, x, c, k) && Heard(w1, w2, x, c) && x.task.session.bondReference == Some(k) && x.task.kind != CLOSE_ROUTE
    requires Finalizable(w2, x.task.sessionId, x.task.reservationId, x.now)
    ensures Stranded(w2.(goods := EndedGoods(w2.goods, x.task.reservationId, x.now)), x.task.sessionId, x.task.reservationId)
    ensures x.task.sessionId in w2.sessions && w2.sessions[x.task.sessionId].state == S.SETTLING
  {
    hide CacheOf, TaskPenalty, Expired;
  }

  lemma StrandedElsewhere(w: World, w': World, id: string, reservation: string)
    requires Stranded(w, id, reservation) && w'.sessions == w.sessions && w'.attempts == w.attempts && w'.chain == w.chain && w'.goods == w.goods
    ensures Stranded(w', id, reservation)
  {}

  /** A run from the very beginning that leaves the session settling for ever, and one that leaves
      it expired without a receipt. */
  lemma BothAreReachable() returns (stranded: seq<Step>, orphaned: seq<Step>)
    ensures Initial(START) && Stranded(Run(START, stranded), "s", V.ReservationId("s", "lamp")) && Orphan(Run(START, orphaned), "s")
  {
    hide Initial, Inv, JournalTrue, Next, Run, V.ReservationId, TaskPenalty, CacheOf, Orphan, Stranded, LandedUnheard;
    var rid := V.ReservationId("s", "lamp");
    var a := SettingIsReachable();
    ReachableIsTrue(START, a);
    var w := Run(START, a);
    SettingHasOneReservation(w);
    var x, t := WorkerCall(w), WorkerCall(w).task;
    var k := w.sessions["s"].bondReference.value;
    assert Expirable(w, x) && w.goods.reservations[rid].productId in w.goods.inventory;
    hide Setting, Expirable;
    var b, w1, c := CanHearUndisturbed(w, x);
    var w2 := Run(w, b);
    StillFinalizable(w, w2, "s", rid, 5) by { HeardGoods(w, w1, w2, x, c, k); }
    FinalizedStrands(w, w1, w2, x, c, k);
    assert 0 in w2.processes && w2.processes[0].Settled? && w2.processes[0].task == t;
    hide Heard, Expired;
    CanFinalizeExpiry(w2, 0, t, 5);
    hide Finalizable, EndedGoods;
    var w3 := Next(w2, FinalizeReservation(0, 5)).value;
    RunOne(w2, FinalizeReservation(0, 5));
    var first := [FinalizeReservation(0, 5)];
    Crashes(w2, first, 0);
    StrandedElsewhere(w2.(goods := w3.goods), Run(w2, first + [Crash(0)]), "s", rid);
    CanMarkReservation(w3, 0);
    Then(w2, first, MarkSettled(0));
    RunKeepsInvariant(w, b);
    RunKeepsInvariant(w2, first + [MarkSettled(0)]);
    DeathOrphans(Run(w2, first + [MarkSettled(0)]), 0);
    RunAppend(w2, first + [MarkSettled(0)], [Finish(0), Crash(0)]);
    RunAppend(START, a, b);
    RunAppend(START, a + b, first + [Crash(0)]);
    RunAppend(START, a + b, first + [MarkSettled(0)] + [Finish(0), Crash(0)]);
    stranded := a + b + (first + [Crash(0)]);
    orphaned := a + b + (first + [MarkSettled(0)] + [Finish(0), Crash(0)]);
  }

  lemma HeardGoods(w: World, w1: World, w2: World, x: Call, c: Case, k: Key)
    requires LandedUnheard(w, w1, x, c, k) && Heard(w1, w2, x, c)
    ensures w2.goods == w.goods
  {
    hide CacheOf, TaskPenalty;
  }

  lemma Crashes(w: World, steps: seq<Step>, p: nat)
    ensures Run(w, steps + [Crash(p)]) == Run(w, steps).(processes := Run(w, steps).processes - {p})
  {
    hide Run;
    assert Next(Run(w, steps), Crash(p)).Some?;
    Then(w, steps, Crash(p));
  }
}
