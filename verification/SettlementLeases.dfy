/** The settlement lease on the runs of the gateway. */
module SettlementLeases {
  import opened Wrappers
  import opened Settlement
  import opened SettlementInvariant
  import opened SettlementFrames
  import opened SettlementSteps
  import opened SettlementSafety
  import S = Sessions
  import V = Inventory
  import P = BondProgram

  ghost predicate Leased(w: World, id: string, until: int) {
    S.LeasedUntil(w.sessions, id, until)
  }

  /** The step takes the session out of settlement: an unlock, whoever sends it, or the end. */
  predicate EndsSettling(w: World, s: Step, id: string) {
    || (s.Unlock? && s.sessionId == id)
    || (s.Finish? && s.p in w.processes && w.processes[s.p].Finishing? && w.processes[s.p].task.sessionId == id)
  }

  /** No step of the run that is enabled takes the session out of settlement. */
  predicate StaysSettling(w: World, steps: seq<Step>, id: string)
    decreases |steps|
  {
    steps == [] ||
      match Next(w, steps[0])
      case Some(w') => !EndsSettling(w, steps[0], id) && StaysSettling(w', steps[1..], id)
      case None => StaysSettling(w, steps[1..], id)
  }

  /** A worker or a close route claims the session's lease. */
  predicate Claims(w: World, p: nat, id: string) {
    p in w.processes && w.processes[p].Examined? && w.processes[p].task.sessionId == id && w.processes[p].task.kind != EXPIRE_ROUTE
  }

  lemma OtherSessionKeepsLease(w: World, w': World, id: string, other: string, until: int)
    requires Leased(w, id, until) && other != id && OthersKept(w.sessions, w'.sessions, other)
    ensures Leased(w', id, until)
  {}

  /** All sessions but one are as they were. */
  ghost predicate OthersKept(was: S.Table, sessions: S.Table, own: string) {
    forall i | i != own && (i in was || i in sessions) :: i in was && i in sessions && sessions[i] == was[i]
  }

  lemma AdvanceTouchesOwn(w: World, p: nat, expected: S.SessionState, next: S.SessionState, stage: CreationStage)
    requires p in w.processes && w.processes[p].Creating? && DoAdvance(w, p, expected, next, stage).Some?
    ensures OthersKept(w.sessions, DoAdvance(w, p, expected, next, stage).value.sessions, w.processes[p].record.sessionId)
  {}

  lemma CreationTouchesOwn(w: World, p: nat, s: CreationStep)
    requires DoCreation(w, p, s).Some?
    ensures p in w.processes && w.processes[p].Creating?
    ensures OthersKept(w.sessions, DoCreation(w, p, s).value.sessions, w.processes[p].record.sessionId)
  {
    hide CacheOf, DoAdvance;
    if s.CompilePolicy? { AdvanceTouchesOwn(w, p, S.CREATED, S.POLICY_READY, POLICY_READY); }
    if s.VerifyPayment? { AdvanceTouchesOwn(w, p, S.POLICY_READY, S.PAYMENT_READY, PAID); }
    if s.MarkBonded? { AdvanceTouchesOwn(w, p, S.PAYMENT_READY, S.BONDED, CreationStage.BONDED(w.processes[p].stage.bond)); }
    if s.Activate? {
      AdvanceTouchesOwn(w, p, if w.processes[p].stage.BOND_SAVED? then S.BONDED else S.PAYMENT_READY, S.ACTIVE, ACTIVATED);
    }
  }

  lemma CreationKeepsLease(w: World, p: nat, s: CreationStep, id: string, until: int)
    requires Inv(w) && Leased(w, id, until) && DoCreation(w, p, s).Some?
    ensures Leased(DoCreation(w, p, s).value, id, until)
  {
    hide Inv, DoCreation;
    CreationTouchesOwn(w, p, s);
    CreatorFacts(w, p, s);
    hide SessionGood, Unowned;
    var own := w.processes[p].record.sessionId;
    assert own != id by { CreatorNotSettling(w, w.processes[p].record, w.processes[p].stage); }
    hide CreatorReady;
    OtherSessionKeepsLease(w, DoCreation(w, p, s).value, id, own, until);
  }

  lemma CreatorNotSettling(w: World, record: S.SessionRecord, stage: CreationStage)
    requires CreatingGood(w, record, stage)
    ensures record.sessionId in w.sessions && w.sessions[record.sessionId].state != S.SETTLING
  {}

  /** What locking does to the session table. */
  function LockedSessions(sessions: S.Table, kind: Kind, id: string, now: int): Option<S.Table> {
    if kind == EXPIRE_ROUTE then
      match S.Transition(sessions, id, S.ACTIVE, S.SETTLING) case Ok(r) => Some(sessions[id := r]) case Err(_) => None
    else
      match S.Claim(sessions, id, now, LEASE_MS) case Ok(Some(r)) => Some(sessions[id := r]) case _ => None
  }

  lemma LockWrites(w: World, p: nat, now: int)
    requires DoLock(w, p, now).Some?
    ensures p in w.processes && w.processes[p].Examined?
    ensures var t := w.processes[p].task; LockedSessions(w.sessions, t.kind, t.sessionId, now) == Some(DoLock(w, p, now).value.sessions)
  {
    hide S.Transition, S.Claim;
  }

  lemma LockedKeepsLease(sessions: S.Table, kind: Kind, locked: string, now: int, id: string, until: int)
    requires S.LeasedUntil(sessions, id, until) && LockedSessions(sessions, kind, locked, now).Some?
    ensures S.LeasedUntil(LockedSessions(sessions, kind, locked, now).value, id, until)
    ensures kind != EXPIRE_ROUTE && locked == id ==> now >= until
  {}

  lemma LockKeepsLease(w: World, p: nat, now: int, id: string, until: int)
    requires Leased(w, id, until) && DoLock(w, p, now).Some?
    ensures Leased(DoLock(w, p, now).value, id, until)
  {
    LockWrites(w, p, now);
    hide DoLock, LockedSessions;
    LockedKeepsLease(w.sessions, w.processes[p].task.kind, w.processes[p].task.sessionId, now, id, until);
  }

  lemma StoreReceiptKeepsLease(w: World, p: nat, id: string, until: int)
    requires Inv(w) && Leased(w, id, until) && DoStoreReceipt(w, p).Some?
    ensures Leased(DoStoreReceipt(w, p).value, id, until)
  {
    hide Inv, Unowned, SessionGood;
    OwnerFacts(w, p);
    var own := w.processes[p].record.sessionId;
    assert w.sessions[own] == w.processes[p].record && Terminal(w.sessions[own].state);
    OtherSessionKeepsLease(w, DoStoreReceipt(w, p).value, id, own, until);
  }

  lemma SameSessionsKeepLease(w: World, w': World, id: string, until: int)
    requires Leased(w, id, until) && w'.sessions == w.sessions
    ensures Leased(w', id, until)
  {}

  lemma CreateSessionKeepsLease(w: World, p: nat, adapter: nat, other: string, terms: S.Terms, id: string, until: int)
    requires Leased(w, id, until) && DoCreateSession(w, p, adapter, other, terms).Some?
    ensures Leased(DoCreateSession(w, p, adapter, other, terms).value, id, until)
  {}

  lemma FinishKeepsLease(w: World, p: nat, id: string, until: int)
    requires Leased(w, id, until) && DoFinish(w, p).Some? && !EndsSettling(w, Finish(p), id)
    ensures Leased(DoFinish(w, p).value, id, until)
  {
    var t, record, receipt := FinishEffect(w, p);
    hide DoFinish;
    OtherSessionKeepsLease(w, DoFinish(w, p).value, id, t.sessionId, until);
  }

  lemma UnlockKeepsLease(w: World, other: string, id: string, until: int)
    requires Leased(w, id, until) && DoUnlock(w, other).Some? && other != id
    ensures Leased(DoUnlock(w, other).value, id, until)
  {}

  lemma CountKeepsLease(w: World, other: string, request: S.Request, expected: S.SessionState, id: string, until: int)
    requires Leased(w, id, until) && DoCount(w, other, request, expected).Some?
    ensures Leased(DoCount(w, other, request, expected).value, id, until)
  {}

  lemma StepKeepsLease(w: World, s: Step, id: string, until: int)
    requires Inv(w) && Leased(w, id, until) && Next(w, s).Some? && !EndsSettling(w, s, id)
    ensures Leased(Next(w, s).value, id, until)
  {
    hide Inv, Leased, DoCreateSession, DoCreation, DoEnter, DoExamine, DoLock, DoFinish, DoUnlock, DoCount, DoJournal, DoSkipBond, DoGrantNonce, DoBeginCall, DoFetch, DoRecordRecovery, DoLand,
      DoConfirm, DoLoseResponse, DoSaveResult, DoValidate, DoFinalizeReservation, DoMarkSettled, DoStoreReceipt, DoReserve, P.Apply, V.MemoryFinalize;
    if !WritesSessions(s) {
      OthersKeepSessions(w, s);
      SameSessionsKeepLease(w, Next(w, s).value, id, until);
    } else {
      match s {
        case Creation(p, creation) => CreationKeepsLease(w, p, creation, id, until);
        case Lock(p, now) => LockKeepsLease(w, p, now, id, until);
        case StoreReceipt(p) => StoreReceiptKeepsLease(w, p, id, until);
        case CreateSession(p, adapter, other, terms) => CreateSessionKeepsLease(w, p, adapter, other, terms, id, until);
        case Finish(p) => FinishKeepsLease(w, p, id, until);
        case Unlock(other) => UnlockKeepsLease(w, other, id, until);
        case CountRequest(other, request, expected) => CountKeepsLease(w, other, request, expected, id, until);
      }
    }
  }

  lemma {:induction false} RunKeepsLease(w: World, steps: seq<Step>, id: string, until: int)
    requires Inv(w) && Leased(w, id, until) && StaysSettling(w, steps, id)
    ensures Leased(Run(w, steps), id, until)
    decreases |steps|
  {
    hide Inv, Next, Leased, EndsSettling;
    if steps != [] {
      match Next(w, steps[0]) {
        case Some(w') =>
          StepKeepsLease(w, steps[0], id, until);
          StepKeepsInvariant(w, steps[0]);
          RunKeepsLease(w', steps[1..], id, until);
        case None => RunKeepsLease(w, steps[1..], id, until);
      }
    }
  }

  lemma ClaimLeases(w: World, p: nat, now: int, id: string)
    requires Claims(w, p, id) && Next(w, Lock(p, now)).Some?
    ensures Leased(Next(w, Lock(p, now)).value, id, now + LEASE_MS)
  {}

  lemma ClaimMeansExpired(w: World, q: nat, now: int, id: string, until: int)
    requires Claims(w, q, id) && Next(w, Lock(q, now)).Some? && Leased(w, id, until)
    ensures now >= until
  {
    assert Next(w, Lock(q, now)) == DoLock(w, q, now);
    LockWrites(w, q, now);
    hide Next, DoLock, LockedSessions;
    LockedKeepsLease(w.sessions, w.processes[q].task.kind, id, now, id, until);
  }

  /** On every run of the gateway, with its blind saves, creations, aborts and expire routes: if
      one process is granted a session's lease and another, or the same, is granted it later,
      then somebody has taken the session out of settlement in between, or the two grants are
      at least the lease apart by their own clocks. */
  lemma LeasesAreApart(start: World, before: seq<Step>, p: nat, now: int, between: seq<Step>, q: nat, now': int, id: string)
    requires Initial(start) && Claims(Run(start, before), p, id) && Next(Run(start, before), Lock(p, now)).Some?
    requires var leased := Next(Run(start, before), Lock(p, now)).value;
      && StaysSettling(leased, between, id)
      && Claims(Run(leased, between), q, id) && Next(Run(leased, between), Lock(q, now')).Some?
    ensures now' >= now + 30_000
  {
    hide Initial, Inv, Next, Claims, Leased, StaysSettling, Run;
    InitialIsGood(start);
    RunKeepsInvariant(start, before);
    var w := Run(start, before);
    ClaimLeases(w, p, now, id);
    StepKeepsInvariant(w, Lock(p, now));
    var leased := Next(w, Lock(p, now)).value;
    RunKeepsLease(leased, between, id, now + LEASE_MS);
    ClaimMeansExpired(Run(leased, between), q, now', id, now + LEASE_MS);
  }
}
