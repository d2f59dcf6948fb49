/** The journal never claims a settlement that is not on chain. */
module SettlementTruth {
  import opened Wrappers
  import opened Primitives
  import opened AdapterContract
  import opened SettlementEvidence
  import opened SettlementJournal
  import opened Settlement
  import opened SettlementInvariant
  import opened SettlementSteps
  import opened SettlementSafety
  import S = Sessions
  import V = Inventory
  import P = BondProgram
  import B = BondAdapter

  /** An attempt that is confirmed, or names a transaction, tells of a settlement on chain. */
  ghost predicate EntryTrue(w: World, a: Attempt) {
    a.status == CONFIRMED || a.providerReference.Some? ==>
      a.key.sessionId in w.verified && SettledFor(w, w.verified[a.key.sessionId], a.key, a.evidence.payload.penalty)
  }

  /** The case a process works on. */
  function CaseOf(pr: Process): Option<Case> {
    match pr
    case Journaled(c) => Some(c)
    case Granted(c) => Some(c)
    case Asking(c, _, _) => Some(c)
    case Recovering(c, _, _) => Some(c)
    case Submitted(c, _) => Some(c)
    case Answered(c, _, _) => Some(c)
    case _ => None
  }

  /** Only a confirmation names a transaction. */
  predicate ResultPlain(result: AdapterResult) {
    result.status == CONFIRMED || (result.status == FAILED && result.providerReference == None)
  }

  ghost predicate HandTrue(w: World, pr: Process) {
    && (CaseOf(pr).Some? ==> EntryTrue(w, CaseOf(pr).value.attempt))
    && (pr.Answered? ==> ResultPlain(pr.result))
  }

  ghost predicate JournalTrue(w: World) {
    && (forall key | key in w.attempts :: EntryTrue(w, w.attempts[key]))
    && (forall p | p in w.processes :: HandTrue(w, w.processes[p]))
  }

  lemma EntryStable(w: World, w': World, a: Attempt)
    requires Grows(w, w') && EntryTrue(w, a)
    ensures EntryTrue(w', a)
  {
    if a.status == CONFIRMED || a.providerReference.Some? {
      SettledForStable(w, w', w.verified[a.key.sessionId], a.key, a.evidence.payload.penalty);
    }
    hide SettledFor;
  }

  // ---------------------------------------------------------------------------------
  // Steps that leave journal and cases alone
  // ---------------------------------------------------------------------------------

  /** The journal key of the task of a process that has examined its case. */
  function Concern(pr: Process): Option<SettlementKey> {
    match pr
    case Creating(_, _, _) => None
    case Entered(_) => None
    case Examined(t) => Some(TaskKey(t))
    case Locked(t) => Some(TaskKey(t))
    case Settled(t, _, _) => Some(TaskKey(t))
    case Finalized(t, _, _, _) => Some(TaskKey(t))
    case Finishing(t, _, _) => Some(TaskKey(t))
    case Closing(_, _, _) => None
    case _ => Some(TaskKey(CaseOf(pr).value.task))
  }

  datatype Charge = Charge(cap: nat, usage: nat)

  /** The usage a process charges the session, and the session's cap. */
  function ChargeOf(pr: Process): Option<Charge> {
    match pr
    case Settled(t, usage, _) => Some(Charge(t.session.terms.usageCap, usage))
    case Finalized(t, usage, _, _) => Some(Charge(t.session.terms.usageCap, usage))
    case Finishing(t, usage, _) => Some(Charge(t.session.terms.usageCap, usage))
    case Closing(_, record, receipt) => Some(Charge(record.terms.usageCap, receipt.usageCharged))
    case _ => (match CaseOf(pr) case Some(c) => Some(Charge(c.task.session.terms.usageCap, c.usage)) case None => None)
  }

  /** The process whose step does more than to carry on. */
  datatype Role = Nobody | Finishes(p: nat) | Examines(p: nat) | Skips(p: nat)

  function RoleIn(s: Step): Role {
    match s
    case Finish(p) => Finishes(p)
    case Examine(p, _) => Examines(p)
    case SkipBond(p, _) => Skips(p)
    case _ => Nobody
  }

  /** The process works on the attempt it had, or on none; a new answer is plain; only the process
      that finishes comes to hold a receipt, only one that examines its case goes on with it, and
      only one that skips the bond charges anything new. */
  predicate HandCarried(w: World, p: nat, pr: Process, role: Role) {
    && (CaseOf(pr).Some? ==>
          p in w.processes && CaseOf(w.processes[p]).Some? && CaseOf(w.processes[p]).value.attempt == CaseOf(pr).value.attempt)
    && (pr.Answered? ==> ResultPlain(pr.result) || (p in w.processes && w.processes[p].Answered? && w.processes[p].result == pr.result))
    && (pr.Closing? ==> role == Finishes(p) || (p in w.processes && w.processes[p] == pr))
    && (Concern(pr).Some? ==> role == Examines(p) || (p in w.processes && Concern(w.processes[p]) == Concern(pr)))
    && (ChargeOf(pr).Some? ==> role == Finishes(p) || role == Skips(p) || (p in w.processes && ChargeOf(w.processes[p]) == ChargeOf(pr)))
  }

  ghost predicate Carried(w: World, w': World, role: Role) {
    w'.attempts == w.attempts && forall p | p in w'.processes :: HandCarried(w, p, w'.processes[p], role)
  }

  lemma SameHand(w: World, p: nat, role: Role)
    requires p in w.processes
    ensures HandCarried(w, p, w.processes[p], role)
  {}

  /** Whatever else happens, one process moves on. */
  lemma OneMoves(w: World, w': World, p: nat, role: Role)
    requires w'.attempts == w.attempts && (p in w'.processes ==> HandCarried(w, p, w'.processes[p], role))
    requires forall q | q in w'.processes && q != p :: q in w.processes && w'.processes[q] == w.processes[q]
    ensures Carried(w, w', role)
  {
    forall q | q in w'.processes ensures HandCarried(w, q, w'.processes[q], role) {
      if q != p { SameHand(w, q, role); }
    }
  }

  lemma NoneMoves(w: World, w': World)
    requires w'.attempts == w.attempts && forall q | q in w'.processes :: q in w.processes && w'.processes[q] == w.processes[q]
    ensures Carried(w, w', Nobody)
  {
    forall q | q in w'.processes ensures HandCarried(w, q, w'.processes[q], Nobody) {
      SameHand(w, q, Nobody);
    }
  }

  lemma CarriedTrue(w: World, w': World, role: Role)
    requires JournalTrue(w) && Grows(w, w') && Carried(w, w', role)
    ensures JournalTrue(w')
  {
    hide EntryTrue, Grows;
    forall key | key in w'.attempts ensures EntryTrue(w', w'.attempts[key]) {
      EntryStable(w, w', w.attempts[key]);
    }
    forall p | p in w'.processes ensures HandTrue(w', w'.processes[p]) {
      if CaseOf(w'.processes[p]).Some? {
        assert HandTrue(w, w.processes[p]);
        EntryStable(w, w', CaseOf(w.processes[p]).value.attempt);
      }
      assert w'.processes[p].Answered? ==> HandCarried(w, p, w'.processes[p], role);
    }
  }

  lemma CreateSessionCarries(w: World, p: nat, adapter: nat, id: string, terms: S.Terms)
    requires DoCreateSession(w, p, adapter, id, terms).Some?
    ensures Carried(w, DoCreateSession(w, p, adapter, id, terms).value, Nobody)
  {
    OneMoves(w, DoCreateSession(w, p, adapter, id, terms).value, p, Nobody);
  }

  ghost predicate OnlyCreates(w: World, w': World, p: nat) {
    && w'.attempts == w.attempts && (p in w'.processes ==> w'.processes[p].Creating?)
    && forall q | q in w'.processes && q != p :: q in w.processes && w'.processes[q] == w.processes[q]
  }

  lemma AdvanceMoves(w: World, p: nat, expected: S.SessionState, next: S.SessionState, stage: CreationStage)
    requires p in w.processes && w.processes[p].Creating? && DoAdvance(w, p, expected, next, stage).Some?
    ensures OnlyCreates(w, DoAdvance(w, p, expected, next, stage).value, p)
  {
    hide S.Transition;
  }

  lemma VerifyBondMoves(w: World, p: nat, account: Key)
    requires p in w.processes && w.processes[p].Creating? && DoVerifyBond(w, p, account).Some?
    ensures OnlyCreates(w, DoVerifyBond(w, p, account).value, p)
  {
    hide CacheOf, B.CheckOpenBond;
  }

  lemma CreationMoves(w: World, p: nat, s: CreationStep)
    requires DoCreation(w, p, s).Some?
    ensures OnlyCreates(w, DoCreation(w, p, s).value, p)
  {
    hide DoAdvance, DoVerifyBond;
    if s.CompilePolicy? { AdvanceMoves(w, p, S.CREATED, S.POLICY_READY, POLICY_READY); }
    if s.VerifyPayment? { AdvanceMoves(w, p, S.POLICY_READY, S.PAYMENT_READY, PAID); }
    if s.VerifyBond? { VerifyBondMoves(w, p, s.account); }
    if s.MarkBonded? { AdvanceMoves(w, p, S.PAYMENT_READY, S.BONDED, CreationStage.BONDED(w.processes[p].stage.bond)); }
    if s.Activate? {
      AdvanceMoves(w, p, if w.processes[p].stage.BOND_SAVED? then S.BONDED else S.PAYMENT_READY, S.ACTIVE, ACTIVATED);
    }
  }

  lemma CreationCarries(w: World, p: nat, s: CreationStep)
    requires DoCreation(w, p, s).Some?
    ensures Carried(w, DoCreation(w, p, s).value, Nobody)
  {
    CreationMoves(w, p, s);
    hide DoCreation;
    OneMoves(w, DoCreation(w, p, s).value, p, Nobody);
  }

  lemma EnterCarries(w: World, p: nat, kind: Kind, adapter: nat, id: string, reservation: string)
    requires DoEnter(w, p, kind, adapter, id, reservation).Some?
    ensures Carried(w, DoEnter(w, p, kind, adapter, id, reservation).value, Nobody)
  {
    OneMoves(w, DoEnter(w, p, kind, adapter, id, reservation).value, p, Nobody);
  }

  lemma ExamineCarries(w: World, p: nat, now: int)
    requires DoExamine(w, p, now).Some?
    ensures Carried(w, DoExamine(w, p, now).value, Examines(p))
  {
    OneMoves(w, DoExamine(w, p, now).value, p, Examines(p));
  }

  lemma LockCarries(w: World, p: nat, now: int)
    requires DoLock(w, p, now).Some?
    ensures Carried(w, DoLock(w, p, now).value, Nobody)
  {
    var _, _, _ := LockEffect(w, p, now);
    hide DoLock;
    OneMoves(w, DoLock(w, p, now).value, p, Nobody);
  }

  lemma SkipBondCarries(w: World, p: nat, usage: nat)
    requires DoSkipBond(w, p, usage).Some?
    ensures Carried(w, DoSkipBond(w, p, usage).value, Skips(p))
  {
    OneMoves(w, DoSkipBond(w, p, usage).value, p, Skips(p));
  }

  lemma GrantNonceCarries(w: World, p: nat)
    requires DoGrantNonce(w, p).Some?
    ensures Carried(w, DoGrantNonce(w, p).value, Nobody)
  {
    OneMoves(w, DoGrantNonce(w, p).value, p, Nobody);
  }

  lemma BeginIsPlain(cache: B.Cache, secret: string, q: B.Request)
    requires forall key | key in cache.settledResults :: cache.settledResults[key].status == CONFIRMED
    ensures B.Begin(cache, secret, q).0.Answer? ==> ResultPlain(B.Begin(cache, secret, q).0.result)
  {
    hide B.CheckEvidence;
  }

  lemma BeginCallCarries(w: World, p: nat, secret: string)
    requires Inv(w) && DoBeginCall(w, p, secret).Some?
    ensures Carried(w, DoBeginCall(w, p, secret).value, Nobody)
  {
    hide Inv, CacheOf, B.Begin;
    BeginCallEffect(w, p, secret);
    hide DoBeginCall;
    var c := w.processes[p].c;
    CacheConfirmed(w, c.task.adapter);
    BeginIsPlain(CacheOf(w, c.task.adapter), secret, c.request);
    OneMoves(w, DoBeginCall(w, p, secret).value, p, Nobody);
  }

  lemma CacheConfirmed(w: World, a: nat)
    requires Inv(w)
    ensures forall key | key in CacheOf(w, a).settledResults :: CacheOf(w, a).settledResults[key].status == CONFIRMED
  {
    hide SessionsGood, ReservationsGood, AttemptsGood, NoncesGood, SubmissionsGood, ProcessesGood, OwnersDistinct, ExitsGood, P.Good;
    CacheOfGood(w, a);
    hide CacheOf, SettledFor, CachesGood;
  }

  lemma DecideIsPlain(q: B.Request, receiptHash: Hash, fetch: B.Fetch)
    ensures B.Decide(q, receiptHash, fetch).Reply? ==> ResultPlain(B.Decide(q, receiptHash, fetch).result)
  {}

  /** A process that goes on with its case, or with none and no receipt. */
  lemma GoesOn(w: World, p: nat, c: Case, pr: Process)
    requires p in w.processes && CaseOf(w.processes[p]) == Some(c) && CaseOf(pr) == Some(c) && (pr.Answered? ==> ResultPlain(pr.result))
    ensures HandCarried(w, p, pr, Nobody)
  {}

  function DecisionOf(w: World, p: nat, reachable: bool): B.Decision
    requires p in w.processes && w.processes[p].Asking?
  {
    B.Decide(w.processes[p].c.request, w.processes[p].receiptHash, FetchFrom(w.chain, w.processes[p].bond, reachable))
  }

  lemma FetchReplies(w: World, p: nat, reachable: bool)
    requires p in w.processes && w.processes[p].Asking? && DecisionOf(w, p, reachable).Reply?
    ensures DoFetch(w, p, reachable) == Some(With(w, p, Answered(w.processes[p].c, DecisionOf(w, p, reachable).result, 2)))
  {
    hide B.Decide, FetchFrom, SettlementInstruction;
  }

  lemma FetchRecovers(w: World, p: nat, reachable: bool)
    requires p in w.processes && w.processes[p].Asking? && DecisionOf(w, p, reachable).Recover?
    ensures var d := DecisionOf(w, p, reachable); DoFetch(w, p, reachable) == Some(With(w, p, Recovering(w.processes[p].c, d.penalty, d.bondRefunded)))
  {
    hide B.Decide, FetchFrom, SettlementInstruction;
  }

  lemma FetchSubmits(w: World, p: nat, reachable: bool) returns (submissions: seq<Submission>)
    requires p in w.processes && w.processes[p].Asking? && DecisionOf(w, p, reachable).Submit? && DoFetch(w, p, reachable).Some?
    ensures DoFetch(w, p, reachable) == Some(With(w.(submissions := submissions), p, Submitted(w.processes[p].c, |w.submissions|)))
  {
    hide B.Decide, FetchFrom, SettlementInstruction, B.PenaltyOf, TaskKey;
    submissions := DoFetch(w, p, reachable).value.submissions;
  }

  /** The process keeps its case; an answer is plain. */
  lemma FetchShape(w: World, p: nat, reachable: bool) returns (pr: Process, submissions: seq<Submission>)
    requires DoFetch(w, p, reachable).Some?
    ensures p in w.processes && w.processes[p].Asking? && DoFetch(w, p, reachable).value == With(w.(submissions := submissions), p, pr)
    ensures CaseOf(pr) == Some(w.processes[p].c) && (pr.Answered? ==> ResultPlain(pr.result)) && !pr.Closing?
  {
    assert p in w.processes && w.processes[p].Asking?;
    var c, d := w.processes[p].c, DecisionOf(w, p, reachable);
    DecideIsPlain(c.request, w.processes[p].receiptHash, FetchFrom(w.chain, w.processes[p].bond, reachable));
    hide DoFetch, B.Decide, FetchFrom, ResultPlain;
    submissions := w.submissions;
    match d {
      case Reply(result) =>
        FetchReplies(w, p, reachable);
        pr := Answered(c, result, 2);
      case Recover(penalty, refunded) =>
        FetchRecovers(w, p, reachable);
        pr := Recovering(c, penalty, refunded);
      case Submit =>
        submissions := FetchSubmits(w, p, reachable);
        pr := Submitted(c, |w.submissions|);
    }
  }

  lemma AskingCaseOf(pr: Process)
    requires pr.Asking?
    ensures CaseOf(pr) == Some(pr.c)
  {}

  lemma FetchCarries(w: World, p: nat, reachable: bool)
    requires DoFetch(w, p, reachable).Some?
    ensures Carried(w, DoFetch(w, p, reachable).value, Nobody)
  {
    hide HandCarried, DoFetch, CaseOf, ResultPlain;
    var pr, _ := FetchShape(w, p, reachable);
    AskingCaseOf(w.processes[p]);
    GoesOn(w, p, w.processes[p].c, pr);
    OneMoves(w, DoFetch(w, p, reachable).value, p, Nobody);
  }

  lemma RecordRecoveryCarries(w: World, p: nat, latest: Option<string>)
    requires DoRecordRecovery(w, p, latest).Some?
    ensures Carried(w, DoRecordRecovery(w, p, latest).value, Nobody)
  {
    OneMoves(w, DoRecordRecovery(w, p, latest).value, p, Nobody);
  }

  lemma LandCarries(w: World, tx: nat)
    requires DoLand(w, tx).Some?
    ensures Carried(w, DoLand(w, tx).value, Nobody)
  {
    hide P.Execute;
    NoneMoves(w, DoLand(w, tx).value);
  }

  lemma ConfirmCarries(w: World, p: nat, signature: string)
    requires DoConfirm(w, p, signature).Some?
    ensures Carried(w, DoConfirm(w, p, signature).value, Nobody)
  {
    OneMoves(w, DoConfirm(w, p, signature).value, p, Nobody);
  }

  lemma LoseResponseCarries(w: World, p: nat, code: FailureCode)
    requires DoLoseResponse(w, p, code).Some?
    ensures Carried(w, DoLoseResponse(w, p, code).value, Nobody)
  {
    OneMoves(w, DoLoseResponse(w, p, code).value, p, Nobody);
  }

  lemma ValidateCarries(w: World, p: nat)
    requires DoValidate(w, p).Some?
    ensures Carried(w, DoValidate(w, p).value, Nobody)
  {
    var _ := ValidateEffect(w, p);
    hide DoValidate;
    OneMoves(w, DoValidate(w, p).value, p, Nobody);
  }

  /** A settled process that goes on to finish. */
  predicate GoesOnSettled(was: Process, pr: Process) {
    && was.Settled?
    && ((pr.Finalized? && pr.task == was.task && pr.usage == was.usage) || (pr.Finishing? && pr.task == was.task && pr.usage == was.usage))
  }

  lemma FinalizeMoves(w: World, p: nat, now: int)
    requires DoFinalizeReservation(w, p, now).Some?
    ensures var w' := DoFinalizeReservation(w, p, now).value;
      && w'.attempts == w.attempts && p in w.processes && p in w'.processes && w'.processes == w.processes[p := w'.processes[p]]
      && GoesOnSettled(w.processes[p], w'.processes[p])
  {
    FinalizeReservationEffect(w, p, now);
    hide DoFinalizeReservation, V.MemoryFinalize;
  }

  lemma SettledCarries(w: World, p: nat, pr: Process)
    requires p in w.processes && GoesOnSettled(w.processes[p], pr)
    ensures HandCarried(w, p, pr, Nobody)
  {}

  lemma FinalizeReservationCarries(w: World, p: nat, now: int)
    requires DoFinalizeReservation(w, p, now).Some?
    ensures Carried(w, DoFinalizeReservation(w, p, now).value, Nobody)
  {
    FinalizeMoves(w, p, now);
    hide DoFinalizeReservation, HandCarried;
    SettledCarries(w, p, DoFinalizeReservation(w, p, now).value.processes[p]);
    OneMoves(w, DoFinalizeReservation(w, p, now).value, p, Nobody);
  }

  lemma MarkSettledCarries(w: World, p: nat)
    requires DoMarkSettled(w, p).Some?
    ensures Carried(w, DoMarkSettled(w, p).value, Nobody)
  {
    OneMoves(w, DoMarkSettled(w, p).value, p, Nobody);
  }

  lemma FinishCarries(w: World, p: nat)
    requires DoFinish(w, p).Some?
    ensures Carried(w, DoFinish(w, p).value, Finishes(p))
  {
    var _, _, _ := FinishEffect(w, p);
    hide DoFinish;
    OneMoves(w, DoFinish(w, p).value, p, Finishes(p));
  }

  lemma StoreReceiptCarries(w: World, p: nat)
    requires DoStoreReceipt(w, p).Some?
    ensures Carried(w, DoStoreReceipt(w, p).value, Nobody)
  {
    NoneMoves(w, DoStoreReceipt(w, p).value);
  }

  lemma ReserveCarries(w: World, id: string, product: string, now: int, expiresAt: int)
    requires DoReserve(w, id, product, now, expiresAt).Some?
    ensures Carried(w, DoReserve(w, id, product, now, expiresAt).value, Nobody)
  {
    hide V.MemoryCreate, V.ReservationId;
    NoneMoves(w, DoReserve(w, id, product, now, expiresAt).value);
  }

  /** Steps of no process, or of one that dies. */
  predicate IsOutside(s: Step) {
    s.Unlock? || s.Crash? || s.Restart? || s.CountRequest? || s.EndReservation? || s.Onchain?
  }

  lemma OutsideCarries(w: World, s: Step)
    requires Next(w, s).Some? && IsOutside(s)
    ensures Carried(w, Next(w, s).value, Nobody)
  {
    hide Carried, HandCarried, P.Apply, V.MemoryFinalize, S.ReserveRequest, S.Transition, DoCreateSession, DoCreation, DoEnter, DoExamine, DoLock,
      DoSkipBond, DoGrantNonce, DoBeginCall, DoFetch, DoRecordRecovery, DoLand, DoConfirm, DoLoseResponse, DoValidate, DoFinalizeReservation,
      DoMarkSettled, DoFinish, DoStoreReceipt, DoReserve, DoJournal, DoSaveResult;
    NoneMoves(w, Next(w, s).value);
  }

  lemma StepCarries(w: World, s: Step)
    requires Inv(w) && Next(w, s).Some? && !s.Journal? && !s.SaveResult?
    ensures Carried(w, Next(w, s).value, RoleIn(s))
  {
    hide Inv, Carried, DoCreateSession, DoCreation, DoEnter, DoExamine, DoLock, DoSkipBond, DoGrantNonce, DoBeginCall, DoFetch, DoRecordRecovery, DoLand,
      DoConfirm, DoLoseResponse, DoValidate, DoFinalizeReservation, DoMarkSettled, DoFinish, DoStoreReceipt, DoReserve, DoUnlock, DoCount, DoRestart, P.Apply, V.MemoryFinalize;
    if IsOutside(s) {
      OutsideCarries(w, s);
      hide Next;
    } else {
      ProcessStepCarries(w, s);
      hide Next;
    }
  }

  lemma ProcessStepCarries(w: World, s: Step)
    requires Inv(w) && Next(w, s).Some? && !s.Journal? && !s.SaveResult? && !IsOutside(s)
    ensures Carried(w, Next(w, s).value, RoleIn(s))
  {
    hide Inv, Carried, DoCreateSession, DoCreation, DoEnter, DoExamine, DoLock, DoSkipBond, DoGrantNonce, DoBeginCall, DoFetch, DoRecordRecovery, DoLand,
      DoConfirm, DoLoseResponse, DoValidate, DoFinalizeReservation, DoMarkSettled, DoFinish, DoStoreReceipt, DoReserve, P.Apply, V.MemoryFinalize;
    match s {
      case CreateSession(p, adapter, id, terms) => CreateSessionCarries(w, p, adapter, id, terms);
      case Creation(p, creation) => CreationCarries(w, p, creation);
      case Enter(p, kind, adapter, id, reservation) => EnterCarries(w, p, kind, adapter, id, reservation);
      case Examine(p, now) => ExamineCarries(w, p, now);
      case Lock(p, now) => LockCarries(w, p, now);
      case SkipBond(p, usage) => SkipBondCarries(w, p, usage);
      case GrantNonce(p) => GrantNonceCarries(w, p);
      case BeginCall(p, secret) => BeginCallCarries(w, p, secret);
      case FetchBond(p, reachable) => FetchCarries(w, p, reachable);
      case RecordRecovery(p, latest) => RecordRecoveryCarries(w, p, latest);
      case Land(tx) => LandCarries(w, tx);
      case Confirm(p, signature) => ConfirmCarries(w, p, signature);
      case LoseResponse(p, code) => LoseResponseCarries(w, p, code);
      case Validate(p) => ValidateCarries(w, p);
      case FinalizeReservation(p, now) => FinalizeReservationCarries(w, p, now);
      case MarkSettled(p) => MarkSettledCarries(w, p);
      case Finish(p) => FinishCarries(w, p);
      case StoreReceipt(p) => StoreReceiptCarries(w, p);
      case MakeReservation(id, product, now, expiresAt) => ReserveCarries(w, id, product, now, expiresAt);
    }
  }

  // ---------------------------------------------------------------------------------
  // Writing the journal
  // ---------------------------------------------------------------------------------

  /** One entry is written and the process that wrote it holds it. */
  lemma WrittenTrue(w: World, w': World, p: nat, entry: Attempt, pr: Process)
    requires JournalTrue(w) && Grows(w, w') && EntryTrue(w', entry)
    requires w' == With(w.(attempts := w.attempts[entry.key := entry]), p, pr) && CaseOf(pr).Some? && CaseOf(pr).value.attempt == entry
    requires pr.Answered? ==> ResultPlain(pr.result)
    ensures JournalTrue(w')
  {
    hide EntryTrue, Grows, CaseOf;
    forall key | key in w'.attempts ensures EntryTrue(w', w'.attempts[key]) {
      if key != entry.key { EntryStable(w, w', w.attempts[key]); }
    }
    forall q | q in w'.processes ensures HandTrue(w', w'.processes[q]) {
      if q != p {
        assert HandTrue(w, w.processes[q]);
        if CaseOf(w.processes[q]).Some? { EntryStable(w, w', CaseOf(w.processes[q]).value.attempt); }
      }
    }
  }

  lemma JournalIsTrue(w: World, p: nat, usage: nat, issuedAt: string, authority: string, now: int)
    requires Inv(w) && JournalTrue(w) && DoJournal(w, p, usage, issuedAt, authority, now).Some?
    requires Grows(w, DoJournal(w, p, usage, issuedAt, authority, now).value)
    ensures JournalTrue(DoJournal(w, p, usage, issuedAt, authority, now).value)
  {
    hide Inv, Grows, EntryTrue, NewRequest, NewPayload, CreateEvidence;
    var attempt, stored := JournalEntry(w, p, usage, issuedAt, authority, now);
    JournalFacts(w, p);
    hide DoJournal, JournalReady;
    var w' := DoJournal(w, p, usage, issuedAt, authority, now).value;
    if TaskKey(w.processes[p].task) in w.attempts {
      EntryStable(w, w', stored);
    } else {
      assert EntryTrue(w', stored) by { PendingIsTrue(w', stored); }
    }
    WrittenTrue(w, w', p, stored, w'.processes[p]);
  }

  lemma PendingIsTrue(w: World, a: Attempt)
    requires a.status == PENDING && a.providerReference == None
    ensures EntryTrue(w, a)
  {}

  lemma JournalEntry(w: World, p: nat, usage: nat, issuedAt: string, authority: string, now: int) returns (attempt: Attempt, stored: Attempt)
    requires DoJournal(w, p, usage, issuedAt, authority, now).Some?
    ensures p in w.processes && w.processes[p].Locked? && Bonded(w.processes[p].task.session.terms)
    ensures var t := w.processes[p].task;
      && attempt.key == TaskKey(t) && attempt.status == PENDING && attempt.providerReference == None
      && stored == (if TaskKey(t) in w.attempts then w.attempts[TaskKey(t)] else attempt)
      && DoJournal(w, p, usage, issuedAt, authority, now).value ==
         With(w.(attempts := w.attempts[TaskKey(t) := stored]), p, Journaled(Case(t, usage, stored, NewRequest(t, stored.evidence))))
  {
    var t := w.processes[p].task;
    attempt := Attempt(TaskKey(t), CreateEvidence(NewPayload(t, usage, issuedAt, authority), w.secret).value, PENDING, true, None, None, now, now);
    stored := Create(w.attempts, attempt)[TaskKey(t)];
    assert Create(w.attempts, attempt) == w.attempts[TaskKey(t) := stored];
  }

  /** A merge names a transaction or confirms only if one of its parts does. */
  lemma MergeTells(current: Attempt, incoming: Attempt)
    requires Merge(current, incoming).Ok?
    ensures var merged := Merge(current, incoming).value;
      && merged.key == current.key && merged.evidence == current.evidence
      && (merged.status == CONFIRMED ==> current.status == CONFIRMED || incoming.status == CONFIRMED)
      && (merged.providerReference.Some? ==> current.providerReference.Some? || incoming.providerReference.Some?)
  {}

  lemma SaveTells(w: World, p: nat, now: int) returns (merged: Attempt)
    requires DoSaveResult(w, p, now).Some?
    ensures p in w.processes && w.processes[p].Answered? && w.processes[p].c.attempt.key in w.attempts && w.processes[p].saves > 0
    ensures var pr, current := w.processes[p], w.attempts[w.processes[p].c.attempt.key];
      && merged.key == current.key && merged.evidence == current.evidence
      && (merged.status == CONFIRMED ==> current.status == CONFIRMED || pr.result.status == CONFIRMED)
      && (merged.providerReference.Some? ==> current.providerReference.Some? || pr.c.attempt.providerReference.Some? || pr.result.providerReference.Some?)
      && DoSaveResult(w, p, now).value ==
         With(w.(attempts := w.attempts[pr.c.attempt.key := merged]), p, Answered(pr.c.(attempt := merged), pr.result, pr.saves - 1))
  {
    var pr := w.processes[p];
    merged := Merge(w.attempts[pr.c.attempt.key], WithResult(pr.c.attempt, pr.result, now)).value;
    MergeTells(w.attempts[pr.c.attempt.key], WithResult(pr.c.attempt, pr.result, now));
    hide Merge;
  }

  /** A confirmed answer is about a settlement with the journalled penalty. */
  lemma AnswerTells(w: World, c: Case, result: AdapterResult, saves: nat)
    requires Inv(w) && ProcessGood(w, Answered(c, result, saves)) && result.status == CONFIRMED
    ensures c.task.sessionId in w.verified && TaskKey(c.task) in w.attempts
    ensures SettledFor(w, w.verified[c.task.sessionId], TaskKey(c.task), w.attempts[TaskKey(c.task)].evidence.payload.penalty)
  {
    hide Inv, CaseGood;
  }

  lemma SaveIsTrue(w: World, p: nat, now: int)
    requires Inv(w) && JournalTrue(w) && DoSaveResult(w, p, now).Some?
    requires Grows(w, DoSaveResult(w, p, now).value)
    ensures JournalTrue(DoSaveResult(w, p, now).value)
  {
    hide Inv, Grows, CaseGood, ProcessGood, SettledFor;
    var merged := SaveTells(w, p, now);
    var pr := w.processes[p];
    hide DoSaveResult;
    ProcessFact(w, p);
    CaseOfAnswered(w, pr);
    SavedCase(w, pr.c);
    var current := w.attempts[TaskKey(pr.c.task)];
    if merged.status == CONFIRMED || merged.providerReference.Some? {
      if pr.result.status == CONFIRMED { AnswerTells(w, pr.c, pr.result, pr.saves); }
      assert HandTrue(w, pr) && EntryTrue(w, current);
    }
    assert EntryTrue(w, merged);
    var w' := DoSaveResult(w, p, now).value;
    EntryStable(w, w', merged);
    hide EntryTrue;
    WrittenTrue(w, w', p, merged, w'.processes[p]);
  }

  lemma CaseOfAnswered(w: World, pr: Process)
    requires pr.Answered? && ProcessGood(w, pr)
    ensures CaseGood(w, pr.c)
  {}

  lemma StepKeepsJournalTrue(w: World, s: Step)
    requires Inv(w) && JournalTrue(w) && Next(w, s).Some?
    ensures JournalTrue(Next(w, s).value)
  {
    hide Inv, JournalTrue, Grows;
    StepKeepsInvariant(w, s);
    hide DoJournal, DoSaveResult;
    match s {
      case Journal(p, usage, issuedAt, authority, now) => JournalIsTrue(w, p, usage, issuedAt, authority, now);
      case SaveResult(p, now) => SaveIsTrue(w, p, now);
      case _ =>
        StepCarries(w, s);
        hide Next;
        CarriedTrue(w, Next(w, s).value, RoleIn(s));
    }
  }

  lemma {:induction false} RunKeepsJournalTrue(w: World, steps: seq<Step>)
    requires Inv(w) && JournalTrue(w)
    ensures JournalTrue(Run(w, steps))
    decreases |steps|
  {
    hide Inv, JournalTrue, Next;
    if steps != [] {
      match Next(w, steps[0]) {
        case Some(w') =>
          StepKeepsJournalTrue(w, steps[0]);
          StepKeepsInvariant(w, steps[0]);
          RunKeepsJournalTrue(w', steps[1..]);
        case None => RunKeepsJournalTrue(w, steps[1..]);
      }
    }
  }

  lemma ReachableIsTrue(start: World, steps: seq<Step>)
    requires Initial(start)
    ensures Inv(Run(start, steps)) && JournalTrue(Run(start, steps))
  {
    InitialIsGood(start);
    assert JournalTrue(start);
    hide Inv, JournalTrue, Run, Initial;
    RunKeepsInvariant(start, steps);
    RunKeepsJournalTrue(start, steps);
  }

  /** On every run: a journal entry that is confirmed or names a transaction is that of a
      settlement on chain, with its evidence hash and its penalty, of the bond verified for the
      session. */
  lemma JournalNeverLies(start: World, steps: seq<Step>, key: SettlementKey)
    requires Initial(start) && key in Run(start, steps).attempts
    requires var a := Run(start, steps).attempts[key]; a.status == CONFIRMED || a.providerReference.Some?
    ensures var w := Run(start, steps);
      && key.sessionId in w.verified && SettledFor(w, w.verified[key.sessionId], key, w.attempts[key].evidence.payload.penalty)
  {
    hide Inv, Run, Initial, SettledFor;
    ReachableIsTrue(start, steps);
    assert EntryTrue(Run(start, steps), Run(start, steps).attempts[key]);
    AttemptFact(Run(start, steps), key);
    hide EvidenceHash, VerifyEvidence;
  }
}
