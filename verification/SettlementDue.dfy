/** The gateway settles nothing before it is due. */
module SettlementDue {
  import opened Wrappers
  import opened Primitives
  import opened SettlementEvidence
  import opened SettlementJournal
  import opened Settlement
  import opened SettlementInvariant
  import opened SettlementFrames
  import opened SettlementSteps
  import opened SettlementSafety
  import opened SettlementLeases
  import opened SettlementTruth
  import opened SettlementProgress
  import opened SettlementCalls
  import opened SettlementReceipts
  import S = Sessions
  import V = Inventory
  import P = BondProgram

  // ---------------------------------------------------------------------------------
  // What a process has seen
  // ---------------------------------------------------------------------------------

  /** At this step a process that settles under the key looks at the reservations: a close finds
      none of the session active, an expiry finds its own reservation active and due. */
  ghost predicate Saw(w: World, s: Step, key: SettlementKey) {
    && s.Examine? && s.p in w.processes && w.processes[s.p].Entered? && TaskKey(w.processes[s.p].task) == key
    && match key
       case CloseKey(id) => NothingReserved(w, id)
       case ExpiryKey(id, reservation) => Expired(w, id, reservation, s.now)
  }

  /** There is such a moment in the run. */
  ghost predicate WasDue(start: World, steps: seq<Step>, key: SettlementKey) {
    exists n | 0 <= n < |steps| :: Saw(Run(start, steps[..n]), steps[n], key)
  }

  ghost predicate EntryFounded(w: World, due: iset<SettlementKey>, key: SettlementKey)
    requires key in w.attempts
  {
    && key in due && key.sessionId in w.sessions
    && w.attempts[key].evidence.payload.usageCharged <= w.sessions[key.sessionId].terms.usageCap
  }

  ghost predicate HandFounded(due: iset<SettlementKey>, pr: Process) {
    && (Concern(pr).Some? ==> Concern(pr).value in due)
    && (ChargeOf(pr).Some? ==> ChargeOf(pr).value.usage <= ChargeOf(pr).value.cap)
    && (pr.Closing? && pr.receipt.outcome == S.CLOSED ==> pr.receipt.calls == pr.record.calls)
  }

  /** A session has ended for a reason, its receipt charges no more than the cap; that of a
      close counts all calls. */
  ghost predicate EndFounded(due: iset<SettlementKey>, id: string, r: S.SessionRecord) {
    && (r.state == S.CLOSED ==> CloseKey(id) in due)
    && (r.state == S.EXPIRED ==> exists reservation :: ExpiryKey(id, reservation) in due)
    && (r.receipt.Some? ==> r.receipt.value.usageCharged <= r.terms.usageCap && (r.receipt.value.outcome == S.CLOSED ==> r.receipt.value.calls == r.calls))
  }

  ghost predicate EntriesFounded(w: World, due: iset<SettlementKey>) {
    forall key | key in w.attempts :: EntryFounded(w, due, key)
  }

  ghost predicate HandsFounded(w: World, due: iset<SettlementKey>) {
    forall p | p in w.processes :: HandFounded(due, w.processes[p])
  }

  ghost predicate EndsFounded(w: World, due: iset<SettlementKey>) {
    forall id | id in w.sessions :: EndFounded(due, id, w.sessions[id])
  }

  ghost predicate Founded(w: World, due: iset<SettlementKey>) {
    EntriesFounded(w, due) && HandsFounded(w, due) && EndsFounded(w, due)
  }

  // ---------------------------------------------------------------------------------
  // Processes
  // ---------------------------------------------------------------------------------

  lemma ExamineSees(w: World, p: nat, now: int)
    requires DoExamine(w, p, now).Some?
    ensures DoExamine(w, p, now).value.processes[p].Examined? && p in w.processes && w.processes[p].Entered?
    ensures DoExamine(w, p, now).value.processes[p].task == w.processes[p].task
    ensures Saw(w, Examine(p, now), TaskKey(w.processes[p].task))
  {}

  lemma SkipCharges(w: World, p: nat, usage: nat)
    requires DoSkipBond(w, p, usage).Some?
    ensures var pr := DoSkipBond(w, p, usage).value.processes[p];
      pr.Settled? && pr.usage == usage <= pr.task.session.terms.usageCap
  {}

  lemma FinishCharges(w: World, p: nat, due: iset<SettlementKey>)
    requires Inv(w) && HandsFounded(w, due) && DoFinish(w, p).Some?
    ensures HandFounded(due, DoFinish(w, p).value.processes[p])
  {
    hide Inv;
    var t, record, receipt := FinishEffect(w, p);
    ProcessFact(w, p);
    hide DoFinish, SettledFor;
    assert HandFounded(due, w.processes[p]);
  }

  lemma HandCarriedFounded(w: World, due: iset<SettlementKey>, p: nat, pr: Process, role: Role)
    requires HandsFounded(w, due) && HandCarried(w, p, pr, role)
    requires !(role == Examines(p) || role == Skips(p) || role == Finishes(p))
    ensures HandFounded(due, pr)
  {
    if p in w.processes { assert HandFounded(due, w.processes[p]); }
    hide CaseOf, Concern, ChargeOf, ResultPlain;
  }

  /** Who examines a case knows it is due, who skips the bond charges within the cap. */
  lemma RoleFounded(w: World, due: iset<SettlementKey>, s: Step, p: nat)
    requires Inv(w) && HandsFounded(w, due) && Next(w, s).Some? && p in Next(w, s).value.processes
    requires RoleIn(s) == Examines(p) || RoleIn(s) == Skips(p) || RoleIn(s) == Finishes(p)
    requires HandCarried(w, p, Next(w, s).value.processes[p], RoleIn(s))
    requires forall key | Saw(w, s, key) :: key in due
    ensures HandFounded(due, Next(w, s).value.processes[p])
  {
    hide Inv, HandsFounded, HandCarried, DoExamine, DoSkipBond, DoFinish, HandFounded, Saw;
    match s {
      case Examine(_, now) =>
        ExamineSees(w, p, now);
        ExaminedFounded(due, DoExamine(w, p, now).value.processes[p]);
      case SkipBond(_, usage) =>
        SkipCharges(w, p, usage);
        SkippedFounded(w, due, p, DoSkipBond(w, p, usage).value.processes[p]);
      case Finish(_) => FinishCharges(w, p, due);
    }
  }

  lemma ExaminedFounded(due: iset<SettlementKey>, pr: Process)
    requires pr.Examined? && TaskKey(pr.task) in due
    ensures HandFounded(due, pr)
  {}

  lemma SkippedFounded(w: World, due: iset<SettlementKey>, p: nat, pr: Process)
    requires pr.Settled? && pr.usage <= pr.task.session.terms.usageCap
    requires HandsFounded(w, due) && HandCarried(w, p, pr, Skips(p))
    ensures HandFounded(due, pr)
  {
    assert p in w.processes ==> HandFounded(due, w.processes[p]);
  }

  lemma CarriedHands(w: World, due: iset<SettlementKey>, s: Step)
    requires Inv(w) && HandsFounded(w, due) && Next(w, s).Some? && Carried(w, Next(w, s).value, RoleIn(s))
    requires forall key | Saw(w, s, key) :: key in due
    ensures HandsFounded(Next(w, s).value, due)
  {
    hide Inv, Next, Saw, HandCarried;
    var w' := Next(w, s).value;
    forall p | p in w'.processes ensures HandFounded(due, w'.processes[p]) {
      assert HandCarried(w, p, w'.processes[p], RoleIn(s));
      hide HandFounded;
      if RoleIn(s) == Examines(p) || RoleIn(s) == Skips(p) || RoleIn(s) == Finishes(p) {
        RoleFounded(w, due, s, p);
      } else {
        HandCarriedFounded(w, due, p, w'.processes[p], RoleIn(s));
      }
    }
  }

  // ---------------------------------------------------------------------------------
  // The journal
  // ---------------------------------------------------------------------------------

  lemma TermsStay(w: World, w': World, key: SettlementKey)
    requires Inv(w) && Grows(w, w') && key in w.attempts
    ensures key.sessionId in w.sessions && key.sessionId in w'.sessions
    ensures w'.sessions[key.sessionId].terms == w.sessions[key.sessionId].terms
  {
    hide Inv;
    AttemptFact(w, key);
    SessionFact(w, key.sessionId);
    assert SessionGrows(w, w', key.sessionId);
    hide VerifyEvidence, EvidenceHash;
  }

  lemma EntryStays(w: World, w': World, due: iset<SettlementKey>, key: SettlementKey)
    requires Inv(w) && Grows(w, w') && key in w.attempts && EntryFounded(w, due, key)
    ensures key in w'.attempts && EntryFounded(w', due, key)
  {
    hide Inv;
    TermsStay(w, w', key);
  }

  lemma EntriesStay(w: World, w': World, due: iset<SettlementKey>)
    requires Inv(w) && Grows(w, w') && EntriesFounded(w, due) && w'.attempts.Keys == w.attempts.Keys
    ensures EntriesFounded(w', due)
  {
    hide Inv, Grows, EntryFounded;
    forall key | key in w'.attempts ensures EntryFounded(w', due, key) {
      EntryStays(w, w', due, key);
    }
  }

  lemma JournalCharges(w: World, p: nat, usage: nat, issuedAt: string, authority: string, now: int)
    requires DoJournal(w, p, usage, issuedAt, authority, now).Some?
    ensures p in w.processes && w.processes[p].Locked? && usage <= w.processes[p].task.session.terms.usageCap
    ensures var t, attempts := w.processes[p].task, DoJournal(w, p, usage, issuedAt, authority, now).value.attempts;
      attempts.Keys == w.attempts.Keys + {TaskKey(t)} && (TaskKey(t) !in w.attempts ==> attempts[TaskKey(t)].evidence.payload.usageCharged == usage)
  {
    hide EvidenceHash, NewRequest;
  }

  lemma JournalHands(w: World, due: iset<SettlementKey>, p: nat, usage: nat, issuedAt: string, authority: string, now: int)
    requires HandsFounded(w, due) && DoJournal(w, p, usage, issuedAt, authority, now).Some?
    ensures HandsFounded(DoJournal(w, p, usage, issuedAt, authority, now).value, due)
    ensures TaskKey(w.processes[p].task) in due && DoJournal(w, p, usage, issuedAt, authority, now).value.sessions == w.sessions
  {
    var w' := DoJournal(w, p, usage, issuedAt, authority, now).value;
    var _, stored := JournalEntry(w, p, usage, issuedAt, authority, now);
    JournalCharges(w, p, usage, issuedAt, authority, now);
    hide DoJournal, NewRequest;
    assert HandFounded(due, w.processes[p]);
    assert HandFounded(due, w'.processes[p]);
    hide HandFounded;
  }

  lemma JournalEntries(w: World, due: iset<SettlementKey>, p: nat, usage: nat, issuedAt: string, authority: string, now: int)
    requires Inv(w) && EntriesFounded(w, due) && HandsFounded(w, due) && DoJournal(w, p, usage, issuedAt, authority, now).Some?
    requires Grows(w, DoJournal(w, p, usage, issuedAt, authority, now).value)
    ensures EntriesFounded(DoJournal(w, p, usage, issuedAt, authority, now).value, due)
  {
    hide Inv, Grows, HandsFounded, HandFounded;
    var w' := DoJournal(w, p, usage, issuedAt, authority, now).value;
    JournalHands(w, due, p, usage, issuedAt, authority, now);
    JournalCharges(w, p, usage, issuedAt, authority, now);
    LockedTerms(w, p);
    hide DoJournal;
    var t := w.processes[p].task;
    assert TaskKey(t) !in w.attempts ==> EntryFounded(w', due, TaskKey(t));
    hide EntryFounded;
    forall key | key in w'.attempts ensures EntryFounded(w', due, key) {
      if key in w.attempts { EntryStays(w, w', due, key); }
    }
  }

  lemma LockedTerms(w: World, p: nat)
    requires Inv(w) && p in w.processes && w.processes[p].Locked?
    ensures var t := w.processes[p].task; TaskKey(t).sessionId == t.sessionId && t.sessionId in w.sessions && t.session.terms == w.sessions[t.sessionId].terms
  {
    hide Inv;
    ProcessFact(w, p);
  }

  lemma SaveFounded(w: World, due: iset<SettlementKey>, p: nat, now: int)
    requires Inv(w) && Founded(w, due) && DoSaveResult(w, p, now).Some?
    requires Grows(w, DoSaveResult(w, p, now).value)
    ensures EntriesFounded(DoSaveResult(w, p, now).value, due) && HandsFounded(DoSaveResult(w, p, now).value, due)
  {
    hide Inv, Grows, EntriesFounded, EndsFounded;
    var _ := SaveTells(w, p, now);
    hide DoSaveResult;
    var w' := DoSaveResult(w, p, now).value;
    EntriesStay(w, w', due);
    assert HandFounded(due, w.processes[p]);
    assert HandFounded(due, w'.processes[p]);
    hide HandFounded;
  }

  // ---------------------------------------------------------------------------------
  // Sessions
  // ---------------------------------------------------------------------------------

  lemma CreationEndsNothing(w: World, p: nat, s: CreationStep, id: string)
    requires Inv(w) && DoCreation(w, p, s).Some? && Inv(DoCreation(w, p, s).value) && Ended(DoCreation(w, p, s).value, id)
    ensures Ended(w, id)
  {
    hide Inv, DoCreation;
    CreationTouchesOwn(w, p, s);
    CreatorFacts(w, p, s);
    hide SessionGood, Unowned;
    CreatorLeavesOpen(w, p, s);
    hide CreatorReady;
  }

  lemma CreatorLeavesOpen(w: World, p: nat, s: CreationStep)
    requires CreatorReady(w, p) && DoCreation(w, p, s).Some?
    ensures !Ended(DoCreation(w, p, s).value, w.processes[p].record.sessionId)
  {
    hide SessionGood, Unowned, DoAdvance, DoVerifyBond;
    if s.SaveToken? || s.AbortCreation? || s.VerifyBond? {
      if s.VerifyBond? { VerifyKeepsSessions(w, p, s.account); }
    } else {
      var record, stage := CreationEffect(w, p, s);
      hide DoCreation;
    }
  }

  lemma VerifyKeepsSessions(w: World, p: nat, account: Key)
    requires p in w.processes && w.processes[p].Creating? && DoVerifyBond(w, p, account).Some?
    ensures DoVerifyBond(w, p, account).value.sessions == w.sessions
  {}

  lemma EndsOpenSession(w: World, s: Step, id: string)
    requires Inv(w) && Next(w, s).Some? && Inv(Next(w, s).value) && Ended(Next(w, s).value, id) && !Ended(w, id)
    ensures s.Finish? && s.p in w.processes && w.processes[s.p].Finishing? && w.processes[s.p].task.sessionId == id
  {
    hide Inv, DoCreateSession, DoCreation, DoEnter, DoExamine, DoLock, DoJournal, DoSkipBond, DoGrantNonce, DoBeginCall, DoFetch, DoRecordRecovery,
      DoLand, DoConfirm, DoLoseResponse, DoSaveResult, DoValidate, DoFinalizeReservation, DoMarkSettled, DoFinish, DoStoreReceipt, DoUnlock, DoCount,
      DoReserve, P.Apply, V.MemoryFinalize;
    if !WritesSessions(s) { OthersKeepSessions(w, s); }
    match s {
      case Creation(p, creation) => CreationEndsNothing(w, p, creation, id);
      case CreateSession(p, adapter, other, terms) => CreateEndsNothing(w, p, adapter, other, terms, id);
      case Lock(p, now) => LockEndsNothing(w, p, now, id);
      case Finish(p) => FinishEndsOne(w, p, id);
      case StoreReceipt(p) => StoreEndsNothing(w, p, id);
      case Unlock(other) => UnlockEndsNothing(w, other, id);
      case CountRequest(other, request, expected) => CountEndsNothing(w, other, request, expected, id);
      case _ =>
    }
  }

  lemma CreateEndsNothing(w: World, p: nat, adapter: nat, other: string, terms: S.Terms, id: string)
    requires DoCreateSession(w, p, adapter, other, terms).Some? && Ended(DoCreateSession(w, p, adapter, other, terms).value, id)
    ensures Ended(w, id)
  {}

  lemma LockEndsNothing(w: World, p: nat, now: int, id: string)
    requires DoLock(w, p, now).Some? && Ended(DoLock(w, p, now).value, id)
    ensures Ended(w, id)
  {
    var _, _, _ := LockEffect(w, p, now);
    hide DoLock;
  }

  lemma FinishEndsOne(w: World, p: nat, id: string)
    requires DoFinish(w, p).Some? && Ended(DoFinish(w, p).value, id) && !Ended(w, id)
    ensures p in w.processes && w.processes[p].Finishing? && w.processes[p].task.sessionId == id
  {
    var _, _, _ := FinishEffect(w, p);
    hide DoFinish;
  }

  lemma StoreEndsNothing(w: World, p: nat, id: string)
    requires Inv(w) && DoStoreReceipt(w, p).Some? && Ended(DoStoreReceipt(w, p).value, id)
    ensures Ended(w, id)
  {
    hide Inv;
    ProcessFact(w, p);
    hide ReceiptTrue;
  }

  lemma UnlockEndsNothing(w: World, other: string, id: string)
    requires DoUnlock(w, other).Some? && Ended(DoUnlock(w, other).value, id)
    ensures Ended(w, id)
  {}

  lemma CountEndsNothing(w: World, other: string, request: S.Request, expected: S.SessionState, id: string)
    requires DoCount(w, other, request, expected).Some? && Ended(DoCount(w, other, request, expected).value, id)
    ensures Ended(w, id)
  {}

  lemma FinishFounded(w: World, due: iset<SettlementKey>, p: nat)
    requires Inv(w) && HandsFounded(w, due) && DoFinish(w, p).Some?
    ensures var t := w.processes[p].task; EndFounded(due, t.sessionId, DoFinish(w, p).value.sessions[t.sessionId])
  {
    hide Inv;
    var t, _, _ := FinishEffect(w, p);
    hide DoFinish;
    SessionFact(w, t.sessionId);
    assert HandFounded(due, w.processes[p]);
    hide BondMatches;
  }

  lemma StoreFounded(w: World, due: iset<SettlementKey>, p: nat)
    requires Inv(w) && HandsFounded(w, due) && EndsFounded(w, due) && DoStoreReceipt(w, p).Some?
    ensures var id := w.processes[p].record.sessionId; EndFounded(due, id, DoStoreReceipt(w, p).value.sessions[id])
  {
    hide Inv;
    ProcessFact(w, p);
    assert HandFounded(due, w.processes[p]);
    hide ReceiptTrue;
  }

  lemma OpenIsFounded(w: World, due: iset<SettlementKey>, id: string)
    requires Inv(w) && id in w.sessions && !Ended(w, id)
    ensures EndFounded(due, id, w.sessions[id])
  {
    hide Inv;
    SessionFact(w, id);
    hide BondMatches;
  }

  lemma EndedStaysFounded(w: World, due: iset<SettlementKey>, s: Step, id: string)
    requires Inv(w) && Founded(w, due) && Next(w, s).Some? && Ended(w, id) && id in Next(w, s).value.sessions
    ensures EndFounded(due, id, Next(w, s).value.sessions[id])
  {
    hide Inv, Next, EntriesFounded, HandsFounded, DoStoreReceipt;
    assert EndFounded(due, id, w.sessions[id]);
    hide EndFounded;
    if s.StoreReceipt? && HoldsReceipt(w, s.p, id) {
      StoreIsStep(w, s.p);
      StoreFounded(w, due, s.p);
    } else {
      StepKeepsEnded(w, s, id);
    }
  }

  lemma StoreIsStep(w: World, p: nat)
    ensures Next(w, StoreReceipt(p)) == DoStoreReceipt(w, p) && Next(w, Finish(p)) == DoFinish(w, p)
  {}

  lemma EndsStayFounded(w: World, due: iset<SettlementKey>, s: Step)
    requires Inv(w) && Founded(w, due) && Next(w, s).Some? && Inv(Next(w, s).value)
    ensures EndsFounded(Next(w, s).value, due)
  {
    hide Inv, Next, EndFounded, DoFinish, EntriesFounded, HandsFounded;
    var w' := Next(w, s).value;
    forall id | id in w'.sessions ensures EndFounded(due, id, w'.sessions[id]) {
      if Ended(w, id) {
        EndedStaysFounded(w, due, s, id);
      } else if Ended(w', id) {
        EndsOpenSession(w, s, id);
        StoreIsStep(w, s.p);
        FinishFounded(w, due, s.p);
      } else {
        OpenIsFounded(w', due, id);
      }
    }
  }

  // ---------------------------------------------------------------------------------
  // Runs
  // ---------------------------------------------------------------------------------

  lemma StepKeepsFounded(w: World, due: iset<SettlementKey>, s: Step)
    requires Inv(w) && Founded(w, due) && Next(w, s).Some?
    requires forall key | Saw(w, s, key) :: key in due
    ensures Founded(Next(w, s).value, due)
  {
    hide Inv, Grows, Saw, EntriesFounded, HandsFounded, EndsFounded, Next;
    StepKeepsInvariant(w, s);
    EndsStayFounded(w, due, s);
    WritesAreSteps(w, s);
    hide DoJournal, DoSaveResult;
    match s {
      case Journal(p, usage, issuedAt, authority, now) =>
        JournalHands(w, due, p, usage, issuedAt, authority, now);
        JournalEntries(w, due, p, usage, issuedAt, authority, now);
      case SaveResult(p, now) => SaveFounded(w, due, p, now);
      case _ =>
        StepCarries(w, s);
        hide Carried;
        CarriedHands(w, due, s);
        CarriedEntries(w, Next(w, s).value, due, RoleIn(s));
    }
  }

  lemma WritesAreSteps(w: World, s: Step)
    ensures s.Journal? ==> Next(w, s) == DoJournal(w, s.p, s.usage, s.issuedAt, s.authority, s.now)
    ensures s.SaveResult? ==> Next(w, s) == DoSaveResult(w, s.p, s.now)
  {}

  lemma CarriedEntries(w: World, w': World, due: iset<SettlementKey>, role: Role)
    requires Inv(w) && Grows(w, w') && EntriesFounded(w, due) && Carried(w, w', role)
    ensures EntriesFounded(w', due)
  {
    hide Inv, Grows, EntriesFounded, HandCarried;
    EntriesStay(w, w', due);
  }

  lemma MoreIsDue(w: World, due: iset<SettlementKey>, more: iset<SettlementKey>)
    requires Founded(w, due) && due <= more
    ensures Founded(w, more)
  {
    forall p | p in w.processes ensures HandFounded(more, w.processes[p]) {
      assert HandFounded(due, w.processes[p]);
    }
    forall key | key in w.attempts ensures EntryFounded(w, more, key) {
      assert EntryFounded(w, due, key);
    }
    forall id | id in w.sessions ensures EndFounded(more, id, w.sessions[id]) {
      assert EndFounded(due, id, w.sessions[id]);
    }
  }

  ghost function DueIn(start: World, steps: seq<Step>): iset<SettlementKey> {
    iset key: SettlementKey | WasDue(start, steps, key)
  }

  lemma DueLater(start: World, steps: seq<Step>, s: Step)
    ensures DueIn(start, steps) <= DueIn(start, steps + [s])
    ensures forall key | Saw(Run(start, steps), s, key) :: key in DueIn(start, steps + [s])
  {
    hide Run, Saw;
    var more := steps + [s];
    assert more[..|steps|] == steps && more[|steps|] == s;
    forall key | WasDue(start, steps, key) ensures WasDue(start, more, key) {
      var n :| 0 <= n < |steps| && Saw(Run(start, steps[..n]), steps[n], key);
      assert more[..n] == steps[..n] && more[n] == steps[n];
    }
  }

  lemma InitialIsFounded(start: World, due: iset<SettlementKey>)
    requires Initial(start)
    ensures Inv(start) && Founded(start, due)
  {
    InitialIsGood(start);
    hide Inv;
  }

  lemma {:induction false} RunIsFounded(start: World, steps: seq<Step>)
    requires Initial(start)
    ensures Inv(Run(start, steps)) && Founded(Run(start, steps), DueIn(start, steps))
    decreases |steps|
  {
    hide Inv, Founded, Next, Initial;
    InitialIsFounded(start, DueIn(start, steps));
    if steps != [] {
      hide Run;
      var n := |steps| - 1;
      var before, s := steps[..n], steps[n];
      RunIsFounded(start, before);
      RunKeepsInvariant(start, steps);
      RunSnoc(start, before, s);
      assert steps == before + [s];
      DueLater(start, before, s);
      var w := Run(start, before);
      MoreIsDue(w, DueIn(start, before), DueIn(start, steps));
      if Next(w, s).Some? { StepKeepsFounded(w, DueIn(start, steps), s); }
    }
  }

  /** The bond ended with the evidence of a journal entry, and the entry was due. */
  ghost predicate EndedWhenDue(start: World, steps: seq<Step>, bond: Key, key: SettlementKey) {
    var w := Run(start, steps);
    && key in w.attempts && bond in w.chain.bonds && w.chain.bonds[bond].receiptHash == EvidenceHash(w.attempts[key].evidence.payload)
    && w.attempts[key].evidence.payload.sessionId == key.sessionId
    && WasDue(start, steps, key)
  }

  lemma ExitWasDue(start: World, steps: seq<Step>, bond: Key) returns (key: SettlementKey)
    requires Initial(start)
    requires var w := Run(start, steps);
      bond in w.chain.bonds && w.chain.bonds[bond].authority == w.gateway && w.chain.bonds[bond].status in {P.CLOSED, P.VIOLATED}
    ensures EndedWhenDue(start, steps, bond, key)
    ensures var w := Run(start, steps); SettledFor(w, bond, key, w.chain.bonds[bond].settledPenalty) && AttemptGood(w, key)
  {
    hide Inv, Run, Initial, Founded;
    RunIsFounded(start, steps);
    GatewayExitsAreJournalled(start, steps, bond);
    var w := Run(start, steps);
    key :| key in w.attempts && SettledFor(w, bond, key, w.chain.bonds[bond].settledPenalty);
    AttemptFact(w, key);
    assert EntryFounded(w, DueIn(start, steps), key) by { EntryIsFounded(w, DueIn(start, steps), key); }
    hide EntryFounded;
  }

  lemma EntryIsFounded(w: World, due: iset<SettlementKey>, key: SettlementKey)
    requires Founded(w, due) && key in w.attempts
    ensures EntryFounded(w, due, key)
  {}

  /** On every run: a bond that the gateway's authority has made VIOLATED was violated for a
      reservation that, at an earlier moment, belonged to the session, was active and had
      expired by the clock of the process that looked. The reservation is the one in the
      evidence. */
  lemma ViolationsWereDue(start: World, steps: seq<Step>, bond: Key)
    requires Initial(start)
    requires var w := Run(start, steps);
      bond in w.chain.bonds && w.chain.bonds[bond].authority == w.gateway && w.chain.bonds[bond].status == P.VIOLATED
    ensures exists id, reservation ::
      && EndedWhenDue(start, steps, bond, ExpiryKey(id, reservation))
      && Run(start, steps).attempts[ExpiryKey(id, reservation)].evidence.payload.reservationId == Some(reservation)
  {
    hide Inv, Run, Initial, EndedWhenDue;
    var key := ExitWasDue(start, steps, bond);
    hide EvidenceHash, VerifyEvidence, TaskGood;
    assert key == ExpiryKey(key.sessionId, key.reservationId);
  }

  /** Likewise, a bond closed by the gateway's authority was closed for a session that had no
      active reservation when the process looked. */
  lemma ClosesWereQuiet(start: World, steps: seq<Step>, bond: Key)
    requires Initial(start)
    requires var w := Run(start, steps);
      bond in w.chain.bonds && w.chain.bonds[bond].authority == w.gateway && w.chain.bonds[bond].status == P.CLOSED
    ensures exists id :: EndedWhenDue(start, steps, bond, CloseKey(id))
  {
    hide Inv, Run, Initial, EndedWhenDue;
    var key := ExitWasDue(start, steps, bond);
    hide AttemptGood;
    assert key == CloseKey(key.sessionId);
  }

  /** The same for sessions, whether or not a bond was involved. A receipt charges no more than the
      usage the session's payment was verified for, and that of a close counts all calls. */
  lemma EndedSessionsWereDue(start: World, steps: seq<Step>, id: string)
    requires Initial(start) && Ended(Run(start, steps), id)
    ensures var w := Run(start, steps);
      && (w.sessions[id].state == S.CLOSED ==> WasDue(start, steps, CloseKey(id)))
      && (w.sessions[id].state == S.EXPIRED ==> exists reservation :: WasDue(start, steps, ExpiryKey(id, reservation)))
      && (w.sessions[id].receipt.Some? ==>
            && id in w.paid && w.sessions[id].receipt.value.usageCharged <= w.sessions[id].terms.usageCap <= w.paid[id]
            && (w.sessions[id].receipt.value.outcome == S.CLOSED ==> w.sessions[id].receipt.value.calls == w.sessions[id].calls))
  {
    hide Inv, Run, Initial, WasDue;
    RunIsFounded(start, steps);
    ActiveIsPaidAndBonded(start, steps, id);
    var w := Run(start, steps);
    assert EndFounded(DueIn(start, steps), id, w.sessions[id]) by { EndIsFounded(w, DueIn(start, steps), id); }
    hide BondMatches;
  }

  lemma EndIsFounded(w: World, due: iset<SettlementKey>, id: string)
    requires Founded(w, due) && id in w.sessions
    ensures EndFounded(due, id, w.sessions[id])
  {}

  /** A reservation that is still active has to be due; one that has ended stops only the worker. */
  predicate MayFinalize(w: World, t: Task, now: int) {
    && t.reservationId in w.goods.reservations
    && var r := w.goods.reservations[t.reservationId];
       if r.state == V.ACTIVE then r.expiresAt <= now && r.productId in w.goods.inventory else t.kind == EXPIRE_ROUTE
  }

  /** The reservation has ended and its unit is back in stock, now or before. */
  ghost predicate ReservationEnded(w: World, w': World, t: Task, now: int) {
    && w'.sessions == w.sessions && t.reservationId in w.goods.reservations
    && var r := w.goods.reservations[t.reservationId];
       if r.state != V.ACTIVE then w'.goods == w.goods
       else w'.goods.reservations == w.goods.reservations[t.reservationId := r.(state := V.EXPIRED)]
            && V.StockMoved(w.goods.inventory, w'.goods.inventory, r.productId, r.quantity, now)
  }

  lemma SettledFinalizes(w: World, p: nat, now: int)
    requires Inv(w) && p in w.processes && w.processes[p].Settled? && w.processes[p].task.kind != CLOSE_ROUTE
    ensures var t, next := w.processes[p].task, DoFinalizeReservation(w, p, now);
      && (next.Some? <==> MayFinalize(w, t, now))
      && (next.Some? ==> next.value.processes[p].Finalized? && ReservationEnded(w, next.value, t, now))
  {
    hide Inv, Bonded;
    ProcessFact(w, p);
    hide TaskGood, AmountsTrue, SettledFor, CreatingGood, CaseGood;
    assert Owned(w, w.processes[p].task.sessionId, w.processes[p].task.reservationId);
    hide ProcessGood, ExaminedGood, SettledGood;
  }

  /** The end of a settled expiry: a reservation that is still active is ended now, if it is due.
      One that somebody else has ended in the meantime stops the worker, not the route. */
  lemma FinalizesIff(start: World, steps: seq<Step>, p: nat, now: int)
    requires Initial(start)
    requires var w := Run(start, steps); p in w.processes && w.processes[p].Settled? && w.processes[p].task.kind != CLOSE_ROUTE
    ensures var w := Run(start, steps);
      var t, next := w.processes[p].task, Next(w, FinalizeReservation(p, now));
      && (next.Some? <==> MayFinalize(w, t, now))
      && (next.Some? ==> ReservationEnded(w, next.value, t, now))
  {
    hide Initial, Inv, Run, MayFinalize, ReservationEnded, DoFinalizeReservation;
    InitialIsGood(start);
    RunKeepsInvariant(start, steps);
    SettledFinalizes(Run(start, steps), p, now);
  }
}
