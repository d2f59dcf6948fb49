/**
 * A settlement call that nobody disturbs, first or repeated: exactly when it ends in a receipt.
 */
module SettlementCalls {
  import opened Wrappers
  import opened Primitives
  import opened AdapterContract
  import opened SettlementEvidence
  import opened SettlementJournal
  import opened Settlement
  import opened SettlementInvariant
  import opened SettlementSteps
  import opened SettlementSafety
  import opened SettlementTruth
  import opened SettlementProgress
  import S = Sessions
  import V = Inventory
  import P = BondProgram
  import B = BondAdapter

  // ---------------------------------------------------------------------------------
  // The call
  // ---------------------------------------------------------------------------------

  /** What a call is given: its process and task, the usage charge, the new evidence's time and
      authority, the clock, the newest signature on the bond account, and the signature the
      network gives a transaction of this call. */
  datatype Call = Call(p: nat, task: Task, usage: nat, issuedAt: string, authority: string, now: int, latest: Option<string>, signature: string)

  /** Up to the claimed nonce. */
  function OpeningSteps(x: Call): seq<Step> {
    [Enter(x.p, x.task.kind, x.task.adapter, x.task.sessionId, x.task.reservationId), Examine(x.p, x.now), Lock(x.p, x.now),
     Journal(x.p, x.usage, x.issuedAt, x.authority, x.now), GrantNonce(x.p)]
  }

  /** The adapter call; a transaction it sends lands and is confirmed. */
  function AskingSteps(x: Call, secret: string, tx: nat): seq<Step> {
    [BeginCall(x.p, secret), FetchBond(x.p, true), RecordRecovery(x.p, x.latest), Land(tx), Confirm(x.p, x.signature)]
  }

  /** From the answer to the receipt. */
  function ReportingSteps(x: Call): seq<Step> {
    [SaveResult(x.p, x.now), SaveResult(x.p, x.now), Validate(x.p), FinalizeReservation(x.p, x.now), MarkSettled(x.p), Finish(x.p), StoreReceipt(x.p)]
  }

  /** All steps of an undisturbed call. Those that its course does not come to are not enabled and
      skipped. */
  function CallSteps(w: World, x: Call): seq<Step> {
    OpeningSteps(x) + AskingSteps(x, w.secret, |w.submissions|) + ReportingSteps(x)
  }

  /** The bond can be settled by the gateway: it can be closed, and the merchant has a token
      account as well. */
  ghost predicate Settleable(w: World, k: Key) {
    && Closable(w, k)
    && P.Holds(w.chain, Ata(w.chain.bonds[k].merchant, w.chain.bonds[k].mint), w.chain.bonds[k].merchant, w.chain.bonds[k].mint)
  }

  lemma SettleableStill(w: World, w': World, k: Key)
    requires Settleable(w, k) && w'.chain == w.chain && w'.gateway == w.gateway
    ensures Settleable(w', k) && k in w.chain.bonds
  {}

  ghost predicate Expired(w: World, id: string, reservation: string, now: int) {
    && reservation in w.goods.reservations && w.goods.reservations[reservation].sessionId == id
    && w.goods.reservations[reservation].state == V.ACTIVE && w.goods.reservations[reservation].expiresAt <= now
  }

  ghost predicate NothingReserved(w: World, id: string) {
    forall r | r in w.goods.reservations && w.goods.reservations[r].sessionId == id :: w.goods.reservations[r].state != V.ACTIVE
  }

  /** The call gets as far as the journal: the session is public and can be locked, nothing is
      reserved (to close it) or the reservation has expired (to expire it). Whether it was called
      before, and what became of that, is open. */
  ghost predicate Callable(w: World, x: Call) {
    var t := x.task;
    && x.p !in w.processes && t.sessionId in w.sessions && t.session == w.sessions[t.sessionId]
    && t.session.tokenHash.Some? && Bonded(t.session.terms) && x.usage <= t.session.terms.usageCap
    && (t.session.state == S.ACTIVE
        || (t.kind != EXPIRE_ROUTE && t.session.state == S.SETTLING && (t.session.leaseExpiresAt == None || t.session.leaseExpiresAt.value <= x.now)))
    && (if t.kind == CLOSE_ROUTE then NothingReserved(w, t.sessionId)
        else Expired(w, t.sessionId, t.reservationId, x.now) && w.goods.reservations[t.reservationId].productId in w.goods.inventory)
  }

  /** The penalty the journal has for the task, or will have. */
  function Journalled(w: World, t: Task): nat
    requires Bonded(t.session.terms)
  {
    if TaskKey(t) in w.attempts then w.attempts[TaskKey(t)].evidence.payload.penalty else TaskPenalty(t)
  }

  /** The reference a repeated call reports: the remembered one, or the newest on the account. */
  function Reported(w: World, x: Call): Option<string> {
    var cache := CacheOf(w, x.task.adapter);
    if TaskKey(x.task) in cache.settledResults then cache.settledResults[TaskKey(x.task)].providerReference else x.latest
  }

  /** The hash of the evidence the journal has for the task, or will have. */
  function HashFor(w: World, x: Call): Hash
    requires Bonded(x.task.session.terms)
  {
    if TaskKey(x.task) in w.attempts then w.attempts[TaskKey(x.task)].evidence.evidenceHash
    else EvidenceHash(NewPayload(x.task, x.usage, x.issuedAt, x.authority))
  }

  function StoredReference(w: World, key: SettlementKey): Option<string> {
    if key in w.attempts then w.attempts[key].providerReference else None
  }

  /** The journal takes the reference. */
  predicate Agreeing(stored: Option<string>, reported: Option<string>) {
    stored.Some? && reported.Some? ==> stored == reported
  }

  /** The bond, while open, can be settled for the task. */
  ghost predicate Executable(w: World, t: Task, k: Key) {
    if t.kind == CLOSE_ROUTE then Closable(w, k) else Settleable(w, k)
  }

  /** The bond has ended as the task asks, with this receipt hash. */
  predicate EndedFor(b: P.Bond, t: Task, receiptHash: Hash)
    requires Bonded(t.session.terms)
  {
    b.receiptHash == receiptHash && b.status == (if t.kind == CLOSE_ROUTE then P.CLOSED else P.VIOLATED) && b.settledPenalty == TaskPenalty(t)
  }

  /** The call asks for the journalled penalty, and either the bond is open and can be settled,
      or it has been settled for this very attempt and the journal takes the reference. */
  ghost predicate WillSettle(w: World, x: Call) {
    var t := x.task;
    && Bonded(t.session.terms) && Journalled(w, t) == TaskPenalty(t) && t.session.bondReference.Some?
    && var k := t.session.bondReference.value;
       && k in w.chain.bonds
       && (if w.chain.bonds[k].status == P.OPEN then Executable(w, t, k)
           else EndedFor(w.chain.bonds[k], t, HashFor(w, x)) && Agreeing(StoredReference(w, TaskKey(t)), Reported(w, x)))
  }

  // ---------------------------------------------------------------------------------
  // Steps that are skipped
  // ---------------------------------------------------------------------------------

  function Do(w: World, s: Step): World {
    match Next(w, s) case Some(w') => w' case None => w
  }

  lemma RunSnoc(w: World, steps: seq<Step>, s: Step)
    ensures Run(w, steps + [s]) == Do(Run(w, steps), s)
  {
    hide Next, Run;
    RunAppend(w, steps, [s]);
    RunSingle(Run(w, steps), s);
  }

  lemma RunSingle(w: World, s: Step)
    ensures Run(w, [s]) == Do(w, s)
  {
    hide Next;
    assert [s][1..] == [];
    assert Run(Do(w, s), []) == Do(w, s);
  }

  lemma RunFive(w: World, a: Step, b: Step, c: Step, d: Step, e: Step)
    ensures Run(w, [a, b, c, d, e]) == Do(Do(Do(Do(Do(w, a), b), c), d), e)
  {
    hide Run, Do;
    RunSingle(w, a);
    RunSnoc(w, [a], b);
    assert [a] + [b] == [a, b];
    RunSnoc(w, [a, b], c);
    assert [a, b] + [c] == [a, b, c];
    RunSnoc(w, [a, b, c], d);
    assert [a, b, c] + [d] == [a, b, c, d];
    RunSnoc(w, [a, b, c, d], e);
    assert [a, b, c, d] + [e] == [a, b, c, d, e];
  }

  lemma RunSeven(w: World, a: Step, b: Step, c: Step, d: Step, e: Step, f: Step, g: Step)
    ensures Run(w, [a, b, c, d, e, f, g]) == Do(Do(Do(Do(Do(Do(Do(w, a), b), c), d), e), f), g)
  {
    hide Run, Do;
    RunFive(w, a, b, c, d, e);
    RunSnoc(w, [a, b, c, d, e], f);
    assert [a, b, c, d, e] + [f] == [a, b, c, d, e, f];
    RunSnoc(w, [a, b, c, d, e, f], g);
    assert [a, b, c, d, e, f] + [g] == [a, b, c, d, e, f, g];
  }

  // ---------------------------------------------------------------------------------
  // Opening
  // ---------------------------------------------------------------------------------

  /** What locking makes of an active session. */
  function LockedRecord(r: S.SessionRecord, kind: Kind, now: int): S.SessionRecord {
    r.(state := S.SETTLING, leaseExpiresAt := if kind == EXPIRE_ROUTE then None else Some(now + LEASE_MS))
  }

  lemma Replaced(w: World, p: nat, a: Process, b: Process)
    ensures With(With(w, p, a), p, b) == With(w, p, b)
  {}

  lemma CallEnters(w: World, x: Call)
    requires Callable(w, x)
    ensures Do(w, Enter(x.p, x.task.kind, x.task.adapter, x.task.sessionId, x.task.reservationId)) == With(w, x.p, Entered(x.task))
  {
    hide Expired, NothingReserved;
  }

  lemma NothingIsActive(w: World, id: string)
    ensures NothingReserved(w, id) <==> !V.HasActive(w.goods.reservations, id)
  {}

  lemma CallExamines(w: World, x: Call)
    requires Callable(w, x)
    ensures Do(With(w, x.p, Entered(x.task)), Examine(x.p, x.now)) == With(w, x.p, Examined(x.task))
  {
    NothingIsActive(w, x.task.sessionId);
    hide V.HasActive, NothingReserved;
    Replaced(w, x.p, Entered(x.task), Examined(x.task));
  }

  /** The task as it goes on: the close route keeps the record it has locked. */
  function LockedTask(x: Call): Task {
    if x.task.kind == CLOSE_ROUTE then x.task.(session := LockedRecord(x.task.session, CLOSE_ROUTE, x.now)) else x.task
  }

  lemma LockGrants(w: World, x: Call)
    requires Callable(w, x)
    ensures var t, record := x.task, LockedRecord(x.task.session, x.task.kind, x.now);
      if t.kind == EXPIRE_ROUTE then S.Transition(w.sessions, t.sessionId, S.ACTIVE, S.SETTLING) == Ok(record)
      else S.Claim(w.sessions, t.sessionId, x.now, LEASE_MS) == Ok(Some(record))
  {
    hide NothingReserved, Expired;
  }

  lemma LocksExamined(w: World, p: nat, t: Task, now: int, record: S.SessionRecord)
    requires p in w.processes && w.processes[p] == Examined(t)
    requires if t.kind == EXPIRE_ROUTE then S.Transition(w.sessions, t.sessionId, S.ACTIVE, S.SETTLING) == Ok(record)
             else S.Claim(w.sessions, t.sessionId, now, LEASE_MS) == Ok(Some(record))
    ensures Do(w, Lock(p, now)) == With(w.(sessions := w.sessions[t.sessionId := record]), p, Locked(if t.kind == CLOSE_ROUTE then t.(session := record) else t))
  {
    hide S.Transition, S.Claim;
  }

  lemma LockedAfterExamined(w: World, p: nat, t: Task, u: Task, record: S.SessionRecord)
    ensures With(With(w, p, Examined(t)).(sessions := w.sessions[t.sessionId := record]), p, Locked(u)) == With(w.(sessions := w.sessions[t.sessionId := record]), p, Locked(u))
  {}

  lemma CallLocks(w: World, x: Call)
    requires Callable(w, x)
    ensures Do(With(w, x.p, Examined(x.task)), Lock(x.p, x.now)) ==
            With(w.(sessions := w.sessions[x.task.sessionId := LockedRecord(x.task.session, x.task.kind, x.now)]), x.p, Locked(LockedTask(x)))
  {
    var record := LockedRecord(x.task.session, x.task.kind, x.now);
    LockGrants(w, x);
    hide S.Transition, S.Claim, Callable, Do, LockedRecord;
    LocksExamined(With(w, x.p, Examined(x.task)), x.p, x.task, x.now, record);
    LockedAfterExamined(w, x.p, x.task, LockedTask(x), record);
  }

  lemma CanJournalAgain(w: World, p: nat, t: Task, usage: nat, issuedAt: string, authority: string, now: int) returns (attempt: Attempt)
    requires w.secret != "" && p in w.processes && w.processes[p] == Locked(t) && Bonded(t.session.terms) && usage <= t.session.terms.usageCap
    ensures TaskKey(t) in w.attempts ==> attempt == w.attempts[TaskKey(t)]
    ensures TaskKey(t) !in w.attempts ==>
      && attempt.key == TaskKey(t) && attempt.status == PENDING && attempt.providerReference == None && attempt.evidence.payload.penalty == TaskPenalty(t)
      && attempt.evidence.evidenceHash == EvidenceHash(NewPayload(t, usage, issuedAt, authority))
    ensures Do(w, Journal(p, usage, issuedAt, authority, now)) ==
            With(w.(attempts := w.attempts[TaskKey(t) := attempt]), p, Journaled(Case(t, usage, attempt, NewRequest(t, attempt.evidence))))
  {
    var evidence := CreateEvidence(NewPayload(t, usage, issuedAt, authority), w.secret).value;
    assert evidence.payload.penalty == TaskPenalty(t);
    hide NewPayload, NewRequest, TaskPenalty, EvidenceHash;
    var first := Attempt(TaskKey(t), evidence, PENDING, true, None, None, now, now);
    attempt := if TaskKey(t) in w.attempts then w.attempts[TaskKey(t)] else first;
    assert Create(w.attempts, first) == w.attempts[TaskKey(t) := attempt];
  }

  /** The process has claimed the nonce of the journal's attempt for the locked task. */
  ghost predicate Opened(w: World, w1: World, x: Call, c: Case) {
    var t, id := x.task, x.task.sessionId;
    && c.task == LockedTask(x) && c.usage == x.usage && EntryFor(w, x, c.attempt)
    && w1 == w.(sessions := w.sessions[id := LockedRecord(t.session, t.kind, x.now)], attempts := w.attempts[TaskKey(t) := c.attempt],
                nonces := w1.nonces, processes := w.processes[x.p := Granted(c)])
  }

  lemma LockedTaskSame(x: Call)
    requires Bonded(x.task.session.terms)
    ensures var t := LockedTask(x);
      && t.kind == x.task.kind && t.adapter == x.task.adapter && t.sessionId == x.task.sessionId && t.reservationId == x.task.reservationId
      && t.session.terms == x.task.session.terms && t.session.bondReference == x.task.session.bondReference
      && TaskKey(t) == TaskKey(x.task) && TaskPenalty(t) == TaskPenalty(x.task)
      && NewPayload(t, x.usage, x.issuedAt, x.authority) == NewPayload(x.task, x.usage, x.issuedAt, x.authority)
  {
    hide ExpiryPenalty;
  }

  /** Entered, examined, locked. */
  function AfterLock(w: World, x: Call): World {
    With(w.(sessions := w.sessions[x.task.sessionId := LockedRecord(x.task.session, x.task.kind, x.now)]), x.p, Locked(LockedTask(x)))
  }

  lemma CallLocked(w: World, x: Call)
    requires Callable(w, x)
    ensures Do(Do(Do(w, OpeningSteps(x)[0]), OpeningSteps(x)[1]), OpeningSteps(x)[2]) == AfterLock(w, x)
  {
    hide Callable, Do, LockedRecord, LockedTask;
    CallEnters(w, x);
    CallExamines(w, x);
    CallLocks(w, x);
  }

  lemma AfterLockFrame(w: World, x: Call)
    ensures var w3 := AfterLock(w, x);
      w3.attempts == w.attempts && w3.secret == w.secret && x.p in w3.processes && w3.processes[x.p] == Locked(LockedTask(x))
  {
    hide LockedTask, LockedRecord;
  }

  /** The journal's attempt for the task, stored before or made by the call. */
  ghost predicate EntryFor(w: World, x: Call, attempt: Attempt) {
    && attempt.key == TaskKey(x.task) && Bonded(x.task.session.terms)
    && attempt.evidence.payload.penalty == Journalled(w, x.task) && attempt.evidence.evidenceHash == HashFor(w, x)
    && attempt.providerReference == StoredReference(w, TaskKey(x.task))
    && (if TaskKey(x.task) in w.attempts then attempt == w.attempts[TaskKey(x.task)] else attempt.status == PENDING)
  }

  lemma EntryIsFor(w: World, x: Call, attempt: Attempt)
    requires Inv(w) && Bonded(x.task.session.terms)
    requires if TaskKey(x.task) in w.attempts then attempt == w.attempts[TaskKey(x.task)]
             else attempt.key == TaskKey(x.task) && attempt.status == PENDING && attempt.providerReference == None
                  && attempt.evidence.payload.penalty == TaskPenalty(x.task)
                  && attempt.evidence.evidenceHash == EvidenceHash(NewPayload(x.task, x.usage, x.issuedAt, x.authority))
    ensures EntryFor(w, x, attempt)
  {
    hide Inv, TaskPenalty, NewPayload, EvidenceHash, TaskKey;
    if TaskKey(x.task) in w.attempts { KeyOfAttempt(w, TaskKey(x.task)); }
  }

  lemma CallEntry(w: World, w3: World, x: Call) returns (c: Case)
    requires Inv(w) && Bonded(x.task.session.terms) && x.usage <= x.task.session.terms.usageCap
    requires w3.attempts == w.attempts && w3.secret == w.secret && x.p in w3.processes && w3.processes[x.p] == Locked(LockedTask(x))
    ensures Do(w3, OpeningSteps(x)[3]) == With(w3.(attempts := w.attempts[TaskKey(x.task) := c.attempt]), x.p, Journaled(c))
    ensures c.task == LockedTask(x) && c.usage == x.usage && EntryFor(w, x, c.attempt)
  {
    hide Inv, Do, TaskPenalty, NewRequest, NewPayload, EvidenceHash, LockedTask, EntryFor, TaskKey;
    InvSecret(w);
    LockedTaskSame(x);
    var attempt := CanJournalAgain(w3, x.p, LockedTask(x), x.usage, x.issuedAt, x.authority, x.now);
    EntryIsFor(w, x, attempt);
    c := Case(LockedTask(x), x.usage, attempt, NewRequest(LockedTask(x), attempt.evidence));
  }

  lemma CallJournals(w: World, x: Call) returns (c: Case)
    requires Inv(w) && Callable(w, x)
    ensures Do(AfterLock(w, x), OpeningSteps(x)[3]) ==
            With(AfterLock(w, x).(attempts := w.attempts[TaskKey(x.task) := c.attempt]), x.p, Journaled(c))
    ensures c.task == LockedTask(x) && c.usage == x.usage && EntryFor(w, x, c.attempt)
  {
    hide Inv, NothingReserved, Expired, Do, AfterLock, LockedTask, EntryFor;
    AfterLockFrame(w, x);
    c := CallEntry(w, AfterLock(w, x), x);
  }

  lemma CallOpens(w: World, x: Call) returns (c: Case)
    requires Inv(w) && Callable(w, x)
    ensures Inv(Run(w, OpeningSteps(x))) && Opened(w, Run(w, OpeningSteps(x)), x, c)
  {
    hide Inv, Callable, Next, Run, Do, LockedRecord, LockedTask, EntryFor;
    CallLocked(w, x);
    c := CallJournals(w, x);
    var w4 := Do(AfterLock(w, x), OpeningSteps(x)[3]);
    RunKeepsInvariant(w, OpeningSteps(x));
    RunFive(w, OpeningSteps(x)[0], OpeningSteps(x)[1], OpeningSteps(x)[2], OpeningSteps(x)[3], OpeningSteps(x)[4]);
    OpeningKeeps(w, x, w4);
    CanGrant(w4, x.p);
    DoIsNext(w4, GrantNonce(x.p));
  }

  lemma DoIsNext(w: World, s: Step)
    requires Next(w, s).Some?
    ensures Do(w, s) == Next(w, s).value
  {
    hide Next;
  }

  lemma KeyOfAttempt(w: World, key: SettlementKey)
    requires Inv(w) && key in w.attempts
    ensures w.attempts[key].key == key
  {
    hide Inv, EvidenceHash, VerifyEvidence;
    AttemptFact(w, key);
  }

  lemma OpeningKeeps(w: World, x: Call, w4: World)
    requires Inv(w) && w4 == Do(Do(Do(Do(w, OpeningSteps(x)[0]), OpeningSteps(x)[1]), OpeningSteps(x)[2]), OpeningSteps(x)[3])
    ensures Inv(w4)
  {
    hide Inv, Next;
    DoKeeps(w, OpeningSteps(x)[0]);
    DoKeeps(Do(w, OpeningSteps(x)[0]), OpeningSteps(x)[1]);
    DoKeeps(Do(Do(w, OpeningSteps(x)[0]), OpeningSteps(x)[1]), OpeningSteps(x)[2]);
    DoKeeps(Do(Do(Do(w, OpeningSteps(x)[0]), OpeningSteps(x)[1]), OpeningSteps(x)[2]), OpeningSteps(x)[3]);
  }

  lemma DoKeeps(w: World, s: Step)
    requires Inv(w)
    ensures Inv(Do(w, s))
  {
    hide Inv, Next;
    if Next(w, s).Some? { StepKeepsInvariant(w, s); }
  }

  // ---------------------------------------------------------------------------------
  // Asking
  // ---------------------------------------------------------------------------------

  lemma SameCaches(w: World, w': World)
    requires w'.caches == w.caches
    ensures forall a :: CacheOf(w', a) == CacheOf(w, a)
  {}

  lemma SkipFetch(w: World, p: nat)
    requires p in w.processes && !w.processes[p].Asking?
    ensures Do(w, FetchBond(p, true)) == w
  {}

  lemma SkipRecovery(w: World, p: nat, latest: Option<string>)
    requires p in w.processes && !w.processes[p].Recovering?
    ensures Do(w, RecordRecovery(p, latest)) == w
  {}

  lemma SkipLand(w: World, tx: nat)
    requires tx >= |w.submissions|
    ensures Do(w, Land(tx)) == w
  {}

  lemma SkipConfirm(w: World, p: nat, signature: string)
    requires p in w.processes && (!w.processes[p].Submitted? || (w.processes[p].tx < |w.submissions| && !w.submissions[w.processes[p].tx].landed))
    ensures Do(w, Confirm(p, signature)) == w
  {}

  /** The process has its answer; sessions, goods, journal and nonces are as before. */
  ghost predicate HasAnswer(w: World, w': World, p: nat, c: Case, result: AdapterResult) {
    w' == With(w.(chain := w'.chain, caches := w'.caches, submissions := w'.submissions, settledBy := w'.settledBy), p, Answered(c, result, 2))
  }

  function AfterAsking(w: World, x: Call): World {
    var tx := |w.submissions|;
    Do(Do(Do(Do(Do(w, BeginCall(x.p, w.secret)), FetchBond(x.p, true)), RecordRecovery(x.p, x.latest)), Land(tx)), Confirm(x.p, x.signature))
  }

  /** An answer at once leaves nothing to do. */
  lemma AnsweredAtOnce(w: World, x: Call, c: Case, result: AdapterResult)
    requires HasAnswer(w, Do(w, BeginCall(x.p, w.secret)), x.p, c, result)
    requires Do(w, BeginCall(x.p, w.secret)).chain == w.chain && Do(w, BeginCall(x.p, w.secret)).submissions == w.submissions
    ensures HasAnswer(w, AfterAsking(w, x), x.p, c, result) && AfterAsking(w, x).chain == w.chain
  {
    hide Do;
    var w1 := Do(w, BeginCall(x.p, w.secret));
    SkipFetch(w1, x.p);
    SkipRecovery(w1, x.p, x.latest);
    SkipLand(w1, |w.submissions|);
    SkipConfirm(w1, x.p, x.signature);
  }

  lemma Remembers(w: World, x: Call, c: Case)
    requires Inv(w) && x.p in w.processes && w.processes[x.p] == Granted(c) && TaskKey(c.task) in CacheOf(w, c.task.adapter).settledResults
    ensures var result := CacheOf(w, c.task.adapter).settledResults[TaskKey(c.task)];
      HasAnswer(w, AfterAsking(w, x), x.p, c, result) && AfterAsking(w, x).chain == w.chain
  {
    hide Inv, CacheOf, CaseGood, AfterAsking, HasAnswer;
    ProcessFact(w, x.p);
    CaseOfGranted(w, w.processes[x.p]);
    CaseIsReady(w, c);
    RequestIsTask(w, c);
    hide CaseReady, ProcessGood;
    RemembersAtOnce(w, x.p, c);
    AnsweredAtOnce(w, x, c, CacheOf(w, c.task.adapter).settledResults[TaskKey(c.task)]);
  }

  lemma CaseOfGranted(w: World, pr: Process)
    requires pr.Granted? && ProcessGood(w, pr)
    ensures CaseGood(w, pr.c)
  {}

  lemma RemembersAtOnce(w: World, p: nat, c: Case)
    requires p in w.processes && w.processes[p] == Granted(c) && B.KeyOf(c.request) == TaskKey(c.task)
    requires TaskKey(c.task) in CacheOf(w, c.task.adapter).settledResults
    ensures var w1 := Do(w, BeginCall(p, w.secret));
      HasAnswer(w, w1, p, c, CacheOf(w, c.task.adapter).settledResults[TaskKey(c.task)]) && w1.chain == w.chain && w1.submissions == w.submissions
  {
    hide CacheOf, B.CheckEvidence;
  }

  /** Asked for another penalty than the journalled one, the adapter refuses. */
  lemma Refuses(w: World, x: Call, c: Case) returns (result: AdapterResult)
    requires Inv(w) && x.p in w.processes && w.processes[x.p] == Granted(c) && TaskKey(c.task) !in CacheOf(w, c.task.adapter).settledResults
    requires c.task.session.bondReference.Some? && Bonded(c.task.session.terms) && c.attempt.evidence.payload.penalty != TaskPenalty(c.task)
    ensures HasAnswer(w, AfterAsking(w, x), x.p, c, result) && result.status == FAILED && AfterAsking(w, x).chain == w.chain
  {
    hide Inv, CacheOf, CaseGood, AfterAsking, HasAnswer;
    var cache := CacheOf(w, c.task.adapter);
    ProcessFact(w, x.p);
    CaseOfGranted(w, w.processes[x.p]);
    hide ProcessGood;
    CacheFacts(w, c.task, c, cache);
    hide TaskPenalty, B.Begin;
    RetryBegins(w, c.task, c, cache);
    hide RetryCase;
    result := B.Begin(cache, w.secret, c.request).0.result;
    BeginsWith(w, x.p, c);
    AnsweredAtOnce(w, x, c, result);
  }

  lemma BeginsWith(w: World, p: nat, c: Case)
    requires p in w.processes && w.processes[p] == Granted(c)
    ensures var w1, begun := Do(w, BeginCall(p, w.secret)), B.Begin(CacheOf(w, c.task.adapter), w.secret, c.request).0;
      && w1.chain == w.chain && w1.submissions == w.submissions
      && (begun.Answer? ==> HasAnswer(w, w1, p, c, begun.result))
  {
    hide CacheOf, B.Begin;
  }

  /** What is known of a case whose adapter asks the chain. */
  ghost predicate Asked(w: World, w1: World, p: nat, c: Case, k: Key) {
    && w1 == With(w.(caches := w1.caches), p, Asking(c, k, c.attempt.evidence.evidenceHash))
    && CaseGood(w1, c) && P.Good(w1.chain) && c.task.sessionId in w1.verified && w1.verified[c.task.sessionId] == k
    && BondMatches(w1, k, c.task.session.terms) && TaskPenalty(c.task) <= c.task.session.terms.maxPenalty <= c.task.session.terms.bondAmount
  }

  lemma Asks(w: World, x: Call, c: Case, k: Key)
    requires Inv(w) && x.p in w.processes && w.processes[x.p] == Granted(c) && TaskKey(c.task) !in CacheOf(w, c.task.adapter).settledResults
    requires c.task.session.bondReference == Some(k) && Bonded(c.task.session.terms) && c.attempt.evidence.payload.penalty == TaskPenalty(c.task)
    ensures Asked(w, Do(w, BeginCall(x.p, w.secret)), x.p, c, k)
  {
    hide Inv, CacheOf, CaseGood, TaskPenalty, Do;
    CanBegin(w, x.p);
    DoIsNext(w, BeginCall(x.p, w.secret));
    DoKeeps(w, BeginCall(x.p, w.secret));
    hide Next;
    var w1 := Do(w, BeginCall(x.p, w.secret));
    ProcessFact(w1, x.p);
    AskingCase(w1, w1.processes[x.p]);
    hide ProcessGood;
    CaseIsReady(w1, c);
    RequestIsTask(w1, c);
    CaseTerms(w1, c);
    PenaltyWithinBond(c.task);
  }

  lemma AskingCase(w: World, pr: Process)
    requires pr.Asking? && ProcessGood(w, pr)
    ensures CaseGood(w, pr.c) && pr.c.task.sessionId in w.verified && w.verified[pr.c.task.sessionId] == pr.bond
  {}

  lemma CaseTerms(w: World, c: Case)
    requires CaseReady(w, c)
    ensures ValidTerms(c.task.session.terms)
  {
    hide AttemptGood;
  }

  /** The request says what the task asks for. */
  lemma RequestSays(w: World, c: Case)
    requires CaseGood(w, c)
    ensures var t, q := c.task, c.request;
      && Bonded(t.session.terms) && q.policyHash == t.session.terms.policyHash && B.PenaltyOf(q) == TaskPenalty(t)
      && (q.CloseRequest? <==> t.kind == CLOSE_ROUTE) && (q.CloseRequest? ==> q.amount == t.session.terms.bondAmount)
      && (q.ExpiryRequest? ==> q.bondAmount == t.session.terms.bondAmount)
      && (TaskPenalty(t) <= t.session.terms.bondAmount ==> B.RefundOf(q) == t.session.terms.bondAmount - TaskPenalty(t))
      && TaskKey(t) in w.attempts && w.attempts[TaskKey(t)].evidence == c.attempt.evidence
      && (TaskKey(t).CloseKey? <==> t.kind == CLOSE_ROUTE)
  {
    hide ExpiryPenalty, ExaminedGood;
  }

  function InstructionFor(w: World, c: Case, k: Key): P.Instruction
    requires k in w.chain.bonds && B.PenaltyOf(c.request) <= U64_MAX
  {
    SettlementInstruction(w.gateway, k, w.chain.bonds[k], c.request, c.attempt.evidence.evidenceHash)
  }

  lemma OpenIsSubmitted(q: B.Request, receiptHash: Hash, b: P.Bond)
    requires b.status == P.OPEN && b.policyHash == q.policyHash && b.bondAmount == (if q.CloseRequest? then q.amount else q.bondAmount)
    ensures B.Decide(q, receiptHash, B.Found(b)) == B.Submit
  {}

  lemma Submits(w: World, w1: World, p: nat, c: Case, k: Key)
    requires Asked(w, w1, p, c, k) && w1.chain.bonds[k].status == P.OPEN
    ensures B.PenaltyOf(c.request) <= U64_MAX
    ensures Do(w1, FetchBond(p, true)) == With(w1.(submissions := w1.submissions + [Submission(TaskKey(c.task), k, InstructionFor(w1, c, k), false)]), p, Submitted(c, |w1.submissions|))
  {
    RequestSays(w1, c);
    OpenIsSubmitted(c.request, c.attempt.evidence.evidenceHash, w1.chain.bonds[k]);
    hide B.Decide, CaseGood, TaskPenalty, P.Good, SettlementInstruction;
  }

  lemma InstructionEnabled(w: World, w1: World, p: nat, c: Case, k: Key)
    requires Asked(w, w1, p, c, k) && w1.chain.bonds[k].status == P.OPEN && B.PenaltyOf(c.request) <= U64_MAX
    ensures P.Execute(w1.chain, InstructionFor(w1, c, k)).Ok? <==> Executable(w1, c.task, k)
  {
    RequestSays(w1, c);
    hide CaseGood, TaskPenalty;
    var b, hash := w1.chain.bonds[k], c.attempt.evidence.evidenceHash;
    if c.task.kind == CLOSE_ROUTE {
      P.CloseValidExact(w1.chain, w1.gateway, k, Ata(b.agent, b.mint), hash);
    } else {
      P.SettleViolationEnabled(w1.chain, InstructionFor(w1, c, k));
    }
    hide P.Execute, P.Good;
  }

  /** The bond is open and can be settled: it is, and the process hears of it. */
  lemma Settles(w: World, x: Call, c: Case, k: Key)
    requires Asked(w, Do(w, BeginCall(x.p, w.secret)), x.p, c, k) && w.chain.bonds[k].status == P.OPEN && Executable(w, c.task, k)
    ensures B.PenaltyOf(c.request) <= U64_MAX
    ensures var w', t := AfterAsking(w, x), c.task;
      && HasAnswer(w, w', x.p, c, Confirmation(Some(x.signature), TaskPenalty(t), t.session.terms.bondAmount - TaskPenalty(t)))
      && P.Execute(w.chain, InstructionFor(w, c, k)) == Ok(w'.chain)
  {
    hide CaseGood, P.Good, P.Execute, TaskPenalty, Do, InstructionFor, B.Decide, CacheOf;
    var w1, tx := Do(w, BeginCall(x.p, w.secret)), |w.submissions|;
    Submits(w, w1, x.p, c, k);
    ExecutableStill(w, w1, c.task, k);
    InstructionEnabled(w, w1, x.p, c, k);
    SameInstruction(w, w1, c, k);
    var w2 := Do(w1, FetchBond(x.p, true));
    SkipRecovery(w2, x.p, x.latest);
    Lands(w2, tx);
    var w3 := Do(w2, Land(tx));
    CanConfirm(w3, x.p, x.signature);
    DoIsNext(w3, Confirm(x.p, x.signature));
    RequestSays(w1, c);
    hide Executable, BondMatches;
  }

  lemma ExecutableStill(w: World, w': World, t: Task, k: Key)
    requires w'.chain == w.chain && w'.gateway == w.gateway
    ensures Executable(w', t, k) <==> Executable(w, t, k)
  {}

  lemma SameInstruction(w: World, w': World, c: Case, k: Key)
    requires w'.chain == w.chain && w'.gateway == w.gateway && k in w.chain.bonds && B.PenaltyOf(c.request) <= U64_MAX
    ensures InstructionFor(w', c, k) == InstructionFor(w, c, k)
  {}

  lemma Lands(w: World, tx: nat)
    requires tx < |w.submissions| && !w.submissions[tx].landed && P.Execute(w.chain, w.submissions[tx].instruction).Ok?
    ensures var s, w' := w.submissions[tx], Do(w, Land(tx));
      && Ok(w'.chain) == P.Execute(w.chain, s.instruction)
      && w' == w.(chain := w'.chain, submissions := w.submissions[tx := s.(landed := true)], settledBy := w'.settledBy)
  {
    hide P.Execute;
  }

  /** The bond is open and cannot be settled: the transaction fails, and there is no answer. */
  lemma Fails(w: World, x: Call, c: Case, k: Key)
    requires Asked(w, Do(w, BeginCall(x.p, w.secret)), x.p, c, k) && w.chain.bonds[k].status == P.OPEN && !Executable(w, c.task, k)
    ensures var w' := AfterAsking(w, x);
      w' == With(w.(caches := w'.caches, submissions := w'.submissions), x.p, Submitted(c, |w.submissions|))
  {
    hide CaseGood, P.Good, P.Execute, TaskPenalty, Do, InstructionFor, B.Decide, CacheOf;
    var w1, tx := Do(w, BeginCall(x.p, w.secret)), |w.submissions|;
    Submits(w, w1, x.p, c, k);
    ExecutableStill(w, w1, c.task, k);
    InstructionEnabled(w, w1, x.p, c, k);
    var w2 := Do(w1, FetchBond(x.p, true));
    SkipRecovery(w2, x.p, x.latest);
    DoesNotLand(w2, tx);
    SkipConfirm(w2, x.p, x.signature);
    hide Executable, BondMatches;
  }

  lemma DoesNotLand(w: World, tx: nat)
    requires tx < |w.submissions| && P.Execute(w.chain, w.submissions[tx].instruction).Err?
    ensures Do(w, Land(tx)) == w
  {
    hide P.Execute;
  }

  /** What the chain says of a bond that has ended. */
  lemma EndedDecides(w: World, c: Case, k: Key)
    requires CaseGood(w, c) && P.Good(w.chain) && BondMatches(w, k, c.task.session.terms) && w.chain.bonds[k].status != P.OPEN
    requires TaskPenalty(c.task) <= c.task.session.terms.bondAmount && c.attempt.evidence.payload.penalty == TaskPenalty(c.task)
    ensures var t, decision := c.task, B.Decide(c.request, c.attempt.evidence.evidenceHash, B.Found(w.chain.bonds[k]));
      if SettledFor(w, k, TaskKey(t), TaskPenalty(t)) then decision == B.Recover(TaskPenalty(t), t.session.terms.bondAmount - TaskPenalty(t))
      else decision.Reply? && decision.result.status == FAILED
  {
    RequestSays(w, c);
    assert P.GoodBond(w.chain, k);
    hide CaseGood, TaskPenalty, P.Good;
  }

  lemma FetchesEnded(w: World, p: nat, c: Case, k: Key)
    requires p in w.processes && w.processes[p] == Asking(c, k, c.attempt.evidence.evidenceHash) && k in w.chain.bonds
    ensures match B.Decide(c.request, c.attempt.evidence.evidenceHash, B.Found(w.chain.bonds[k]))
      case Reply(result) => Do(w, FetchBond(p, true)) == With(w, p, Answered(c, result, 2))
      case Recover(penalty, refunded) => Do(w, FetchBond(p, true)) == With(w, p, Recovering(c, penalty, refunded))
      case Submit => true
  {
    hide B.Decide;
  }

  lemma Records(w: World, p: nat, c: Case, penalty: nat, refunded: nat, latest: Option<string>)
    requires p in w.processes && w.processes[p] == Recovering(c, penalty, refunded)
    ensures var w' := Do(w, RecordRecovery(p, latest));
      w' == With(w.(caches := w'.caches), p, Answered(c, Confirmation(latest, penalty, refunded), 2))
  {
    hide CacheOf, B.Remember;
  }

  /** The decision, and what the fetch makes of it. */
  lemma EndedAsked(w: World, w1: World, p: nat, c: Case, k: Key) returns (decision: B.Decision)
    requires Asked(w, w1, p, c, k) && w1.chain.bonds[k].status != P.OPEN
    requires Bonded(c.task.session.terms) && c.attempt.evidence.payload.penalty == TaskPenalty(c.task)
    ensures decision == B.Decide(c.request, c.attempt.evidence.evidenceHash, B.Found(w1.chain.bonds[k]))
    ensures var t := c.task;
      if SettledFor(w1, k, TaskKey(t), TaskPenalty(t)) then
        TaskPenalty(t) <= t.session.terms.bondAmount && decision == B.Recover(TaskPenalty(t), t.session.terms.bondAmount - TaskPenalty(t))
      else decision.Reply? && decision.result.status == FAILED
  {
    hide CaseGood, P.Good, TaskPenalty, B.Decide, SettledFor;
    decision := B.Decide(c.request, c.attempt.evidence.evidenceHash, B.Found(w1.chain.bonds[k]));
    EndedDecides(w1, c, k);
  }

  lemma FetchedEnded(w: World, w1: World, p: nat, c: Case, k: Key) returns (pr: Process)
    requires Asked(w, w1, p, c, k) && w1.chain.bonds[k].status != P.OPEN
    requires Bonded(c.task.session.terms) && c.attempt.evidence.payload.penalty == TaskPenalty(c.task)
    ensures Do(w1, FetchBond(p, true)) == With(w1, p, pr)
    ensures var t := c.task;
      if SettledFor(w1, k, TaskKey(t), TaskPenalty(t)) then
        TaskPenalty(t) <= t.session.terms.bondAmount && pr == Recovering(c, TaskPenalty(t), t.session.terms.bondAmount - TaskPenalty(t))
      else pr.Answered? && pr.c == c && pr.saves == 2 && pr.result.status == FAILED
  {
    hide TaskPenalty, Do, B.Decide, SettledFor, CaseGood, P.Good;
    var decision := EndedAsked(w, w1, p, c, k);
    AskedHere(w, w1, p, c, k);
    hide Asked;
    FetchesEnded(w1, p, c, k);
    pr := if decision.Reply? then Answered(c, decision.result, 2) else Recovering(c, decision.penalty, decision.bondRefunded);
  }

  lemma AskedHere(w: World, w1: World, p: nat, c: Case, k: Key)
    requires Asked(w, w1, p, c, k)
    ensures p in w1.processes && w1.processes[p] == Asking(c, k, c.attempt.evidence.evidenceHash) && k in w1.chain.bonds
  {
    hide CaseGood, P.Good, TaskPenalty;
  }

  lemma AskedFrame(w: World, w1: World, p: nat, c: Case, k: Key)
    requires Asked(w, w1, p, c, k)
    ensures w1 == With(w.(caches := w1.caches), p, Asking(c, k, c.attempt.evidence.evidenceHash)) && k in w.chain.bonds
  {}

  lemma RepliesAfterFetch(w: World, x: Call, c: Case, result: AdapterResult)
    requires var w2 := Do(Do(w, BeginCall(x.p, w.secret)), FetchBond(x.p, true)); w2 == With(w.(caches := w2.caches), x.p, Answered(c, result, 2))
    ensures HasAnswer(w, AfterAsking(w, x), x.p, c, result) && AfterAsking(w, x).chain == w.chain
  {
    hide Do;
    var w2 := Do(Do(w, BeginCall(x.p, w.secret)), FetchBond(x.p, true));
    SkipRecovery(w2, x.p, x.latest);
    SkipLand(w2, |w.submissions|);
    SkipConfirm(w2, x.p, x.signature);
  }

  lemma RecoversAfterFetch(w: World, x: Call, c: Case, penalty: nat, refunded: nat)
    requires var w2 := Do(Do(w, BeginCall(x.p, w.secret)), FetchBond(x.p, true)); w2 == With(w.(caches := w2.caches), x.p, Recovering(c, penalty, refunded))
    ensures HasAnswer(w, AfterAsking(w, x), x.p, c, Confirmation(x.latest, penalty, refunded)) && AfterAsking(w, x).chain == w.chain
  {
    hide Do;
    var w2 := Do(Do(w, BeginCall(x.p, w.secret)), FetchBond(x.p, true));
    Records(w2, x.p, c, penalty, refunded, x.latest);
    var w3 := Do(w2, RecordRecovery(x.p, x.latest));
    SkipLand(w3, |w.submissions|);
    SkipConfirm(w3, x.p, x.signature);
  }

  /** The state after the fetch, seen from before the call. */
  lemma FetchedFrom(w: World, w1: World, p: nat, c: Case, k: Key, pr: Process)
    requires w1 == With(w.(caches := w1.caches), p, Asking(c, k, c.attempt.evidence.evidenceHash))
    ensures With(w1, p, pr) == With(w.(caches := w1.caches), p, pr)
  {}

  /** The bond has ended: it is recovered if it ended for this attempt, else refused. */
  lemma AsksEnded(w: World, x: Call, c: Case, k: Key) returns (result: AdapterResult)
    requires Asked(w, Do(w, BeginCall(x.p, w.secret)), x.p, c, k) && w.chain.bonds[k].status != P.OPEN
    requires Bonded(c.task.session.terms) && c.attempt.evidence.payload.penalty == TaskPenalty(c.task)
    ensures HasAnswer(w, AfterAsking(w, x), x.p, c, result) && AfterAsking(w, x).chain == w.chain
    ensures var t := c.task;
      if SettledFor(w, k, TaskKey(t), TaskPenalty(t)) then
        TaskPenalty(t) <= t.session.terms.bondAmount && result == Confirmation(x.latest, TaskPenalty(t), t.session.terms.bondAmount - TaskPenalty(t))
      else result.status == FAILED
  {
    hide TaskPenalty, Do, SettledFor, HasAnswer, AfterAsking, CaseGood, P.Good, BondMatches;
    var w1, t := Do(w, BeginCall(x.p, w.secret)), c.task;
    AskedFrame(w, w1, x.p, c, k);
    var pr := FetchedEnded(w, w1, x.p, c, k);
    hide Asked;
    SettledStill(w, w1, k, TaskKey(t), TaskPenalty(t));
    FetchedFrom(w, w1, x.p, c, k, pr);
    hide With;
    if pr.Recovering? {
      RecoversAfterFetch(w, x, c, pr.penalty, pr.bondRefunded);
      result := Confirmation(x.latest, pr.penalty, pr.bondRefunded);
    } else {
      RepliesAfterFetch(w, x, c, pr.result);
      result := pr.result;
    }
  }

  lemma SettledStill(w: World, w': World, k: Key, key: SettlementKey, penalty: nat)
    requires w'.chain == w.chain && w'.attempts == w.attempts
    ensures SettledFor(w', k, key, penalty) <==> SettledFor(w, k, key, penalty)
  {}

  // ---------------------------------------------------------------------------------
  // Reporting
  // ---------------------------------------------------------------------------------

  function AfterReporting(w: World, x: Call): World {
    Do(Do(Do(Do(Do(Do(Do(w, SaveResult(x.p, x.now)), SaveResult(x.p, x.now)), Validate(x.p)), FinalizeReservation(x.p, x.now)), MarkSettled(x.p)), Finish(x.p)), StoreReceipt(x.p))
  }

  /** The validators take the amounts. */
  predicate AmountsPass(t: Task, result: AdapterResult) {
    && Bonded(t.session.terms)
    && (if t.kind == CLOSE_ROUTE then ValidateValidClose(result, t.session.terms.bondAmount)
        else ValidateExpiredReservation(result, TaskPenalty(t), t.session.terms.maxPenalty, t.session.terms.bondAmount)).Some?
  }

  /** The process will never get past its answer. */
  predicate Hopeless(w: World, p: nat) {
    && p in w.processes
    && var pr := w.processes[p];
       || pr.Submitted?
       || (pr.Answered?
           && (pr.result.status != CONFIRMED || !AmountsPass(pr.c.task, pr.result)
               || (pr.saves > 0 && pr.c.attempt.key in w.attempts && w.attempts[pr.c.attempt.key] == pr.c.attempt
                   && !Agreeing(pr.c.attempt.providerReference, pr.result.providerReference))))
  }

  lemma HopelessSave(w: World, p: nat, now: int)
    requires Hopeless(w, p)
    ensures Hopeless(Do(w, SaveResult(p, now)), p)
    ensures Do(w, SaveResult(p, now)).sessions == w.sessions && Do(w, SaveResult(p, now)).chain == w.chain
  {
    hide AmountsPass;
    assert Next(w, SaveResult(p, now)) == DoSaveResult(w, p, now);
    if DoSaveResult(w, p, now).Some? {
      var merged := SaveTells(w, p, now);
      var attempt := w.processes[p].c.attempt;
      if w.attempts[attempt.key] == attempt { SavedMeansAgreeing(w, p, now); }
      hide DoSaveResult;
    }
  }

  lemma SavedMeansAgreeing(w: World, p: nat, now: int)
    requires DoSaveResult(w, p, now).Some? && w.attempts[w.processes[p].c.attempt.key] == w.processes[p].c.attempt
    ensures Agreeing(w.processes[p].c.attempt.providerReference, w.processes[p].result.providerReference)
  {}

  lemma HopelessValidate(w: World, p: nat)
    requires Hopeless(w, p)
    ensures Do(w, Validate(p)) == w
  {
    hide TaskPenalty;
  }

  lemma HopelessFinalize(w: World, p: nat, now: int)
    requires Hopeless(w, p)
    ensures Do(w, FinalizeReservation(p, now)) == w && Do(w, MarkSettled(p)) == w
  {
    hide AmountsPass, Agreeing;
  }

  lemma HopelessFinish(w: World, p: nat)
    requires Hopeless(w, p)
    ensures Do(w, Finish(p)) == w && Do(w, StoreReceipt(p)) == w
  {
    hide AmountsPass, Agreeing;
  }

  lemma HopelessCall(w: World, x: Call)
    requires Hopeless(w, x.p)
    ensures AfterReporting(w, x).sessions == w.sessions && AfterReporting(w, x).chain == w.chain
  {
    hide Do, Hopeless;
    HopelessSave(w, x.p, x.now);
    var w1 := Do(w, SaveResult(x.p, x.now));
    HopelessSave(w1, x.p, x.now);
    var w2 := Do(w1, SaveResult(x.p, x.now));
    HopelessValidate(w2, x.p);
    HopelessFinalize(w2, x.p, x.now);
    HopelessFinish(w2, x.p);
  }

  lemma SavesResult(w: World, p: nat, now: int) returns (merged: Attempt)
    requires p in w.processes && w.processes[p].Answered? && w.processes[p].saves > 0
    requires var pr := w.processes[p];
      && pr.c.attempt.key in w.attempts && w.attempts[pr.c.attempt.key] == pr.c.attempt
      && Agreeing(pr.c.attempt.providerReference, pr.result.providerReference)
    ensures var pr := w.processes[p];
      && merged.key == pr.c.attempt.key && merged.evidence == pr.c.attempt.evidence && Agreeing(merged.providerReference, pr.result.providerReference)
      && (pr.c.attempt.providerReference.Some? ==> merged.providerReference == pr.c.attempt.providerReference)
      && (pr.c.attempt.status == PENDING && pr.result.status == CONFIRMED && pr.c.attempt.providerReference == None ==>
            merged.providerReference == pr.result.providerReference)
      && Do(w, SaveResult(p, now)) == With(w.(attempts := w.attempts[pr.c.attempt.key := merged]), p, Answered(pr.c.(attempt := merged), pr.result, pr.saves - 1))
  {
    var pr := w.processes[p];
    merged := Merge(pr.c.attempt, WithResult(pr.c.attempt, pr.result, now)).value;
  }

  lemma ValidatesResult(w: World, p: nat)
    requires p in w.processes && w.processes[p].Answered? && w.processes[p].saves == 0 && w.processes[p].result.status == CONFIRMED
    requires AmountsPass(w.processes[p].c.task, w.processes[p].result)
    ensures var pr := w.processes[p];
      && pr.result.penalty.Some? && pr.result.bondRefunded.Some?
      && Do(w, Validate(p)) == With(w, p, Settled(pr.c.task, pr.c.usage, Amounts(pr.result.penalty.value, pr.result.bondRefunded.value)))
  {
    hide TaskPenalty;
  }

  /** Two saves and the validation. */
  lemma ReportsAmounts(w: World, x: Call, c: Case, result: AdapterResult)
    requires x.p in w.processes && w.processes[x.p] == Answered(c, result, 2) && result.status == CONFIRMED && AmountsPass(c.task, result)
    requires c.attempt.key in w.attempts && w.attempts[c.attempt.key] == c.attempt && Agreeing(c.attempt.providerReference, result.providerReference)
    ensures result.penalty.Some? && result.bondRefunded.Some?
    ensures var w' := Do(Do(Do(w, SaveResult(x.p, x.now)), SaveResult(x.p, x.now)), Validate(x.p));
      && w' == With(w.(attempts := w'.attempts), x.p, Settled(c.task, c.usage, Amounts(result.penalty.value, result.bondRefunded.value)))
      && c.attempt.key in w'.attempts && w'.attempts[c.attempt.key].evidence == c.attempt.evidence
      && (c.attempt.status == PENDING && c.attempt.providerReference == None && result.providerReference.Some? ==>
            w'.attempts[c.attempt.key].providerReference == result.providerReference)
  {
    hide Do, AmountsPass, Agreeing;
    var one := SavesResult(w, x.p, x.now);
    var w1 := Do(w, SaveResult(x.p, x.now));
    var two := SavesResult(w1, x.p, x.now);
    var w2 := Do(w1, SaveResult(x.p, x.now));
    ValidatesResult(w2, x.p);
  }

  /** The receipt the call stores. */
  ghost predicate EndsWith(w: World, w': World, t: Task, amounts: Amounts) {
    && w'.chain == w.chain && t.sessionId in w.sessions && t.sessionId in w'.sessions
    && var r := w'.sessions[t.sessionId];
       && r.terms == w.sessions[t.sessionId].terms && r.receipt.Some? && r.receipt.value.outcome == (if t.kind == CLOSE_ROUTE then S.CLOSED else S.EXPIRED)
       && r.receipt.value.penalty == amounts.penalty && r.receipt.value.bondRefunded == amounts.bondRefunded
  }

  /** An expiry ends its reservation, marks it as settled and returns its unit to stock; a close
      leaves the goods alone. */
  ghost predicate GoodsAfter(m: V.Memory, m': V.Memory, t: Task, now: int) {
    if t.kind == CLOSE_ROUTE then m' == m
    else
      && t.reservationId in m.reservations
      && var r := m.reservations[t.reservationId];
      && m'.reservations == m.reservations[t.reservationId := r.(state := V.EXPIRED, settlementRequested := true)]
      && V.StockMoved(m.inventory, m'.inventory, r.productId, r.quantity, now)
  }

  /** An expired reservation of a product with inventory. */
  ghost predicate Finalizable(w: World, id: string, reservation: string, now: int) {
    && Expired(w, id, reservation, now) && w.goods.reservations[reservation].reservationId == reservation
    && w.goods.reservations[reservation].productId in w.goods.inventory
  }

  /** The store after the reservation has ended. */
  function EndedGoods(m: V.Memory, reservation: string, now: int): V.Memory
    requires reservation in m.reservations && m.reservations[reservation].productId in m.inventory
  {
    var r := m.reservations[reservation];
    V.Memory(m.inventory[r.productId := V.Restock(m.inventory[r.productId], r.quantity, now)], m.reservations[reservation := r.(state := V.EXPIRED)])
  }

  lemma CanFinalizeExpiry(w: World, p: nat, t: Task, now: int)
    requires p in w.processes && w.processes[p].Settled? && w.processes[p].task == t && t.kind != CLOSE_ROUTE
    requires Finalizable(w, t.sessionId, t.reservationId, now)
    ensures Next(w, FinalizeReservation(p, now)) ==
      Some(With(w.(goods := EndedGoods(w.goods, t.reservationId, now)), p,
                Finalized(t, w.processes[p].usage, w.processes[p].amounts, w.goods.reservations[t.reservationId].(state := V.EXPIRED))))
  {}

  lemma CanMarkReservation(w: World, p: nat)
    requires p in w.processes && w.processes[p].Finalized?
    ensures var pr := w.processes[p];
      var saved := pr.reservation.(settlementRequested := true);
      Next(w, MarkSettled(p)) ==
        Some(With(w.(goods := w.goods.(reservations := w.goods.reservations[saved.reservationId := saved])), p, Finishing(pr.task, pr.usage, pr.amounts)))
  {}

  lemma CanFinishExpiry(w: World, p: nat)
    requires p in w.processes && w.processes[p].Finishing? && w.processes[p].task.kind != CLOSE_ROUTE
    requires w.processes[p].task.sessionId in w.sessions && w.sessions[w.processes[p].task.sessionId].state == S.SETTLING
    ensures var pr, id := w.processes[p], w.processes[p].task.sessionId;
      var record := w.sessions[id].(state := S.EXPIRED, leaseExpiresAt := None);
      Next(w, Finish(p)) == Some(With(w.(sessions := w.sessions[id := record]), p,
        Closing(pr.task.adapter, record, S.Receipt(S.EXPIRED, if pr.task.kind == EXPIRY_WORKER then pr.task.session.calls else record.calls, pr.usage, pr.amounts.bondRefunded, pr.amounts.penalty))))
  {}

  lemma StillFinalizable(w: World, w': World, id: string, reservation: string, now: int)
    requires Inv(w) && Expired(w, id, reservation, now) && w'.goods == w.goods && w.goods.reservations[reservation].productId in w.goods.inventory
    ensures Finalizable(w', id, reservation, now)
  {
    hide Inv;
    ReservationFact(w, reservation);
  }

  lemma FinalizesClose(w: World, p: nat, now: int)
    requires p in w.processes && w.processes[p].Settled? && w.processes[p].task.kind == CLOSE_ROUTE
    ensures var pr := w.processes[p];
      Do(w, FinalizeReservation(p, now)) == With(w, p, Finishing(pr.task, pr.usage, pr.amounts))
  {}

  lemma SkipMark(w: World, p: nat)
    requires p in w.processes && !w.processes[p].Finalized?
    ensures Do(w, MarkSettled(p)) == w
  {}

  lemma StoresReceipt(w: World, p: nat, t: Task, amounts: Amounts)
    requires p in w.processes && w.processes[p].Finishing? && w.processes[p].task == t && w.processes[p].amounts == amounts
    requires t.sessionId in w.sessions && w.sessions[t.sessionId].state == S.SETTLING && w.sessions[t.sessionId].sessionId == t.sessionId
    ensures EndsWith(w, Do(Do(w, Finish(p)), StoreReceipt(p)), t, amounts) && Do(Do(w, Finish(p)), StoreReceipt(p)).goods == w.goods
  {
    if t.kind == CLOSE_ROUTE { CanFinish(w, p); } else { CanFinishExpiry(w, p); }
    DoIsNext(w, Finish(p));
    hide Next, Do;
    var w1 := Do(w, Finish(p));
    CanStore(w1, p);
    DoIsNext(w1, StoreReceipt(p));
  }

  lemma SameGoods(m: V.Memory, t: Task, now: int)
    requires t.kind == CLOSE_ROUTE
    ensures GoodsAfter(m, m, t, now)
  {}

  lemma ExpiredGoods(w: World, t: Task, now: int)
    requires t.kind != CLOSE_ROUTE && Finalizable(w, t.sessionId, t.reservationId, now)
    ensures var ended, r := EndedGoods(w.goods, t.reservationId, now), w.goods.reservations[t.reservationId].(state := V.EXPIRED, settlementRequested := true);
      && r.reservationId == t.reservationId && GoodsAfter(w.goods, ended.(reservations := ended.reservations[t.reservationId := r]), t, now)
  {
    var ended, r := EndedGoods(w.goods, t.reservationId, now), w.goods.reservations[t.reservationId].(state := V.EXPIRED, settlementRequested := true);
    assert ended.reservations[t.reservationId := r] == w.goods.reservations[t.reservationId := r];
  }

  lemma EndsCall(w: World, x: Call, t: Task, usage: nat, amounts: Amounts)
    requires x.p in w.processes && w.processes[x.p] == Settled(t, usage, amounts)
    requires t.sessionId in w.sessions && w.sessions[t.sessionId].state == S.SETTLING && w.sessions[t.sessionId].sessionId == t.sessionId
    requires t.kind != CLOSE_ROUTE ==> Finalizable(w, t.sessionId, t.reservationId, x.now)
    ensures var w' := Do(Do(Do(Do(w, FinalizeReservation(x.p, x.now)), MarkSettled(x.p)), Finish(x.p)), StoreReceipt(x.p));
      EndsWith(w, w', t, amounts) && GoodsAfter(w.goods, w'.goods, t, x.now)
  {
    if t.kind != CLOSE_ROUTE { ExpiredGoods(w, t, x.now); }
    hide Do, Next, Finalizable, EndedGoods, GoodsAfter;
    if t.kind == CLOSE_ROUTE {
      FinalizesClose(w, x.p, x.now);
      SkipMark(Do(w, FinalizeReservation(x.p, x.now)), x.p);
    } else {
      CanFinalizeExpiry(w, x.p, t, x.now);
      DoIsNext(w, FinalizeReservation(x.p, x.now));
      CanMarkReservation(Do(w, FinalizeReservation(x.p, x.now)), x.p);
      DoIsNext(Do(w, FinalizeReservation(x.p, x.now)), MarkSettled(x.p));
    }
    var w2 := Do(Do(w, FinalizeReservation(x.p, x.now)), MarkSettled(x.p));
    if t.kind == CLOSE_ROUTE { assert GoodsAfter(w.goods, w2.goods, t, x.now) by { SameGoods(w.goods, t, x.now); } }
    StoresReceipt(w2, x.p, t, amounts);
  }

  lemma ReportsReceipt(w: World, x: Call, c: Case, result: AdapterResult)
    requires x.p in w.processes && w.processes[x.p] == Answered(c, result, 2) && result.status == CONFIRMED && AmountsPass(c.task, result)
    requires c.attempt.key in w.attempts && w.attempts[c.attempt.key] == c.attempt && Agreeing(c.attempt.providerReference, result.providerReference)
    requires c.task.sessionId in w.sessions && w.sessions[c.task.sessionId].state == S.SETTLING && w.sessions[c.task.sessionId].sessionId == c.task.sessionId
    requires c.task.kind != CLOSE_ROUTE ==> Finalizable(w, c.task.sessionId, c.task.reservationId, x.now)
    ensures result.penalty.Some? && result.bondRefunded.Some?
    ensures EndsWith(w, AfterReporting(w, x), c.task, Amounts(result.penalty.value, result.bondRefunded.value))
    ensures GoodsAfter(w.goods, AfterReporting(w, x).goods, c.task, x.now)
  {
    hide Do, AmountsPass, Finalizable, GoodsAfter;
    ReportsAmounts(w, x, c, result);
    var w3 := Do(Do(Do(w, SaveResult(x.p, x.now)), SaveResult(x.p, x.now)), Validate(x.p));
    assert Finalizable(w, c.task.sessionId, c.task.reservationId, x.now) ==> Finalizable(w3, c.task.sessionId, c.task.reservationId, x.now) by {
      SameGoodsFinalizable(w, w3, c.task.sessionId, c.task.reservationId, x.now);
    }
    EndsCall(w3, x, c.task, c.usage, Amounts(result.penalty.value, result.bondRefunded.value));
  }

  lemma SameGoodsFinalizable(w: World, w': World, id: string, reservation: string, now: int)
    requires w'.goods == w.goods
    ensures Finalizable(w, id, reservation, now) <==> Finalizable(w', id, reservation, now)
  {}

  // ---------------------------------------------------------------------------------
  // The outcome
  // ---------------------------------------------------------------------------------

  /** The process is confirmed what it asked for, and the journal will take it. */
  ghost predicate Confirmed(w: World, w': World, x: Call, c: Case, result: AdapterResult) {
    && Bonded(c.task.session.terms) && HasAnswer(w, w', x.p, c, result) && result.status == CONFIRMED
    && TaskPenalty(c.task) <= c.task.session.terms.maxPenalty <= c.task.session.terms.bondAmount
    && result.penalty == Some(TaskPenalty(c.task)) && result.bondRefunded == Some(c.task.session.terms.bondAmount - TaskPenalty(c.task))
    && Agreeing(c.attempt.providerReference, result.providerReference)
  }

  ghost predicate Stuck(w: World, w': World, p: nat) {
    w'.sessions == w.sessions && Hopeless(w', p)
  }

  /** What the outcome depends on, seen from the journalled case. */
  ghost predicate CaseSettles(w: World, x: Call, c: Case, k: Key) {
    && Bonded(c.task.session.terms) && c.attempt.evidence.payload.penalty == TaskPenalty(c.task) && k in w.chain.bonds
    && (if w.chain.bonds[k].status == P.OPEN then Executable(w, c.task, k)
        else EndedFor(w.chain.bonds[k], c.task, c.attempt.evidence.evidenceHash)
             && Agreeing(c.attempt.providerReference,
                         if TaskKey(c.task) in CacheOf(w, c.task.adapter).settledResults then CacheOf(w, c.task.adapter).settledResults[TaskKey(c.task)].providerReference else x.latest))
  }

  /** The process has claimed the nonce of the journal's attempt; a reference it carries is that of
      a settlement on chain. */
  ghost predicate ReadyToAsk(w: World, p: nat, c: Case, k: Key) {
    && Inv(w) && p in w.processes && w.processes[p] == Granted(c) && c.task.session.bondReference == Some(k)
    && c.attempt.key == TaskKey(c.task) && TaskKey(c.task) in w.attempts && w.attempts[TaskKey(c.task)] == c.attempt
    && EntryTrue(w, c.attempt)
  }

  lemma ReadyFacts(w: World, p: nat, c: Case, k: Key)
    requires ReadyToAsk(w, p, c, k)
    ensures Inv(w) && CaseGood(w, c) && Bonded(c.task.session.terms) && P.Good(w.chain)
    ensures c.task.sessionId in w.verified && w.verified[c.task.sessionId] == k && BondMatches(w, k, c.task.session.terms)
    ensures TaskPenalty(c.task) <= c.task.session.terms.maxPenalty <= c.task.session.terms.bondAmount
    ensures w.chain.bonds[k].status == P.OPEN ==> c.attempt.providerReference == None
    ensures c.task.kind == CLOSE_ROUTE ==> TaskPenalty(c.task) == 0
    ensures CacheGood(w, CacheOf(w, c.task.adapter)) && c.task.sessionId in w.sessions && w.sessions[c.task.sessionId].terms == c.task.session.terms
    ensures TaskKey(c.task).sessionId == c.task.sessionId
  {
    hide Inv, CaseGood, CacheGood, ExpiryPenalty, P.Good;
    ProcessFact(w, p);
    CaseOfGranted(w, w.processes[p]);
    hide ProcessGood;
    CaseIsReady(w, c);
    RequestIsTask(w, c);
    CaseTerms(w, c);
    PenaltyWithinBond(c.task);
    CacheOfGood(w, c.task.adapter);
    CaseSession(w, c);
    RequestBond(w, c);
    hide CaseReady;
  }

  lemma RequestBond(w: World, c: Case)
    requires CaseGood(w, c)
    ensures c.request.bondAccount == c.task.session.bondReference
  {
    hide TaskPenalty, ExaminedGood;
  }

  lemma CaseSession(w: World, c: Case)
    requires CaseGood(w, c)
    ensures Bonded(c.task.session.terms) && c.task.sessionId in w.sessions && w.sessions[c.task.sessionId].terms == c.task.session.terms
  {
    hide NewRequest;
  }

  lemma ConfirmedPasses(w: World, w': World, x: Call, c: Case, result: AdapterResult)
    requires Confirmed(w, w', x, c, result) && (c.task.kind == CLOSE_ROUTE ==> TaskPenalty(c.task) == 0)
    ensures AmountsPass(c.task, result)
  {
    hide TaskPenalty, HasAnswer;
  }

  lemma AnswerIsConfirmed(w: World, w': World, x: Call, c: Case, result: AdapterResult)
    requires Bonded(c.task.session.terms) && HasAnswer(w, w', x.p, c, result) && result.status == CONFIRMED
    requires TaskPenalty(c.task) <= c.task.session.terms.maxPenalty <= c.task.session.terms.bondAmount
    requires result.penalty == Some(TaskPenalty(c.task)) && result.bondRefunded == Some(c.task.session.terms.bondAmount - TaskPenalty(c.task))
    requires Agreeing(c.attempt.providerReference, result.providerReference)
    ensures Confirmed(w, w', x, c, result)
  {
    hide HasAnswer, TaskPenalty;
  }

  lemma FailedIsStuck(w: World, w': World, p: nat, c: Case, result: AdapterResult)
    requires HasAnswer(w, w', p, c, result) && result.status == FAILED
    ensures Stuck(w, w', p)
  {
    hide AmountsPass;
  }

  lemma WrongIsStuck(w: World, w': World, p: nat, c: Case, result: AdapterResult)
    requires HasAnswer(w, w', p, c, result) && !AmountsPass(c.task, result)
    ensures Stuck(w, w', p)
  {
    hide AmountsPass;
  }

  lemma ConflictIsStuck(w: World, w': World, p: nat, c: Case, result: AdapterResult)
    requires HasAnswer(w, w', p, c, result) && c.attempt.key in w.attempts && w.attempts[c.attempt.key] == c.attempt
    requires !Agreeing(c.attempt.providerReference, result.providerReference)
    ensures Stuck(w, w', p)
  {
    hide AmountsPass, Agreeing;
  }

  lemma SubmittedIsStuck(w: World, w': World, p: nat)
    requires w'.sessions == w.sessions && p in w'.processes && w'.processes[p].Submitted?
    ensures Stuck(w, w', p)
  {}

  /** A remembered result counts for the penalty it was given for. */
  lemma RememberedResult(w: World, p: nat, c: Case, k: Key)
    requires ReadyToAsk(w, p, c, k) && TaskKey(c.task) in CacheOf(w, c.task.adapter).settledResults
    ensures Bonded(c.task.session.terms)
    ensures var result, penalty := CacheOf(w, c.task.adapter).settledResults[TaskKey(c.task)], c.attempt.evidence.payload.penalty;
      && result.status == CONFIRMED && result.penalty == Some(penalty) && result.bondRefunded.Some?
      && penalty + result.bondRefunded.value == c.task.session.terms.bondAmount && k in w.chain.bonds && w.chain.bonds[k].status != P.OPEN
      && (EndedFor(w.chain.bonds[k], c.task, c.attempt.evidence.evidenceHash) <==> penalty == TaskPenalty(c.task))
  {
    ReadyFacts(w, p, c, k);
    hide ReadyToAsk, Inv, CaseGood, CacheOf, ExpiryPenalty, P.Good, EntryTrue;
    assert CachedGood(w, TaskKey(c.task), CacheOf(w, c.task.adapter).settledResults[TaskKey(c.task)]);
    RequestSays(w, c);
    hide CacheGood;
  }

  lemma RememberedSettles(w: World, x: Call, c: Case, k: Key)
    requires ReadyToAsk(w, x.p, c, k) && TaskKey(c.task) in CacheOf(w, c.task.adapter).settledResults
    ensures Bonded(c.task.session.terms)
    ensures CaseSettles(w, x, c, k) <==>
      && c.attempt.evidence.payload.penalty == TaskPenalty(c.task)
      && Agreeing(c.attempt.providerReference, CacheOf(w, c.task.adapter).settledResults[TaskKey(c.task)].providerReference)
  {
    RememberedResult(w, x.p, c, k);
    hide ReadyToAsk, CacheOf, Executable, EndedFor, TaskPenalty, Agreeing;
  }

  lemma RememberedOutcome(w: World, x: Call, c: Case, k: Key) returns (result: AdapterResult)
    requires ReadyToAsk(w, x.p, c, k) && TaskKey(c.task) in CacheOf(w, c.task.adapter).settledResults
    ensures AfterAsking(w, x).chain == w.chain
    ensures if CaseSettles(w, x, c, k) then Confirmed(w, AfterAsking(w, x), x, c, result) else Stuck(w, AfterAsking(w, x), x.p)
  {
    hide TaskPenalty, CacheOf, AfterAsking, EndedFor, CaseSettles, Confirmed, Stuck, HasAnswer, Agreeing, Inv, EntryTrue, CaseGood, P.Good, CacheGood, BondMatches;
    RememberedSettles(w, x, c, k);
    RememberedResult(w, x.p, c, k);
    ReadyFacts(w, x.p, c, k);
    ConflictAttempt(w, x.p, c, k);
    Remembers(w, x, c);
    hide ReadyToAsk;
    result := CacheOf(w, c.task.adapter).settledResults[TaskKey(c.task)];
    if c.attempt.evidence.payload.penalty != TaskPenalty(c.task) {
      WrongAmount(c.task, result);
      WrongIsStuck(w, AfterAsking(w, x), x.p, c, result);
    } else if Agreeing(c.attempt.providerReference, result.providerReference) {
      AnswerIsConfirmed(w, AfterAsking(w, x), x, c, result);
    } else {
      ConflictIsStuck(w, AfterAsking(w, x), x.p, c, result);
    }
  }

  lemma ConflictAttempt(w: World, p: nat, c: Case, k: Key)
    requires ReadyToAsk(w, p, c, k)
    ensures c.attempt.key in w.attempts && w.attempts[c.attempt.key] == c.attempt
  {
    hide Inv, EntryTrue;
  }

  lemma WrongAmount(t: Task, result: AdapterResult)
    requires Bonded(t.session.terms) && result.penalty.Some? && result.penalty.value != TaskPenalty(t) && (t.kind == CLOSE_ROUTE ==> TaskPenalty(t) == 0)
    ensures !AmountsPass(t, result)
  {
    hide TaskPenalty;
  }

  function FullAnswer(x: Call, t: Task): AdapterResult
    requires Bonded(t.session.terms) && TaskPenalty(t) <= t.session.terms.bondAmount
  {
    Confirmation(Some(x.signature), TaskPenalty(t), t.session.terms.bondAmount - TaskPenalty(t))
  }

  lemma OpenSettles(w: World, x: Call, c: Case, k: Key)
    requires Asked(w, Do(w, BeginCall(x.p, w.secret)), x.p, c, k) && w.chain.bonds[k].status == P.OPEN && Executable(w, c.task, k)
    requires c.attempt.providerReference == None && Bonded(c.task.session.terms)
    requires TaskPenalty(c.task) <= c.task.session.terms.maxPenalty <= c.task.session.terms.bondAmount
    ensures Confirmed(w, AfterAsking(w, x), x, c, FullAnswer(x, c.task))
    ensures B.PenaltyOf(c.request) <= U64_MAX && P.Execute(w.chain, InstructionFor(w, c, k)) == Ok(AfterAsking(w, x).chain)
  {
    hide CaseGood, P.Good, BondMatches, Executable, TaskPenalty, CacheOf, AfterAsking, Asked, Do, P.Execute, InstructionFor, Confirmed, HasAnswer;
    Settles(w, x, c, k);
    AnswerIsConfirmed(w, AfterAsking(w, x), x, c, FullAnswer(x, c.task));
  }

  lemma OpenFails(w: World, x: Call, c: Case, k: Key)
    requires Asked(w, Do(w, BeginCall(x.p, w.secret)), x.p, c, k) && w.chain.bonds[k].status == P.OPEN && !Executable(w, c.task, k)
    ensures Stuck(w, AfterAsking(w, x), x.p) && AfterAsking(w, x).chain == w.chain
  {
    hide CaseGood, P.Good, BondMatches, Executable, TaskPenalty, CacheOf, AfterAsking, Asked, Do, Stuck;
    Fails(w, x, c, k);
    SubmittedIsStuck(w, AfterAsking(w, x), x.p);
  }

  lemma EndedOutcome(w: World, x: Call, c: Case, k: Key) returns (result: AdapterResult)
    requires ReadyToAsk(w, x.p, c, k) && Asked(w, Do(w, BeginCall(x.p, w.secret)), x.p, c, k) && w.chain.bonds[k].status != P.OPEN
    requires Bonded(c.task.session.terms) && c.attempt.evidence.payload.penalty == TaskPenalty(c.task)
    ensures AfterAsking(w, x).chain == w.chain
    ensures if EndedFor(w.chain.bonds[k], c.task, c.attempt.evidence.evidenceHash) && Agreeing(c.attempt.providerReference, x.latest)
            then Confirmed(w, AfterAsking(w, x), x, c, result) else Stuck(w, AfterAsking(w, x), x.p)
  {
    hide Inv, CaseGood, P.Good, CacheGood, TaskPenalty, CacheOf, AfterAsking, Asked, Do, SettledFor, EndedFor, Confirmed, Stuck, HasAnswer, Agreeing, EntryTrue;
    ReadyFacts(w, x.p, c, k);
    EndedMeansSettled(w, x.p, c, k);
    ConflictAttempt(w, x.p, c, k);
    hide ReadyToAsk;
    result := AsksEnded(w, x, c, k);
    hide BondMatches;
    if !SettledFor(w, k, TaskKey(c.task), TaskPenalty(c.task)) {
      FailedIsStuck(w, AfterAsking(w, x), x.p, c, result);
    } else if Agreeing(c.attempt.providerReference, x.latest) {
      AnswerIsConfirmed(w, AfterAsking(w, x), x, c, result);
    } else {
      ConflictIsStuck(w, AfterAsking(w, x), x.p, c, result);
    }
  }

  lemma EndedMeansSettled(w: World, p: nat, c: Case, k: Key)
    requires ReadyToAsk(w, p, c, k) && Bonded(c.task.session.terms) && c.attempt.evidence.payload.penalty == TaskPenalty(c.task) && k in w.chain.bonds
    ensures EndedFor(w.chain.bonds[k], c.task, c.attempt.evidence.evidenceHash) <==> SettledFor(w, k, TaskKey(c.task), TaskPenalty(c.task))
  {
    hide Inv, EntryTrue, ExpiryPenalty;
  }

  ghost predicate Outcome(w: World, w': World, x: Call, c: Case, k: Key, result: AdapterResult) {
    && (if CaseSettles(w, x, c, k) then Confirmed(w, w', x, c, result) else Stuck(w, w', x.p))
    && k in w.chain.bonds
    && (if w.chain.bonds[k].status == P.OPEN && CaseSettles(w, x, c, k) then
          B.PenaltyOf(c.request) <= U64_MAX && P.Execute(w.chain, InstructionFor(w, c, k)) == Ok(w'.chain)
        else w'.chain == w.chain)
  }

  lemma RememberedCase(w: World, x: Call, c: Case, k: Key) returns (result: AdapterResult)
    requires ReadyToAsk(w, x.p, c, k) && TaskKey(c.task) in CacheOf(w, c.task.adapter).settledResults
    ensures Outcome(w, AfterAsking(w, x), x, c, k, result)
  {
    hide ReadyToAsk, AfterAsking, TaskPenalty, CacheOf, InstructionFor, P.Execute, Executable, EndedFor, Confirmed, Stuck, CaseSettles;
    RememberedResult(w, x.p, c, k);
    result := RememberedOutcome(w, x, c, k);
  }

  lemma RefusedCase(w: World, x: Call, c: Case, k: Key) returns (result: AdapterResult)
    requires ReadyToAsk(w, x.p, c, k) && TaskKey(c.task) !in CacheOf(w, c.task.adapter).settledResults
    requires Bonded(c.task.session.terms) && c.attempt.evidence.payload.penalty != TaskPenalty(c.task)
    ensures Outcome(w, AfterAsking(w, x), x, c, k, result)
  {
    hide Inv, AfterAsking, TaskPenalty, CacheOf, InstructionFor, P.Execute, Executable, EndedFor, Confirmed, Stuck, EntryTrue, HasAnswer;
    result := Refuses(w, x, c);
    ReadyFacts(w, x.p, c, k);
    hide ReadyToAsk, BondMatches, CacheGood, CaseGood, P.Good;
    FailedIsStuck(w, AfterAsking(w, x), x.p, c, result);
  }

  lemma AskedCase(w: World, x: Call, c: Case, k: Key) returns (result: AdapterResult)
    requires ReadyToAsk(w, x.p, c, k) && TaskKey(c.task) !in CacheOf(w, c.task.adapter).settledResults
    requires Bonded(c.task.session.terms) && c.attempt.evidence.payload.penalty == TaskPenalty(c.task)
    ensures Outcome(w, AfterAsking(w, x), x, c, k, result)
  {
    hide Inv, AfterAsking, TaskPenalty, CacheOf, InstructionFor, P.Execute, Executable, EndedFor, Confirmed, Stuck, EntryTrue, Asked, Do, CacheGood, CaseGood, P.Good;
    ReadyFacts(w, x.p, c, k);
    Asks(w, x, c, k);
    hide ReadyToAsk, BondMatches;
    if w.chain.bonds[k].status != P.OPEN {
      result := EndedOutcome(w, x, c, k);
    } else if Executable(w, c.task, k) {
      result := FullAnswer(x, c.task);
      OpenSettles(w, x, c, k);
    } else {
      result := Failure(TX_FAILED);
      OpenFails(w, x, c, k);
    }
  }

  lemma CallOutcome(w: World, x: Call, c: Case, k: Key) returns (result: AdapterResult)
    requires ReadyToAsk(w, x.p, c, k)
    ensures Outcome(w, AfterAsking(w, x), x, c, k, result)
  {
    hide Outcome, AfterAsking, TaskPenalty, CacheOf;
    assert Bonded(c.task.session.terms) by { ReadyFacts(w, x.p, c, k); }
    hide ReadyToAsk;
    if TaskKey(c.task) in CacheOf(w, c.task.adapter).settledResults {
      result := RememberedCase(w, x, c, k);
    } else if c.attempt.evidence.payload.penalty != TaskPenalty(c.task) {
      result := RefusedCase(w, x, c, k);
    } else {
      result := AskedCase(w, x, c, k);
    }
  }

  // ---------------------------------------------------------------------------------
  // The whole call
  // ---------------------------------------------------------------------------------

  lemma CallIsRun(w: World, x: Call, w1: World)
    requires w1 == Run(w, OpeningSteps(x)) && w1.secret == w.secret && w1.submissions == w.submissions
    ensures Run(w, CallSteps(w, x)) == AfterReporting(AfterAsking(w1, x), x)
  {
    hide Run, Do;
    var a, b, c := OpeningSteps(x), AskingSteps(x, w.secret, |w.submissions|), ReportingSteps(x);
    RunAppend(w, a, b);
    RunAppend(w, a + b, c);
    RunFive(w1, b[0], b[1], b[2], b[3], b[4]);
    RunSeven(Run(w1, b), c[0], c[1], c[2], c[3], c[4], c[5], c[6]);
  }

  lemma OpenedIsReady(w: World, w1: World, x: Call, c: Case) returns (k: Key)
    requires Inv(w) && Callable(w, x) && Opened(w, w1, x, c) && Inv(w1) && JournalTrue(w1)
    ensures x.task.session.bondReference == Some(k) && ReadyToAsk(w1, x.p, c, k)
  {
    hide Inv, EntryTrue, LockedRecord, Journalled, HashFor, StoredReference;
    SessionFact(w, x.task.sessionId);
    LockedTaskSame(x);
    hide LockedTask, TaskPenalty;
    k := x.task.session.bondReference.value;
    assert EntryTrue(w1, w1.attempts[TaskKey(x.task)]);
  }

  lemma SameVerdict(w: World, w1: World, x: Call, c: Case, k: Key)
    requires Opened(w, w1, x, c) && x.task.session.bondReference == Some(k) && Bonded(x.task.session.terms) && Bonded(c.task.session.terms)
    ensures WillSettle(w, x) <==> CaseSettles(w1, x, c, k)
    ensures TaskPenalty(c.task) == TaskPenalty(x.task)
  {
    LockedTaskSame(x);
    SameCaches(w, w1);
    ExecutableStill(w, w1, x.task, k);
    SameExecutable(w1, x, k);
    hide LockedTask, CacheOf, Executable, LockedRecord, TaskPenalty, HashFor, Journalled, StoredReference;
  }

  lemma SameExecutable(w: World, x: Call, k: Key)
    ensures Executable(w, LockedTask(x), k) <==> Executable(w, x.task, k)
  {}

  lemma CallFinalizable(w: World, w': World, x: Call)
    requires Inv(w) && Callable(w, x) && x.task.kind != CLOSE_ROUTE && w'.goods == w.goods
    ensures Finalizable(w', x.task.sessionId, x.task.reservationId, x.now)
  {
    hide Inv;
    StillFinalizable(w, w', x.task.sessionId, x.task.reservationId, x.now);
  }

  lemma CallSession(w: World, x: Call)
    requires Inv(w) && Callable(w, x)
    ensures x.task.session.sessionId == x.task.sessionId && x.task.session.receipt == None
  {
    hide Inv, Expired, NothingReserved;
    SessionFact(w, x.task.sessionId);
  }

  lemma LockedIsSettling(w: World, w1: World, x: Call, c: Case)
    requires Opened(w, w1, x, c) && x.task.sessionId in w.sessions && x.task.session == w.sessions[x.task.sessionId]
    ensures w1.goods == w.goods && w1.chain == w.chain && w1.gateway == w.gateway && w1.secret == w.secret && w1.submissions == w.submissions
    ensures x.task.sessionId in w1.sessions
    ensures var r := w1.sessions[x.task.sessionId];
      && r.state == S.SETTLING && r.sessionId == x.task.session.sessionId && r.terms == x.task.session.terms && r.receipt == x.task.session.receipt
    ensures c.attempt.key in w1.attempts && w1.attempts[c.attempt.key] == c.attempt
    ensures c.task.sessionId == x.task.sessionId && c.task.kind == x.task.kind && c.task.reservationId == x.task.reservationId
  {
    hide HashFor, Journalled, StoredReference;
  }

  lemma ConfirmedFrame(w: World, w': World, x: Call, c: Case, result: AdapterResult)
    requires Confirmed(w, w', x, c, result)
    ensures w'.sessions == w.sessions && w'.goods == w.goods && w'.attempts == w.attempts
    ensures x.p in w'.processes && w'.processes[x.p] == Answered(c, result, 2)
    ensures result.status == CONFIRMED && Bonded(c.task.session.terms) && Agreeing(c.attempt.providerReference, result.providerReference)
    ensures result.penalty == Some(TaskPenalty(c.task)) && TaskPenalty(c.task) <= c.task.session.terms.bondAmount
    ensures result.bondRefunded == Some(c.task.session.terms.bondAmount - TaskPenalty(c.task))
  {
    hide TaskPenalty, Agreeing;
  }

  /** The receipt of a call that completes. */
  ghost predicate Completes(w': World, t: Task) {
    && HasBondReceipt(w', t.sessionId) && Bonded(t.session.terms)
    && var r := w'.sessions[t.sessionId];
       && r.terms == t.session.terms && r.receipt.value.outcome == (if t.kind == CLOSE_ROUTE then S.CLOSED else S.EXPIRED)
       && r.receipt.value.penalty == TaskPenalty(t)
  }

  lemma SameGoodsAfter(m: V.Memory, m': V.Memory, s: Task, t: Task, now: int)
    ensures s.kind == t.kind && s.reservationId == t.reservationId && GoodsAfter(m, m', s, now) ==> GoodsAfter(m, m', t, now)
  {}

  lemma ConfirmedCompletes(w: World, w1: World, w2: World, x: Call, c: Case, k: Key, result: AdapterResult)
    requires Inv(w) && Callable(w, x) && Opened(w, w1, x, c) && ReadyToAsk(w1, x.p, c, k) && Confirmed(w1, w2, x, c, result)
    requires Bonded(x.task.session.terms) && TaskPenalty(c.task) == TaskPenalty(x.task)
    ensures Completes(AfterReporting(w2, x), x.task) && AfterReporting(w2, x).chain == w2.chain
    ensures GoodsAfter(w.goods, AfterReporting(w2, x).goods, x.task, x.now)
  {
    var t := x.task;
    SameGoodsAfter(w.goods, AfterReporting(w2, x).goods, c.task, t, x.now);
    hide GoodsAfter, Inv, TaskPenalty, AfterReporting, Finalizable, HasAnswer, AmountsPass, Agreeing, EntryTrue, CacheGood, BondMatches, CaseGood, P.Good;
    CallSession(w, x);
    LockedIsSettling(w, w1, x, c);
    ReadyFacts(w1, x.p, c, k);
    ConfirmedFrame(w1, w2, x, c, result);
    ConfirmedPasses(w1, w2, x, c, result);
    if t.kind != CLOSE_ROUTE { CallFinalizable(w, w2, x); }
    hide Confirmed, Opened, Callable, ReadyToAsk;
    ReportsReceipt(w2, x, c, result);
  }

  lemma StuckStays(w: World, w1: World, w2: World, x: Call, c: Case)
    requires Inv(w) && Callable(w, x) && Opened(w, w1, x, c) && Stuck(w1, w2, x.p)
    ensures !HasBondReceipt(AfterReporting(w2, x), x.task.sessionId) && AfterReporting(w2, x).chain == w2.chain
  {
    hide Inv, AfterReporting, Hopeless;
    CallSession(w, x);
    LockedIsSettling(w, w1, x, c);
    HopelessCall(w2, x);
  }

  /** The transaction of the call, if it comes to that. */
  function CallInstruction(w: World, x: Call, k: Key): P.Instruction
    requires Bonded(x.task.session.terms) && k in w.chain.bonds && TaskPenalty(x.task) <= U64_MAX
  {
    var agentToken := Ata(w.chain.bonds[k].agent, w.chain.bonds[k].mint);
    if x.task.kind == CLOSE_ROUTE then P.CloseValid(w.gateway, k, agentToken, HashFor(w, x))
    else P.SettleViolation(w.gateway, k, agentToken, Ata(w.chain.bonds[k].merchant, w.chain.bonds[k].mint), HashFor(w, x), TaskPenalty(x.task))
  }

  lemma SameCallInstruction(w: World, w1: World, x: Call, c: Case, k: Key)
    requires Opened(w, w1, x, c) && CaseGood(w1, c) && Bonded(x.task.session.terms) && k in w.chain.bonds && B.PenaltyOf(c.request) <= U64_MAX
    ensures TaskPenalty(x.task) <= U64_MAX && InstructionFor(w1, c, k) == CallInstruction(w, x, k)
  {
    LockedTaskSame(x);
    RequestSays(w1, c);
    hide LockedTask, TaskPenalty, CaseGood, HashFor, LockedRecord, Journalled, StoredReference;
  }

  /** What an undisturbed call does to the chain: it settles an open bond, or nothing. */
  ghost predicate ChainAfter(w: World, w': World, x: Call, k: Key) {
    && Bonded(x.task.session.terms) && k in w.chain.bonds
    && (if w.chain.bonds[k].status == P.OPEN && WillSettle(w, x) then
          TaskPenalty(x.task) <= U64_MAX && P.Execute(w.chain, CallInstruction(w, x, k)) == Ok(w'.chain)
        else w'.chain == w.chain)
  }

  lemma CallVerdict(w: World, x: Call) returns (k: Key)
    requires Inv(w) && JournalTrue(w) && Callable(w, x)
    ensures x.task.session.bondReference == Some(k) && ChainAfter(w, Run(w, CallSteps(w, x)), x, k)
    ensures if WillSettle(w, x) then Completes(Run(w, CallSteps(w, x)), x.task) && GoodsAfter(w.goods, Run(w, CallSteps(w, x)).goods, x.task, x.now)
            else !HasBondReceipt(Run(w, CallSteps(w, x)), x.task.sessionId)
  {
    hide GoodsAfter, Inv, JournalTrue, Run, Callable, WillSettle, Completes, TaskPenalty, P.Execute, CallInstruction, AfterAsking, AfterReporting, CaseSettles;
    assert Bonded(x.task.session.terms) && x.task.sessionId in w.sessions && x.task.session == w.sessions[x.task.sessionId] by { CallableFacts(w, x); }
    var c := CallOpens(w, x);
    var w1 := Run(w, OpeningSteps(x));
    RunKeepsJournalTrue(w, OpeningSteps(x));
    k := OpenedIsReady(w, w1, x, c);
    LockedIsSettling(w, w1, x, c);
    CallIsRun(w, x, w1);
    CaseIsGood(w1, x.p, c, k);
    hide ReadyToAsk;
    SameVerdict(w, w1, x, c, k);
    var result := CallOutcome(w1, x, c, k);
    hide Opened, Confirmed, Stuck, CaseGood, InstructionFor;
    var w2 := AfterAsking(w1, x);
    if WillSettle(w, x) {
      ConfirmedCompletes(w, w1, w2, x, c, k, result);
      if w.chain.bonds[k].status == P.OPEN { SameCallInstruction(w, w1, x, c, k); }
    } else {
      StuckStays(w, w1, w2, x, c);
    }
  }

  lemma CallableFacts(w: World, x: Call)
    requires Callable(w, x)
    ensures Bonded(x.task.session.terms) && x.task.sessionId in w.sessions && x.task.session == w.sessions[x.task.sessionId]
  {}

  lemma CaseIsGood(w: World, p: nat, c: Case, k: Key)
    requires ReadyToAsk(w, p, c, k)
    ensures CaseGood(w, c) && Bonded(c.task.session.terms)
  {
    hide CaseGood;
    ReadyFacts(w, p, c, k);
  }

  /** From every reachable state, whatever has been tried before, has crashed, was lost or has
      landed late, through any adapter, restarted or not: a settlement call that nobody
      disturbs ends in a receipt exactly if it asks for the journalled penalty and its bond is
      open and can be settled, or has been settled for this very attempt and the journal takes
      the reference the adapter reports. The receipt then agrees with the chain. Only an
      open bond is ever settled; otherwise the call leaves the chain alone. */
  lemma CallCompletesIff(start: World, before: seq<Step>, x: Call) returns (k: Key)
    requires Initial(start) && Callable(Run(start, before), x)
    ensures var w := Run(start, before);
      var w' := Run(w, CallSteps(w, x));
      && x.task.session.bondReference == Some(k) && ChainAfter(w, w', x, k)
      && (HasBondReceipt(w', x.task.sessionId) <==> WillSettle(w, x))
      && (HasBondReceipt(w', x.task.sessionId) ==>
            Completes(w', x.task) && GoodsAfter(w.goods, w'.goods, x.task, x.now) && AgreesWithChain(w', w'.sessions[x.task.sessionId]))
  {
    hide Initial, Inv, JournalTrue, GoodsAfter, Run, Callable, WillSettle, TaskPenalty, ChainAfter, AgreesWithChain, CallSteps;
    ReachableIsTrue(start, before);
    var w := Run(start, before);
    k := CallVerdict(w, x);
    RunKeepsInvariant(w, CallSteps(w, x));
    if WillSettle(w, x) { ReceiptAgrees(Run(w, CallSteps(w, x)), x.task.sessionId); }
  }

  // ---------------------------------------------------------------------------------
  // What follows
  // ---------------------------------------------------------------------------------

  /** A settlement that has landed, its response lost or its process dead: the next undisturbed
      call for it sends nothing, and completes exactly if it asks for the journalled penalty
      and the journal takes the reference. */
  lemma LandedCallCompletesIff(start: World, before: seq<Step>, x: Call) returns (k: Key)
    requires Initial(start)
    requires var w := Run(start, before);
      && Callable(w, x) && TaskKey(x.task) in w.attempts && x.task.session.bondReference.Some?
      && Landed(w, x.task.session.bondReference.value, TaskKey(x.task))
    ensures var w := Run(start, before);
      var w' := Run(w, CallSteps(w, x));
      && w'.chain == w.chain && Bonded(x.task.session.terms)
      && (HasBondReceipt(w', x.task.sessionId) <==>
            Journalled(w, x.task) == TaskPenalty(x.task) && Agreeing(StoredReference(w, TaskKey(x.task)), Reported(w, x)))
      && (HasBondReceipt(w', x.task.sessionId) ==> AgreesWithChain(w', w'.sessions[x.task.sessionId]))
  {
    hide Initial, Inv, Run, Callable, TaskPenalty, AgreesWithChain, CallSteps, Completes, Reported, Agreeing;
    k := CallCompletesIff(start, before, x);
    ReachableIsTrue(start, before);
    LandedIsEnded(Run(start, before), x, k);
    hide Landed, EndedFor, Executable, JournalTrue;
  }

  lemma LandedIsEnded(w: World, x: Call, k: Key)
    requires Inv(w) && TaskKey(x.task) in w.attempts && Landed(w, k, TaskKey(x.task)) && Bonded(x.task.session.terms)
    ensures w.chain.bonds[k].status != P.OPEN
    ensures EndedFor(w.chain.bonds[k], x.task, HashFor(w, x)) <==> Journalled(w, x.task) == TaskPenalty(x.task)
  {
    hide SessionGood, ProcessGood, CacheGood, AttemptGood, SubmissionGood, ReservationGood, NoncesGood, ExitsGood, OwnersDistinct, P.Good, ExpiryPenalty;
    LandedIsSettled(w, k, TaskKey(x.task));
    hide Inv;
  }

  /** The agent has been refunded at least the bond. */
  ghost predicate Refunded(w: World, w': World, k: Key)
    requires k in w.chain.bonds
  {
    var refund := Ata(w.chain.bonds[k].agent, w.chain.bonds[k].mint);
    && refund in w.chain.accounts && refund in w'.chain.accounts
    && w'.chain.accounts[refund].amount - w.chain.accounts[refund].amount >= w.chain.bonds[k].bondAmount
  }

  lemma ClosesRefund(w: World, w': World, x: Call, k: Key)
    requires P.Good(w.chain) && x.task.kind == CLOSE_ROUTE && Bonded(x.task.session.terms) && Closable(w, k)
    requires P.Execute(w.chain, CallInstruction(w, x, k)) == Ok(w'.chain)
    ensures Refunded(w, w', k)
  {
    P.CloseValidExact(w.chain, w.gateway, k, Ata(w.chain.bonds[k].agent, w.chain.bonds[k].mint), HashFor(w, x));
    hide P.Execute, P.Good, HashFor;
  }

  lemma CloseAsksJournalled(w: World, t: Task)
    requires Inv(w) && t.kind == CLOSE_ROUTE && Bonded(t.session.terms)
    ensures Journalled(w, t) == TaskPenalty(t) == 0
  {
    hide Inv, EvidenceHash, VerifyEvidence;
    if TaskKey(t) in w.attempts { AttemptFact(w, TaskKey(t)); }
  }

  lemma ChainIsGood(w: World)
    requires Inv(w)
    ensures P.Good(w.chain)
  {
    hide SessionsGood, ReservationsGood, AttemptsGood, NoncesGood, CachesGood, SubmissionsGood, ProcessesGood, OwnersDistinct, ExitsGood, P.Good;
  }

  /** While its bond is open and can be closed, an undisturbed close completes, however often it
      was tried before, and the agent has the bond back. */
  lemma UndisturbedCloseCompletes(start: World, before: seq<Step>, x: Call)
    requires Initial(start) && x.task.kind == CLOSE_ROUTE && x.task.session.bondReference.Some?
    requires Callable(Run(start, before), x) && Closable(Run(start, before), x.task.session.bondReference.value)
    ensures var w := Run(start, before);
      var w' := Run(w, CallSteps(w, x));
      Completes(w', x.task) && AgreesWithChain(w', w'.sessions[x.task.sessionId]) && Refunded(w, w', x.task.session.bondReference.value)
  {
    hide Initial, Inv, Run, TaskPenalty, AgreesWithChain, CallSteps, Completes, Refunded, JournalTrue, HashFor, Reported, CallInstruction;
    var k := CallCompletesIff(start, before, x);
    ReachableIsTrue(start, before);
    var w := Run(start, before);
    assert Bonded(x.task.session.terms) by { CallableFacts(w, x); }
    hide Callable;
    CloseAsksJournalled(w, x.task);
    ChainIsGood(w);
    assert Executable(w, x.task, k) && w.chain.bonds[k].status == P.OPEN;
    hide P.Good, Executable, Journalled, EndedFor, P.Execute, Closable;
    ClosesRefund(w, Run(w, CallSteps(w, x)), x, k);
  }

  /** While its bond is open and can be settled, an undisturbed expiry of either path completes
      exactly if it asks for the journalled penalty: always on a first try. */
  lemma UndisturbedExpiryCompletesIff(start: World, before: seq<Step>, x: Call)
    requires Initial(start) && x.task.kind != CLOSE_ROUTE && x.task.session.bondReference.Some?
    requires Callable(Run(start, before), x) && Settleable(Run(start, before), x.task.session.bondReference.value)
    ensures var w := Run(start, before);
      var w' := Run(w, CallSteps(w, x));
      && Bonded(x.task.session.terms)
      && (Completes(w', x.task) <==> Journalled(w, x.task) == TaskPenalty(x.task))
      && (Completes(w', x.task) ==> AgreesWithChain(w', w'.sessions[x.task.sessionId]))
      && (TaskKey(x.task) !in w.attempts ==> Completes(w', x.task))
  {
    hide Initial, Run, TaskPenalty, AgreesWithChain, CallSteps, HashFor, Reported, CallInstruction, P.Execute, EndedFor;
    var k := CallCompletesIff(start, before, x);
    CallableFacts(Run(start, before), x);
    hide Callable;
    assert Executable(Run(start, before), x.task, k);
    hide Executable, Settleable;
  }

  /** From every reachable state: a new session whose bond is on chain, open and on its terms can
      be taken through payment, bond verification, activation and close, to a receipt that
      agrees with the chain and a refund of the bond. */
  lemma SessionLifeCompletes(start: World, before: seq<Step>, p: nat, adapter: nat, id: string, terms: S.Terms, limit: nat, k: Key, tokenHash: Hash,
                             usage: nat, issuedAt: string, authority: string, now: int, signature: string) returns (steps: seq<Step>)
    requires Initial(start)
    requires var w := Run(start, before);
      && p !in w.processes && id !in w.sessions && ':' !in id && ValidTerms(terms) && Bonded(terms) && usage <= terms.usageCap <= limit
      && BondMatches(w, k, terms) && Closable(w, k)
    ensures var w, w' := Run(start, before), Run(Run(start, before), steps);
      && HasBondReceipt(w', id) && w'.sessions[id].receipt.value.outcome == S.CLOSED && AgreesWithChain(w', w'.sessions[id])
      && w'.sessions[id].terms == terms && Refunded(w, w', k)
  {
    hide Initial, Inv, Next, Run, AgreesWithChain, BondMatches, ValidTerms, CallSteps;
    var w := Run(start, before);
    var a := UndisturbedCreationCompletes(w, p, adapter, id, terms, limit, None, k, tokenHash);
    InitialIsGood(start);
    RunKeepsInvariant(start, before);
    NothingWithoutSession(w, id);
    var w1 := Run(w, a);
    RunAppend(start, before, a);
    var x := Call(p, Task(CLOSE_ROUTE, adapter, id, "", w1.sessions[id]), usage, issuedAt, authority, now, None, signature);
    UndisturbedCloseCompletes(start, before + a, x);
    RunAppend(w, a, CallSteps(w1, x));
    steps := a + CallSteps(w1, x);
  }

  // ---------------------------------------------------------------------------------
  // Sessions without a bond
  // ---------------------------------------------------------------------------------

  ghost predicate UnbondedClosable(w: World, t: Task, p: nat, usage: nat, now: int) {
    && p !in w.processes && t.kind == CLOSE_ROUTE && t.sessionId in w.sessions && t.session == w.sessions[t.sessionId]
    && t.session.tokenHash.Some? && !Bonded(t.session.terms) && usage <= t.session.terms.usageCap && NothingReserved(w, t.sessionId)
    && (t.session.state == S.ACTIVE
        || (t.session.state == S.SETTLING && (t.session.leaseExpiresAt == None || t.session.leaseExpiresAt.value <= now)))
  }

  lemma UnbondedLocks(w: World, t: Task, p: nat, usage: nat, now: int)
    requires UnbondedClosable(w, t, p, usage, now)
    ensures var record := LockedRecord(t.session, CLOSE_ROUTE, now);
      Do(Do(Do(w, Enter(p, CLOSE_ROUTE, t.adapter, t.sessionId, t.reservationId)), Examine(p, now)), Lock(p, now)) ==
        With(w.(sessions := w.sessions[t.sessionId := record]), p, Locked(t.(session := record)))
  {
    NothingIsActive(w, t.sessionId);
    hide V.HasActive, NothingReserved;
    var record := LockedRecord(t.session, CLOSE_ROUTE, now);
    assert Do(w, Enter(p, CLOSE_ROUTE, t.adapter, t.sessionId, t.reservationId)) == With(w, p, Entered(t));
    Replaced(w, p, Entered(t), Examined(t));
    assert Do(With(w, p, Entered(t)), Examine(p, now)) == With(w, p, Examined(t));
    assert S.Claim(w.sessions, t.sessionId, now, LEASE_MS) == Ok(Some(record));
    hide Do;
    LocksExamined(With(w, p, Examined(t)), p, t, now, record);
    LockedAfterExamined(w, p, t, t.(session := record), record);
  }

  lemma UnbondedSkips(w: World, p: nat, t: Task, usage: nat)
    requires p in w.processes && w.processes[p] == Locked(t) && t.kind == CLOSE_ROUTE && !Bonded(t.session.terms) && usage <= t.session.terms.usageCap
    ensures Do(w, SkipBond(p, usage)) == With(w, p, Settled(t, usage, Amounts(0, 0)))
  {}

  lemma CloseReports(w: World, p: nat, t: Task, usage: nat)
    requires p in w.processes && w.processes[p] == Finishing(t, usage, Amounts(0, 0)) && t.kind == CLOSE_ROUTE
    requires t.sessionId in w.sessions && w.sessions[t.sessionId].state == S.SETTLING && w.sessions[t.sessionId].sessionId == t.sessionId
    ensures var r := w.sessions[t.sessionId];
      Do(Do(w, Finish(p)), StoreReceipt(p)) ==
        w.(sessions := w.sessions[t.sessionId := r.(state := S.CLOSED, leaseExpiresAt := None, receipt := Some(S.Receipt(S.CLOSED, r.calls, usage, 0, 0)))],
           processes := w.processes - {p})
  {
    CanFinish(w, p);
    DoIsNext(w, Finish(p));
    hide Next, Do;
    var w1 := Do(w, Finish(p));
    CanStore(w1, p);
    DoIsNext(w1, StoreReceipt(p));
  }

  /** From every reachable state: a session without bonded actions that nobody is settling can be
      closed undisturbed, whatever its bond-less terms are, to a receipt of its calls and usage;
      nothing but its record changes. */
  lemma UnbondedCloseCompletes(start: World, before: seq<Step>, t: Task, p: nat, usage: nat, now: int)
    requires Initial(start) && UnbondedClosable(Run(start, before), t, p, usage, now)
    ensures var w, r := Run(start, before), t.session;
      Run(w, [Enter(p, CLOSE_ROUTE, t.adapter, t.sessionId, t.reservationId), Examine(p, now), Lock(p, now), SkipBond(p, usage),
              FinalizeReservation(p, now), Finish(p), StoreReceipt(p)]) ==
        w.(sessions := w.sessions[t.sessionId :=
          r.(state := S.CLOSED, leaseExpiresAt := None, receipt := Some(S.Receipt(S.CLOSED, r.calls, usage, 0, 0)))])
  {
    hide Initial, Inv, Run, Do, Next, NothingReserved;
    InitialIsGood(start);
    RunKeepsInvariant(start, before);
    var w := Run(start, before);
    SessionFact(w, t.sessionId);
    hide SessionGood;
    RunSeven(w, Enter(p, CLOSE_ROUTE, t.adapter, t.sessionId, t.reservationId), Examine(p, now), Lock(p, now), SkipBond(p, usage),
             FinalizeReservation(p, now), Finish(p), StoreReceipt(p));
    UnbondedLocks(w, t, p, usage, now);
    var u := t.(session := LockedRecord(t.session, CLOSE_ROUTE, now));
    var w1 := With(w.(sessions := w.sessions[t.sessionId := u.session]), p, Locked(u));
    UnbondedSkips(w1, p, u, usage);
    var w2 := With(w1, p, Settled(u, usage, Amounts(0, 0)));
    FinalizesClose(w2, p, now);
    CloseReports(With(w2, p, Finishing(u, usage, Amounts(0, 0))), p, u, usage);
    Twice(w, t.sessionId, p, u.session, t.session.(state := S.CLOSED, leaseExpiresAt := None, receipt := Some(S.Receipt(S.CLOSED, t.session.calls, usage, 0, 0))),
          Locked(u), Settled(u, usage, Amounts(0, 0)), Finishing(u, usage, Amounts(0, 0)));
  }

  lemma Twice(w: World, id: string, p: nat, x: S.SessionRecord, y: S.SessionRecord, a: Process, b: Process, c: Process)
    requires p !in w.processes
    ensures w.sessions[id := x][id := y] == w.sessions[id := y] && w.processes[p := a][p := b][p := c] - {p} == w.processes
  {}
}
