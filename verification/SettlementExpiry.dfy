/** Expiring a reservation: what an undisturbed expiry leaves for the other path, for a repeated
    call, and for the inventory. */
module SettlementExpiry {
  import opened Wrappers
  import opened Primitives
  import opened AdapterContract
  import opened SettlementJournal
  import opened Settlement
  import opened SettlementInvariant
  import opened SettlementSteps
  import opened SettlementSafety
  import opened SettlementTruth
  import opened SettlementProgress
  import opened SettlementCalls
  import S = Sessions
  import V = Inventory
  import P = BondProgram
  import B = BondAdapter

  /** A first expiry whose bond is open and can be settled. */
  ghost predicate Expirable(w: World, x: Call) {
    && Callable(w, x) && x.task.kind != CLOSE_ROUTE && TaskKey(x.task) !in w.attempts
    && x.task.session.bondReference.Some? && Settleable(w, x.task.session.bondReference.value)
  }

  // ---------------------------------------------------------------------------------
  // Landed, and nobody has heard of it
  // ---------------------------------------------------------------------------------

  /** The session is settling, the attempt is in the journal, the transaction has landed, and no
      adapter remembers anything. */
  ghost predicate LandedUnheard(w: World, w': World, x: Call, c: Case, k: Key) {
    var id := x.task.sessionId;
    && w'.gateway == w.gateway && w'.goods == w.goods && c.task == x.task && c.usage == x.usage
    && w'.sessions == w.sessions[id := LockedRecord(x.task.session, x.task.kind, x.now)]
    && c.attempt.key == TaskKey(x.task) && TaskKey(x.task) in w'.attempts && w'.attempts[TaskKey(x.task)] == c.attempt
    && c.attempt.status == PENDING && c.attempt.providerReference == None
    && Bonded(x.task.session.terms) && c.attempt.evidence.payload.penalty == TaskPenalty(x.task)
    && x.p in w'.processes && w'.processes[x.p].Submitted? && w'.processes[x.p].c == c
    && w'.processes[x.p].tx < |w'.submissions| && w'.submissions[w'.processes[x.p].tx].landed
    && k in w'.chain.bonds && w'.chain.bonds[k].authority == w.gateway && w'.chain.bonds[k].status == P.VIOLATED
    && w'.chain.bonds[k].receiptHash == c.attempt.evidence.evidenceHash
    && forall a :: TaskKey(x.task) !in CacheOf(w', a).settledResults
  }

  lemma FirstAttempt(w: World, x: Call) returns (c: Case, k: Key)
    requires Inv(w) && JournalTrue(w) && Expirable(w, x)
    ensures var w1 := Run(w, OpeningSteps(x));
      && Opened(w, w1, x, c) && ReadyToAsk(w1, x.p, c, k) && x.task.session.bondReference == Some(k)
      && c.task == x.task && Bonded(x.task.session.terms) && c.attempt.evidence.payload.penalty == TaskPenalty(x.task)
      && c.attempt.status == PENDING && c.attempt.providerReference == None
      && forall a :: TaskKey(x.task) !in CacheOf(w1, a).settledResults
  {
    hide Inv, JournalTrue, Run, TaskPenalty, CacheOf, LockedRecord, Settleable, Opened, Callable;
    c := CallOpens(w, x);
    var w1 := Run(w, OpeningSteps(x));
    RunKeepsJournalTrue(w, OpeningSteps(x));
    k := OpenedIsReady(w, w1, x, c);
    hide ReadyToAsk;
    FirstEntry(w, w1, x, c);
    forall a ensures TaskKey(x.task) !in CacheOf(w1, a).settledResults {
      NothingCached(w, a, TaskKey(x.task));
    }
  }

  lemma FirstEntry(w: World, w1: World, x: Call, c: Case)
    requires Opened(w, w1, x, c) && TaskKey(x.task) !in w.attempts && x.task.kind != CLOSE_ROUTE
    ensures c.task == x.task && Bonded(x.task.session.terms) && c.attempt.evidence.payload.penalty == TaskPenalty(x.task)
    ensures c.attempt.status == PENDING && c.attempt.providerReference == None
    ensures forall a :: CacheOf(w1, a) == CacheOf(w, a)
  {
    SameCaches(w, w1);
    hide TaskPenalty, CacheOf, LockedRecord, HashFor;
  }

  /** The adapter asks, sends, and the transaction lands. */
  function SendingSteps(w: World, x: Call): seq<Step> {
    [BeginCall(x.p, w.secret), FetchBond(x.p, true), Land(|w.submissions|)]
  }

  lemma RunThree(w: World, a: Step, b: Step, c: Step)
    ensures Run(w, [a, b, c]) == Do(Do(Do(w, a), b), c)
  {
    hide Run, Do;
    RunSingle(w, a);
    RunSnoc(w, [a], b);
    assert [a] + [b] == [a, b];
    RunSnoc(w, [a, b], c);
    assert [a, b] + [c] == [a, b, c];
  }

  /** Only caches, chain and submissions have changed, and no cache has learnt a result. */
  ghost predicate Sent(w: World, w': World, x: Call, c: Case, k: Key) {
    && w' == With(w.(chain := w'.chain, caches := w'.caches, submissions := w'.submissions, settledBy := w'.settledBy), x.p, Submitted(c, |w.submissions|))
    && |w.submissions| < |w'.submissions| && w'.submissions[|w.submissions|].landed
    && k in w'.chain.bonds && w'.chain.bonds[k].authority == w.gateway && w'.chain.bonds[k].status == P.VIOLATED
    && w'.chain.bonds[k].receiptHash == c.attempt.evidence.evidenceHash
    && forall a :: CacheOf(w', a).settledResults == CacheOf(w, a).settledResults
  }

  lemma SettledChain(w: World, w': World, c: Case, k: Key)
    requires CaseGood(w, c) && P.Good(w.chain) && c.task.kind != CLOSE_ROUTE && Settleable(w, k) && B.PenaltyOf(c.request) <= U64_MAX
    requires P.Execute(w.chain, InstructionFor(w, c, k)) == Ok(w'.chain)
    ensures k in w'.chain.bonds && w'.chain.bonds[k].authority == w.gateway && w'.chain.bonds[k].status == P.VIOLATED
    ensures w'.chain.bonds[k].receiptHash == c.attempt.evidence.evidenceHash
  {
    RequestSays(w, c);
    P.SettleViolationPays(w.chain, InstructionFor(w, c, k));
    hide P.Execute, P.Good, CaseGood, TaskPenalty;
  }

  lemma BeginKeepsCaches(w: World, x: Call, c: Case)
    requires c.task.session.bondReference.Some? && ReadyToAsk(w, x.p, c, c.task.session.bondReference.value)
    requires TaskKey(c.task) !in CacheOf(w, c.task.adapter).settledResults
    requires Bonded(c.task.session.terms) && c.attempt.evidence.payload.penalty == TaskPenalty(c.task)
    ensures forall a :: CacheOf(Do(w, BeginCall(x.p, w.secret)), a).settledResults == CacheOf(w, a).settledResults
  {
    hide Inv, CacheOf, TaskPenalty, EntryTrue, Do;
    CanBegin(w, x.p);
    DoIsNext(w, BeginCall(x.p, w.secret));
    hide Next;
  }

  lemma Sends(w: World, x: Call, c: Case, k: Key)
    requires ReadyToAsk(w, x.p, c, k) && TaskKey(c.task) !in CacheOf(w, c.task.adapter).settledResults && c.task.kind != CLOSE_ROUTE
    requires Bonded(c.task.session.terms) && c.attempt.evidence.payload.penalty == TaskPenalty(c.task) && Settleable(w, k)
    ensures Sent(w, Run(w, SendingSteps(w, x)), x, c, k)
  {
    hide Inv, CaseGood, P.Good, P.Execute, TaskPenalty, Do, InstructionFor, CacheOf, Settleable, EntryTrue, Run;
    BeginKeepsCaches(w, x, c);
    Asks(w, x, c, k);
    var w1, tx := Do(w, BeginCall(x.p, w.secret)), |w.submissions|;
    SettleableStill(w, w1, k);
    hide ReadyToAsk;
    assert Executable(w1, c.task, k) && w1.chain.bonds[k].status == P.OPEN by { SettleableOpen(w1, c.task, k); }
    Submits(w, w1, x.p, c, k);
    InstructionEnabled(w, w1, x.p, c, k);
    var w2 := Do(w1, FetchBond(x.p, true));
    Lands(w2, tx);
    var w3 := Do(w2, Land(tx));
    SettledChain(w1, w3, c, k);
    SameCaches(w1, w3);
    RunThree(w, BeginCall(x.p, w.secret), FetchBond(x.p, true), Land(tx));
    hide BondMatches, Executable;
  }

  lemma SettleableOpen(w: World, t: Task, k: Key)
    requires Settleable(w, k) && t.kind != CLOSE_ROUTE
    ensures Executable(w, t, k) && w.chain.bonds[k].status == P.OPEN
  {}

  lemma CanLandUnheard(w: World, x: Call) returns (steps: seq<Step>, c: Case)
    requires Inv(w) && JournalTrue(w) && Expirable(w, x)
    ensures LandedUnheard(w, Run(w, steps), x, c, x.task.session.bondReference.value)
  {
    hide Inv, JournalTrue, Run, TaskPenalty, CacheOf, Opened, ReadyToAsk, Callable, LandedUnheard, Sent, Settleable;
    var k;
    c, k := FirstAttempt(w, x);
    var w1 := Run(w, OpeningSteps(x));
    OpenedSettleable(w, w1, x, c, k);
    Sends(w1, x, c, k);
    RunAppend(w, OpeningSteps(x), SendingSteps(w1, x));
    steps := OpeningSteps(x) + SendingSteps(w1, x);
    SentIsUnheard(w, w1, Run(w, steps), x, c, k);
  }

  lemma OpenedSettleable(w: World, w1: World, x: Call, c: Case, k: Key)
    requires Opened(w, w1, x, c) && Settleable(w, k)
    ensures Settleable(w1, k)
  {
    hide EntryFor, LockedRecord, LockedTask, Settleable;
    SettleableStill(w, w1, k);
  }

  lemma SentIsUnheard(w: World, w1: World, w': World, x: Call, c: Case, k: Key)
    requires Opened(w, w1, x, c) && Sent(w1, w', x, c, k) && c.task == x.task
    requires Bonded(x.task.session.terms) && c.attempt.evidence.payload.penalty == TaskPenalty(x.task)
    requires c.attempt.status == PENDING && c.attempt.providerReference == None
    requires forall a :: TaskKey(x.task) !in CacheOf(w1, a).settledResults
    ensures LandedUnheard(w, w', x, c, k)
  {
    hide CacheOf, TaskPenalty, LockedRecord, LockedTask, Journalled, HashFor, StoredReference;
  }

  // ---------------------------------------------------------------------------------
  // The other path asks for another penalty
  // ---------------------------------------------------------------------------------

  lemma UnheardIsLanded(w: World, w': World, x: Call, c: Case, k: Key, t: Task)
    requires LandedUnheard(w, w', x, c, k) && x.task.kind != CLOSE_ROUTE && x.task.session.bondReference == Some(k)
    requires x.task.session.tokenHash.Some? && Owned(w, x.task.sessionId, x.task.reservationId)
    requires t.kind != CLOSE_ROUTE && t == x.task.(kind := t.kind, adapter := t.adapter)
    ensures Retry(w', t) && Landed(w', k, TaskKey(t)) && w'.attempts[TaskKey(t)] == c.attempt
    ensures forall a :: TaskKey(t) !in CacheOf(w', a).settledResults
  {
    hide CacheOf, ExpiryPenalty;
  }

  lemma CallableExpiry(w: World, x: Call)
    requires Callable(w, x) && x.task.kind != CLOSE_ROUTE
    ensures x.task.session.tokenHash.Some? && Owned(w, x.task.sessionId, x.task.reservationId) && Bonded(x.task.session.terms)
    ensures Expired(w, x.task.sessionId, x.task.reservationId, x.now)
  {}

  /** From every reachable state: if the expire route and the worker ask for different penalties
      for an expired reservation, then after the worker's transaction has landed and its
      response is lost, no adapter ever confirms the expire route's retry, though the bond is
      settled and nothing is sent again. */
  lemma OtherPathIsRefused(start: World, before: seq<Step>, x: Call) returns (steps: seq<Step>, t: Task)
    requires Initial(start) && x.task.kind == EXPIRY_WORKER && Expirable(Run(start, before), x)
    requires ExpiryPenalty(EXPIRE_ROUTE, x.task.session.terms) != ExpiryPenalty(EXPIRY_WORKER, x.task.session.terms)
    ensures var w' := Run(Run(start, before), steps);
      && t == x.task.(kind := EXPIRE_ROUTE)
      && Retry(w', t) && t.session.bondReference.Some? && Landed(w', t.session.bondReference.value, TaskKey(t))
      && forall a, latest, delivery ::
           Again(w', t, CacheOf(w', a), latest, delivery).0.status != CONFIRMED && !Again(w', t, CacheOf(w', a), latest, delivery).2
  {
    hide Initial, Inv, JournalTrue, Next, Run, CacheOf, Again, ExpiryPenalty, Callable, Settleable, LandedUnheard;
    ReachableIsTrue(start, before);
    var w := Run(start, before);
    var c;
    steps, c := CanLandUnheard(w, x);
    RunKeepsInvariant(w, steps);
    var w' := Run(w, steps);
    CallableExpiry(w, x);
    t := x.task.(kind := EXPIRE_ROUTE);
    var k := t.session.bondReference.value;
    UnheardIsLanded(w, w', x, c, k, t);
    assert c.attempt.evidence.payload.penalty == TaskPenalty(x.task) by { UnheardPenalty(w, w', x, c, k); }
    hide Expirable, Retry, Landed;
    forall a, latest, delivery
      ensures Again(w', t, CacheOf(w', a), latest, delivery).0.status != CONFIRMED && !Again(w', t, CacheOf(w', a), latest, delivery).2
    {
      RetryIsAnswered(w', t, a, latest, delivery);
    }
  }

  lemma UnheardPenalty(w: World, w': World, x: Call, c: Case, k: Key)
    requires LandedUnheard(w, w', x, c, k)
    ensures Bonded(x.task.session.terms) && c.attempt.evidence.payload.penalty == TaskPenalty(x.task)
  {
    hide CacheOf;
  }

  // ---------------------------------------------------------------------------------
  // Back from the chain
  // ---------------------------------------------------------------------------------

  /** The response arrives, is saved twice and validated. */
  function HearingSteps(x: Call): seq<Step> {
    [Confirm(x.p, x.signature), SaveResult(x.p, x.now), SaveResult(x.p, x.now), Validate(x.p)]
  }

  lemma RunFour(w: World, a: Step, b: Step, c: Step, d: Step)
    ensures Run(w, [a, b, c, d]) == Do(Do(Do(Do(w, a), b), c), d)
  {
    hide Run, Do;
    RunThree(w, a, b, c);
    RunSnoc(w, [a, b, c], d);
    assert [a, b, c] + [d] == [a, b, c, d];
  }

  /** The process has heard of its settlement; the journal has its reference. */
  ghost predicate Heard(w: World, w': World, x: Call, c: Case) {
    var t := x.task;
    && w'.goods == w.goods && w'.gateway == w.gateway && w'.chain == w.chain && w'.sessions == w.sessions
    && x.p in w'.processes && w'.processes[x.p].Settled? && w'.processes[x.p].task == t
    && (forall a | a != t.adapter :: CacheOf(w', a) == CacheOf(w, a))
    && TaskKey(t) in w'.attempts && w'.attempts[TaskKey(t)].providerReference == Some(x.signature)
    && w'.attempts[TaskKey(t)].evidence == c.attempt.evidence
  }

  lemma ConfirmWrites(w: World, p: nat, signature: string)
    requires p in w.processes && w.processes[p].Submitted? && w.processes[p].tx < |w.submissions| && w.submissions[w.processes[p].tx].landed
    ensures var c, w' := w.processes[p].c, Do(w, Confirm(p, signature));
      && w' == With(w.(caches := w'.caches), p, Answered(c, Confirmation(Some(signature), B.PenaltyOf(c.request), B.RefundOf(c.request)), 2))
      && forall a | a != c.task.adapter :: CacheOf(w', a) == CacheOf(w, a)
  {
    hide B.RememberSubmitted;
  }

  lemma CanHear(w: World, x: Call, c: Case)
    requires Inv(w) && x.p in w.processes && w.processes[x.p].Submitted? && w.processes[x.p].c == c && c.task == x.task && x.task.kind != CLOSE_ROUTE
    requires w.processes[x.p].tx < |w.submissions| && w.submissions[w.processes[x.p].tx].landed
    requires c.attempt.key == TaskKey(x.task) && TaskKey(x.task) in w.attempts && w.attempts[TaskKey(x.task)] == c.attempt
    requires c.attempt.status == PENDING && c.attempt.providerReference == None
    ensures Heard(w, Run(w, HearingSteps(x)), x, c)
  {
    hide Inv, Do, Run, TaskPenalty, CacheOf, AmountsPass;
    SubmittedAmounts(w, x.p, c);
    ConfirmWrites(w, x.p, x.signature);
    var w1 := Do(w, Confirm(x.p, x.signature));
    var result := w1.processes[x.p].result;
    ReportsAmounts(w1, x, c, result);
    RunFour(w, HearingSteps(x)[0], HearingSteps(x)[1], HearingSteps(x)[2], HearingSteps(x)[3]);
    SameCaches(w1, Run(w, HearingSteps(x)));
  }

  lemma SubmittedAmounts(w: World, p: nat, c: Case)
    requires Inv(w) && p in w.processes && w.processes[p].Submitted? && w.processes[p].c == c && c.task.kind != CLOSE_ROUTE
    ensures forall signature :: AmountsPass(c.task, Confirmation(Some(signature), B.PenaltyOf(c.request), B.RefundOf(c.request)))
  {
    hide Inv, CaseGood, TaskPenalty;
    ProcessFact(w, p);
    CaseOfSubmitted(w, w.processes[p]);
    hide ProcessGood;
    CaseIsReady(w, c);
    CaseTerms(w, c);
    RequestSays(w, c);
    PenaltyWithinBond(c.task);
    hide CaseReady;
  }

  lemma CaseOfSubmitted(w: World, pr: Process)
    requires pr.Submitted? && ProcessGood(w, pr)
    ensures CaseGood(w, pr.c)
  {}

  /** An expiry that is heard of. */
  lemma CanHearUndisturbed(w: World, x: Call) returns (steps: seq<Step>, w1: World, c: Case)
    requires Inv(w) && JournalTrue(w) && Expirable(w, x)
    ensures LandedUnheard(w, w1, x, c, x.task.session.bondReference.value) && Heard(w1, Run(w, steps), x, c)
  {
    hide Inv, JournalTrue, Run, Expirable, Heard;
    var a;
    a, c := CanLandUnheard(w, x);
    w1 := Run(w, a);
    RunKeepsInvariant(w, a);
    assert x.task.kind != CLOSE_ROUTE by { ExpirableKind(w, x); }
    CanHear(w1, x, c);
    hide LandedUnheard;
    RunAppend(w, a, HearingSteps(x));
    steps := a + HearingSteps(x);
  }

  lemma ExpirableKind(w: World, x: Call)
    requires Expirable(w, x)
    ensures x.task.kind != CLOSE_ROUTE && x.task.session.bondReference.Some? && Callable(w, x)
  {}

  // ---------------------------------------------------------------------------------
  // A third transaction on the bond account
  // ---------------------------------------------------------------------------------

  lemma RestartForgets(w: World, adapter: nat)
    ensures Do(w, Restart(adapter)) == DoRestart(w, adapter) && CacheOf(DoRestart(w, adapter), adapter) == B.EMPTY
    ensures forall a | a != adapter :: CacheOf(DoRestart(w, adapter), a) == CacheOf(w, a)
  {}

  /** What a process that dies after its settlement was journalled leaves behind. */
  ghost predicate DiedHeard(w: World, w': World, x: Call) {
    && w'.goods == w.goods && x.p !in w'.processes
    && x.task.sessionId in w'.sessions && w'.sessions[x.task.sessionId] == LockedRecord(x.task.session, x.task.kind, x.now)
    && TaskKey(x.task) in w'.attempts && w'.attempts[TaskKey(x.task)].providerReference == Some(x.signature)
    && Bonded(x.task.session.terms) && w'.attempts[TaskKey(x.task)].evidence.payload.penalty == TaskPenalty(x.task)
    && x.task.session.bondReference.Some? && Landed(w', x.task.session.bondReference.value, TaskKey(x.task))
    && forall a :: TaskKey(x.task) !in CacheOf(w', a).settledResults
  }

  lemma HeardThenDied(w: World, w1: World, w2: World, x: Call, c: Case)
    requires x.task.session.bondReference.Some? && LandedUnheard(w, w1, x, c, x.task.session.bondReference.value) && Heard(w1, w2, x, c)
    ensures DiedHeard(w, DoRestart(w2, x.task.adapter), x)
  {
    RestartForgets(w2, x.task.adapter);
    hide CacheOf, LockedRecord, TaskPenalty;
  }

  /** From every reachable state: an expiry is settled and journalled, its process dies and its
      adapter loses its memory. From then on, whoever sends another transaction that names the
      bond account decides: as long as that one is the newest, no undisturbed retry of the
      settlement, through any adapter, ends in a receipt. */
  lemma ThirdTransactionBlocks(start: World, before: seq<Step>, x: Call) returns (steps: seq<Step>)
    requires Initial(start) && Expirable(Run(start, before), x)
    ensures var w' := Run(Run(start, before), steps);
      && DiedHeard(Run(start, before), w', x)
      && forall y: Call | Callable(w', y) && TaskKey(y.task) == TaskKey(x.task) && y.latest.Some? && y.latest != Some(x.signature) ::
           !HasBondReceipt(Run(w', CallSteps(w', y)), y.task.sessionId)
  {
    hide Initial, Inv, JournalTrue, Run, Callable, CallSteps, LandedUnheard, Heard, DiedHeard;
    ReachableIsTrue(start, before);
    var w := Run(start, before);
    var a, w1, c := CanHearUndisturbed(w, x);
    ExpirableKind(w, x);
    hide Expirable;
    var w2 := Run(w, a);
    HeardThenDied(w, w1, w2, x, c);
    steps := a + [Restart(x.task.adapter)];
    RunSnoc(w, a, Restart(x.task.adapter));
    RestartForgets(w2, x.task.adapter);
    RunAppend(start, before, steps);
    var w' := Run(w, steps);
    forall y: Call | Callable(w', y) && TaskKey(y.task) == TaskKey(x.task) && y.latest.Some? && y.latest != Some(x.signature)
      ensures !HasBondReceipt(Run(w', CallSteps(w', y)), y.task.sessionId)
    {
      var k := CallCompletesIff(start, before + steps, y);
      Conflicts(w, w', x, y, k);
    }
  }

  lemma Conflicts(w: World, w': World, x: Call, y: Call, k: Key)
    requires DiedHeard(w, w', x) && Callable(w', y) && TaskKey(y.task) == TaskKey(x.task) && y.latest.Some? && y.latest != Some(x.signature)
    requires y.task.session.bondReference == Some(k)
    ensures !WillSettle(w', y)
  {
    assert y.task.sessionId == x.task.sessionId by { SameSession(x.task, y.task); }
    hide V.HasActive, Expired, Executable, TaskPenalty, EndedFor, HashFor, Journalled, CacheOf;
  }

  lemma SameSession(t: Task, u: Task)
    requires TaskKey(t) == TaskKey(u)
    ensures t.sessionId == u.sessionId
  {}

  // ---------------------------------------------------------------------------------
  // A reservation that is made anew before the save
  // ---------------------------------------------------------------------------------

  /** The one unit in stock is reserved again while the ended record is on its way back. */
  lemma CanReserveAgain(w: World, id: string, product: string, now: int, expiresAt: int)
    requires id in w.sessions && w.sessions[id].tokenHash.Some? && w.sessions[id].bondReference.Some? && Bonded(w.sessions[id].terms)
    requires '_' !in product && product in w.goods.inventory && w.goods.inventory[product].stock >= 1 && !V.HasActive(w.goods.reservations, id)
    ensures var r := V.Reservation(V.ReservationId(id, product), id, product, 1, now, expiresAt, V.ACTIVE, false);
      Next(w, MakeReservation(id, product, now, expiresAt)) ==
        Some(w.(goods := V.Memory(w.goods.inventory[product := V.Stock(w.goods.inventory[product].stock - 1, now)], w.goods.reservations[r.reservationId := r])))
  {
    hide V.HasActive, V.ReservationId;
  }

  lemma OnlyOneActive(m: V.Memory, id: string, reservation: string, ended: V.Reservation)
    requires forall q | q in m.reservations && q != reservation && m.reservations[q].state == V.ACTIVE :: m.reservations[q].sessionId != id
    requires ended.state != V.ACTIVE
    ensures !V.HasActive(m.reservations[reservation := ended], id)
  {}

  /** Between the finalisation and the save of a settled expiry the session makes the same
      reservation again: afterwards no reservation of it is active and nothing was consumed,
      but one unit is neither in stock nor reserved. */
  lemma LateSaveInRun(w: World, p: nat, t: Task, product: string, now: int, expiresAt: int)
    requires Inv(w) && p in w.processes && w.processes[p].Settled? && w.processes[p].task == t && t.kind != CLOSE_ROUTE
    requires Finalizable(w, t.sessionId, t.reservationId, now) && w.goods.reservations[t.reservationId].productId == product
    requires w.goods.inventory[product].stock >= 0
    requires forall q | q in w.goods.reservations && q != t.reservationId && w.goods.reservations[q].state == V.ACTIVE :: w.goods.reservations[q].sessionId != t.sessionId
    requires t.sessionId in w.sessions && w.sessions[t.sessionId].bondReference.Some? && Bonded(w.sessions[t.sessionId].terms)
    ensures var w' := Run(w, [FinalizeReservation(p, now), MakeReservation(t.sessionId, product, now, expiresAt), MarkSettled(p)]);
      && !V.HasActive(w'.goods.reservations, t.sessionId) && product in w'.goods.inventory
      && w'.goods.inventory[product].stock == w.goods.inventory[product].stock + w.goods.reservations[t.reservationId].quantity - 1
      && w'.goods.inventory[product].stock + V.Reserved(w'.goods, product) == w.goods.inventory[product].stock + V.Reserved(w.goods, product) - 1
  {
    hide Inv, Next, Run, V.HasActive, V.Reserved, V.ReservationId;
    var id, rid, m := t.sessionId, t.reservationId, w.goods;
    ReservationFact(w, rid);
    var q := m.reservations[rid].quantity;
    CanFinalizeExpiry(w, p, t, now);
    var w1 := Next(w, FinalizeReservation(p, now)).value;
    RunOne(w, FinalizeReservation(p, now));
    var ended := m.reservations[rid].(state := V.EXPIRED);
    OnlyOneActive(m, id, rid, ended);
    CanReserveAgain(w1, id, product, now, expiresAt);
    var w2 := Next(w1, MakeReservation(id, product, now, expiresAt)).value;
    Then(w, [FinalizeReservation(p, now)], MakeReservation(id, product, now, expiresAt));
    assert [FinalizeReservation(p, now)] + [MakeReservation(id, product, now, expiresAt)] == [FinalizeReservation(p, now), MakeReservation(id, product, now, expiresAt)];
    CanMarkReservation(w2, p);
    var w3 := Next(w2, MarkSettled(p)).value;
    Then(w, [FinalizeReservation(p, now), MakeReservation(id, product, now, expiresAt)], MarkSettled(p));
    assert [FinalizeReservation(p, now), MakeReservation(id, product, now, expiresAt)] + [MarkSettled(p)]
        == [FinalizeReservation(p, now), MakeReservation(id, product, now, expiresAt), MarkSettled(p)];
    var saved := ended.(settlementRequested := true);
    assert w3.goods.reservations == m.reservations[rid := saved];
    OnlyOneActive(m, id, rid, saved);
    V.ReservedUpdate(m, rid, saved, product);
    SameReserved(w3.goods, m.(reservations := w3.goods.reservations), product);
  }

  lemma SameReserved(m: V.Memory, n: V.Memory, product: string)
    requires m.reservations == n.reservations
    ensures V.Reserved(m, product) == V.Reserved(n, product)
  {}

  // ---------------------------------------------------------------------------------
  // Both do occur: a run from the very beginning
  // ---------------------------------------------------------------------------------

  const AGENT := Wallet(1)
  const MERCHANT := Wallet(2)
  const GATEWAY := Wallet(3)
  const MINT := Wallet(4)
  const TERMS := S.Terms("policy", 10, 100, 10, [S.BondedAction("express-shipping", 5), S.BondedAction("reserve-inventory", 7)])
  const BOND := BondPda(AGENT, "policy", 0)
  const OPENING := P.OpenBond(AGENT, MERCHANT, GATEWAY, MINT, Ata(AGENT, MINT), "policy", 0, 100, 10, 1000, 0)
  const LEDGER := P.Chain(map[], map[Ata(AGENT, MINT) := P.Account(AGENT, MINT, 100), Ata(MERCHANT, MINT) := P.Account(MERCHANT, MINT, 0)])
  const GOODS := V.Memory(map["lamp" := V.Stock(1, 0)], map[])
  const START := World(GATEWAY, "secret", LEDGER, map[], GOODS, map[], map[], map[], [], map[], map[], map[], map[])

  lemma LedgerIsGood()
    ensures P.Good(LEDGER)
  {
    forall mint ensures P.Total(LEDGER.accounts, mint) <= U64_MAX {
      var agent, merchant := P.Account(AGENT, MINT, 100), P.Account(MERCHANT, MINT, 0);
      var none: map<Key, P.Account> := map[];
      P.TotalUpdate(none, mint, Ata(AGENT, MINT), agent);
      P.TotalUpdate(none[Ata(AGENT, MINT) := agent], mint, Ata(MERCHANT, MINT), merchant);
      assert LEDGER.accounts == none[Ata(AGENT, MINT) := agent][Ata(MERCHANT, MINT) := merchant];
      assert P.Shares(none, mint) == map[];
    }
  }

  lemma StartIsInitial()
    ensures Initial(START)
  {
    LedgerIsGood();
    hide P.Good;
  }

  lemma BondOpens()
    ensures var c := P.Apply(LEDGER, OPENING);
      && BOND in c.bonds && c.bonds[BOND] == P.Bond(AGENT, MERCHANT, GATEWAY, MINT, "policy", ZERO_HASH, 100, 10, 0, 1000, 0, P.OPEN)
      && P.Holds(c, Ata(AGENT, MINT), AGENT, MINT) && P.Holds(c, Ata(MERCHANT, MINT), MERCHANT, MINT)
  {
    LedgerIsGood();
    P.OpenBondExact(LEDGER, OPENING);
    hide P.Execute, P.Good;
    assert Ata(MERCHANT, MINT) in LEDGER.accounts && Ata(MERCHANT, MINT) != Ata(AGENT, MINT);
  }

  lemma BondCanOpen() returns (w: World)
    ensures Next(START, Onchain(OPENING)) == Some(w) && w == START.(chain := w.chain)
    ensures Settleable(w, BOND) && BondMatches(w, BOND, TERMS)
  {
    BondOpens();
    hide P.Execute, P.Good, P.Apply;
    w := START.(chain := P.Apply(LEDGER, OPENING));
    assert Next(START, Onchain(OPENING)) == Some(w);
    hide Next;
  }

  lemma UnitIsReserved(w: World)
    requires w.goods == GOODS && "s" in w.sessions && w.sessions["s"].tokenHash.Some? && w.sessions["s"].bondReference.Some? && Bonded(w.sessions["s"].terms)
    ensures var r := V.Reservation(V.ReservationId("s", "lamp"), "s", "lamp", 1, 0, 5, V.ACTIVE, false);
      Next(w, MakeReservation("s", "lamp", 0, 5)) == Some(w.(goods := V.Memory(map["lamp" := V.Stock(0, 0)], map[r.reservationId := r])))
  {
    hide V.ReservationId;
    assert !V.HasActive(GOODS.reservations, "s");
    CanReserveAgain(w, "s", "lamp", 0, 5);
    var one := V.Stock(1, 0);
    assert map["lamp" := one]["lamp" := V.Stock(0, 0)] == map["lamp" := V.Stock(0, 0)];
    var none: map<string, V.Reservation> := map[];
    assert forall id, r :: none[id := r] == map[id := r];
  }

  /** The worker's first call, with the signature its transaction is given. */
  function WorkerCall(w: World): Call
    requires "s" in w.sessions
  {
    Call(0, Task(EXPIRY_WORKER, 0, "s", V.ReservationId("s", "lamp"), w.sessions["s"]), 0, "", "", 5, None, "first")
  }

  /** The one lamp is reserved by an active session with an open bond, and the reservation has
      expired. */
  ghost predicate Setting(w: World) {
    var rid := V.ReservationId("s", "lamp");
    && "s" in w.sessions && Expirable(w, WorkerCall(w)) && w.sessions["s"].terms == TERMS && w.sessions["s"].bondReference == Some(BOND)
    && w.goods.reservations.Keys == {rid} && w.goods.reservations[rid].productId == "lamp" && w.goods.reservations[rid].quantity == 1
    && "lamp" in w.goods.inventory && w.goods.inventory["lamp"].stock == 0
  }

  lemma TermsAreValid()
    ensures ValidTerms(TERMS) && Bonded(TERMS) && TERMS.usageCap == 10
  {}

  lemma CanCreateSession() returns (steps: seq<Step>)
    ensures Initial(START)
    ensures var w, w1 := Run(START, steps), START.(chain := P.Apply(LEDGER, OPENING));
      && SameElsewhere(w1, w) && 0 !in w.processes && "s" in w.sessions
      && w.sessions["s"] == FreshRecord("s", TERMS).(state := S.ACTIVE, bondReference := Some(BOND), tokenHash := Some("token"))
      && Settleable(w1, BOND)
  {
    hide Initial, Next, Run, P.Apply;
    StartIsInitial();
    var w1 := BondCanOpen();
    steps := [Onchain(OPENING)];
    RunOne(START, steps[0]);
    OpeningApplies(w1);
    TermsAreValid();
    hide BondMatches, ValidTerms, SameElsewhere, P.RefundAccount, P.Holds;
    var a := UndisturbedCreationCompletes(w1, 0, 0, "s", TERMS, 10, None, BOND, "token");
    RunAppend(START, steps, a);
    steps := steps + a;
  }

  lemma OpeningApplies(w: World)
    requires Next(START, Onchain(OPENING)) == Some(w)
    ensures w == START.(chain := P.Apply(LEDGER, OPENING)) && 0 !in w.processes && "s" !in w.sessions
  {}

  lemma SettingHolds(w: World, before: World)
    requires before.attempts == map[] && 0 !in before.processes && "s" in before.sessions && Settleable(before, BOND)
    requires before.sessions["s"] == FreshRecord("s", TERMS).(state := S.ACTIVE, bondReference := Some(BOND), tokenHash := Some("token"))
    requires var r := V.Reservation(V.ReservationId("s", "lamp"), "s", "lamp", 1, 0, 5, V.ACTIVE, false);
      w == before.(goods := V.Memory(map["lamp" := V.Stock(0, 0)], map[r.reservationId := r]))
    ensures Setting(w)
  {
    hide Settleable, V.ReservationId;
    SettleableStill(before, w, BOND);
  }

  lemma SettingIsReachable() returns (steps: seq<Step>)
    ensures Initial(START) && Setting(Run(START, steps))
  {
    hide Initial, Next, Run, Settleable, V.ReservationId, Setting, P.Apply;
    steps := CanCreateSession();
    var w := Run(START, steps);
    SettleableStill(START.(chain := P.Apply(LEDGER, OPENING)), w, BOND);
    UnitIsReserved(w);
    Then(START, steps, MakeReservation("s", "lamp", 0, 5));
    SettingHolds(Run(START, steps + [MakeReservation("s", "lamp", 0, 5)]), w);
    steps := steps + [MakeReservation("s", "lamp", 0, 5)];
  }

  /** A retry that is never confirmed does occur: a run from the very beginning reaches a state
      in which the worker's expiry has landed and the expire route's retry is refused. */
  lemma RefusalIsReachable() returns (steps: seq<Step>, t: Task)
    ensures Initial(START)
    ensures var w := Run(START, steps);
      && t.kind == EXPIRE_ROUTE && Retry(w, t) && t.session.bondReference.Some? && Landed(w, t.session.bondReference.value, TaskKey(t))
      && forall a, latest, delivery ::
           Again(w, t, CacheOf(w, a), latest, delivery).0.status != CONFIRMED && !Again(w, t, CacheOf(w, a), latest, delivery).2
  {
    hide Initial, Next, Run, Expirable, Again, CacheOf, Retry, Landed, V.ReservationId, ExpiryPenalty;
    var a := SettingIsReachable();
    RouteAndWorkerDiffer(TERMS);
    var b;
    b, t := OtherPathIsRefused(START, a, WorkerCall(Run(START, a)));
    RunAppend(START, a, b);
    steps := a + b;
  }

  /** The worker's retry after its lease, when the newest signature on the bond account is that
      of somebody else's transaction: of a stranger's failed reclaim, say. */
  function RetryCall(w: World): Call
    requires "s" in w.sessions
  {
    Call(0, Task(EXPIRY_WORKER, 0, "s", V.ReservationId("s", "lamp"), w.sessions["s"]), 0, "", "", 100_000, Some("stranger"), "second")
  }

  lemma RetryIsCallable(w: World, w': World)
    requires Setting(w) && DiedHeard(w, w', WorkerCall(w))
    ensures "s" in w'.sessions && Callable(w', RetryCall(w')) && TaskKey(RetryCall(w').task) == TaskKey(WorkerCall(w).task)
    ensures TaskKey(RetryCall(w').task) in w'.attempts && Landed(w', BOND, TaskKey(RetryCall(w').task))
    ensures Bonded(RetryCall(w').task.session.terms) && Journalled(w', RetryCall(w').task) == TaskPenalty(RetryCall(w').task)
  {
    hide V.ReservationId, Settleable, Landed, CacheOf, ExpiryPenalty;
  }

  /** So does a retry that the journal refuses: a run from the very beginning settles an expiry on
      chain, and then an undisturbed retry of it, after a restart, ends without a receipt
      because a stranger's transaction has touched the account. */
  lemma UnsavableIsReachable() returns (steps: seq<Step>)
    ensures Initial(START)
    ensures var w := Run(START, steps);
      && "s" in w.sessions && Callable(w, RetryCall(w)) && TaskKey(RetryCall(w).task) in w.attempts
      && Landed(w, BOND, TaskKey(RetryCall(w).task)) && Bonded(RetryCall(w).task.session.terms)
      && Journalled(w, RetryCall(w).task) == TaskPenalty(RetryCall(w).task)
      && !HasBondReceipt(Run(w, CallSteps(w, RetryCall(w))), "s")
  {
    hide Initial, Next, Run, Callable, CallSteps, Landed, TaskPenalty, DiedHeard, V.ReservationId, Journalled;
    var a := SettingIsReachable();
    var w := Run(START, a);
    var b := ThirdTransactionBlocks(START, a, WorkerCall(w));
    RetryIsCallable(w, Run(w, b));
    hide Setting, Expirable;
    RunAppend(START, a, b);
    steps := a + b;
  }

  lemma SettingHasOneReservation(w: World)
    requires Setting(w)
    ensures var rid := V.ReservationId("s", "lamp");
      && Expired(w, "s", rid, 5) && w.sessions["s"].bondReference.Some? && Bonded(w.sessions["s"].terms)
      && rid in w.goods.reservations && w.goods.reservations[rid].state == V.ACTIVE
      && forall q | q in w.goods.reservations :: q == rid
  {
    hide V.ReservationId, Settleable;
  }

  /** Nor is the lost unit only a possibility: a run from the very beginning, with one lamp in
      stock and nothing consumed, ends with no lamp in stock and none reserved. */
  lemma LostUnitIsReachable() returns (steps: seq<Step>)
    ensures Initial(START) && START.goods.inventory["lamp"].stock == 1
    ensures var w := Run(START, steps);
      && "lamp" in w.goods.inventory && w.goods.inventory["lamp"].stock == 0 && !V.HasActive(w.goods.reservations, "s")
      && V.Reserved(w.goods, "lamp") == 0
  {
    hide Initial, Inv, JournalTrue, Next, Run, Expirable, V.HasActive, V.Reserved, V.ReservationId, TaskPenalty, Finalizable, Expired, CacheOf;
    var rid := V.ReservationId("s", "lamp");
    var a := SettingIsReachable();
    ReachableIsTrue(START, a);
    var w := Run(START, a);
    SettingHasOneReservation(w);
    var b, w0, c := CanHearUndisturbed(w, WorkerCall(w));
    RunKeepsInvariant(w, b);
    var w1 := Run(w, b);
    StillFinalizable(w, w1, "s", rid, 5);
    LateSaveInRun(w1, 0, WorkerCall(w).task, "lamp", 5, 10);
    var late := [FinalizeReservation(0, 5), MakeReservation("s", "lamp", 5, 10), MarkSettled(0)];
    OneLampReserved(w.goods, rid);
    RunAppend(START, a, b);
    RunAppend(START, a + b, late);
    steps := a + b + late;
  }

  lemma OneLampReserved(m: V.Memory, rid: string)
    requires rid in m.reservations && (forall q | q in m.reservations :: q == rid)
    requires m.reservations[rid].productId == "lamp" && m.reservations[rid].state == V.ACTIVE && m.reservations[rid].quantity == 1
    ensures V.Reserved(m, "lamp") == 1
  {
    var none: map<string, V.Reservation> := map[];
    V.ReservedUpdate(V.Memory(m.inventory, none), rid, m.reservations[rid], "lamp");
    assert m.reservations == none[rid := m.reservations[rid]];
    assert V.HeldBy(none, "lamp") == map[];
  }
}
