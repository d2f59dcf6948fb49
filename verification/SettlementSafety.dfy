/** What the invariant of the settlement protocol means for receipts, bonds and sessions. */
module SettlementSafety {
  import opened Wrappers
  import opened Primitives
  import opened AdapterContract
  import opened SettlementEvidence
  import opened SettlementJournal
  import opened Settlement
  import opened SettlementInvariant
  import opened SettlementFrames
  import opened SettlementSteps
  import S = Sessions
  import V = Inventory
  import P = BondProgram
  import B = BondAdapter

  // ---------------------------------------------------------------------------------
  // Every run
  // ---------------------------------------------------------------------------------

  lemma InitialIsGood(w: World)
    requires Initial(w)
    ensures Inv(w)
  {}

  lemma {:induction false} RunKeepsInvariant(w: World, steps: seq<Step>)
    requires Inv(w)
    ensures Inv(Run(w, steps)) && Run(w, steps).gateway == w.gateway
    decreases |steps|
  {
    if steps != [] {
      hide Inv;
      if Next(w, steps[0]).Some? { StepKeepsInvariant(w, steps[0]); }
      RunKeepsInvariant(match Next(w, steps[0]) case Some(w') => w' case None => w, steps[1..]);
    }
  }

  /** A receipt of a bonded session tells what happened to the session's bond on chain. */
  ghost predicate AgreesWithChain(w: World, r: S.SessionRecord)
    requires r.receipt.Some?
  {
    && r.bondReference.Some? && r.bondReference.value in w.chain.bonds
    && var b := w.chain.bonds[r.bondReference.value];
    && b.policyHash == r.terms.policyHash
    && (r.receipt.value.outcome == S.CLOSED || r.receipt.value.outcome == S.EXPIRED)
    && (r.receipt.value.outcome == S.CLOSED ==>
          b.status == P.CLOSED && r.receipt.value.penalty == 0 == b.settledPenalty && r.receipt.value.bondRefunded == b.bondAmount)
    && (r.receipt.value.outcome == S.EXPIRED ==>
          b.status == P.VIOLATED && r.receipt.value.penalty == b.settledPenalty && r.receipt.value.penalty + r.receipt.value.bondRefunded == b.bondAmount)
  }

  lemma ReceiptAgrees(w: World, id: string)
    requires Inv(w) && id in w.sessions && w.sessions[id].receipt.Some? && Bonded(w.sessions[id].terms)
    ensures AgreesWithChain(w, w.sessions[id])
  {
    hide Inv, AttemptGood;
    var key := ReceiptKey(w, id);
  }

  /** The journal entry behind a receipt. */
  lemma ReceiptKey(w: World, id: string) returns (key: SettlementKey)
    requires Inv(w) && id in w.sessions && w.sessions[id].receipt.Some? && Bonded(w.sessions[id].terms)
    ensures id in w.verified && w.sessions[id].bondReference == Some(w.verified[id]) && BondMatches(w, w.verified[id], w.sessions[id].terms)
    ensures key in w.attempts && key.sessionId == id && AttemptGood(w, key)
    ensures ReceiptTrue(w, w.verified[id], key, w.sessions[id].terms, w.sessions[id].receipt.value)
  {
    assert SessionGood(w, id);
    var r := w.sessions[id];
    key :| key in w.attempts && key.sessionId == id && ReceiptTrue(w, w.verified[id], key, r.terms, r.receipt.value);
    assert AttemptGood(w, key);
  }

  /** No stored receipt contradicts the chain, and no two sessions hold bond receipts for the
      same bond: over every interleaving of close routes, expire routes, workers and session
      creations on any number of sessions, bonds and adapters, with crashes, restarts, lost
      responses, late transactions, expired leases, unlocks by anybody, and whatever agents,
      merchants and other settlement authorities do on chain. */
  lemma ReceiptsAgreeWithChain(start: World, steps: seq<Step>)
    requires Initial(start)
    ensures var w := Run(start, steps);
      && (forall id | id in w.sessions && w.sessions[id].receipt.Some? && Bonded(w.sessions[id].terms) :: AgreesWithChain(w, w.sessions[id]))
      && (forall i, j | HasBondReceipt(w, i) && HasBondReceipt(w, j) && w.sessions[i].bondReference == w.sessions[j].bondReference :: i == j)
  {
    InitialIsGood(start);
    RunKeepsInvariant(start, steps);
    var w := Run(start, steps);
    hide Inv, AgreesWithChain;
    forall id | id in w.sessions && w.sessions[id].receipt.Some? && Bonded(w.sessions[id].terms) ensures AgreesWithChain(w, w.sessions[id]) {
      ReceiptAgrees(w, id);
    }
    forall i, j | HasBondReceipt(w, i) && HasBondReceipt(w, j) && w.sessions[i].bondReference == w.sessions[j].bondReference ensures i == j {
      OneReceiptPerBond(w, i, j);
    }
  }

  predicate HasBondReceipt(w: World, id: string) {
    id in w.sessions && w.sessions[id].receipt.Some? && Bonded(w.sessions[id].terms)
  }

  lemma OneReceiptPerBond(w: World, i: string, j: string)
    requires Inv(w) && HasBondReceipt(w, i) && HasBondReceipt(w, j)
    requires w.sessions[i].bondReference == w.sessions[j].bondReference
    ensures i == j
  {
    hide Inv;
    var k := ReceiptKey(w, i);
    var l := ReceiptKey(w, j);
    EvidenceHashInjective(w.attempts[k].evidence.payload, w.attempts[l].evidence.payload);
  }

  // ---------------------------------------------------------------------------------
  // Lost responses
  // ---------------------------------------------------------------------------------

  /** Every bond the gateway's authority has ended carries the evidence hash and the penalty of
      an attempt that is in the journal. */
  lemma GatewayExitsAreJournalled(start: World, steps: seq<Step>, bond: Key)
    requires Initial(start)
    requires var w := Run(start, steps);
      bond in w.chain.bonds && w.chain.bonds[bond].authority == w.gateway && w.chain.bonds[bond].status in {P.CLOSED, P.VIOLATED}
    ensures var w := Run(start, steps);
      exists key | key in w.attempts :: SettledFor(w, bond, key, w.chain.bonds[bond].settledPenalty)
  {
    InitialIsGood(start);
    RunKeepsInvariant(start, steps);
    var w := Run(start, steps);
    assert w.settledBy[bond] in w.attempts;
  }

  /** A process that retries a journalled settlement, in this or another process. */
  ghost predicate Retry(w: World, t: Task) {
    ExaminedGood(w, t) && Bonded(t.session.terms) && TaskKey(t) in w.attempts
  }

  /** On a bond of the gateway's authority a receipt hash identifies the journal entry. */
  lemma LandedIsSettled(w: World, bond: Key, key: SettlementKey)
    requires AttemptsGood(w) && ExitsGood(w) && key in w.attempts && Landed(w, bond, key)
    ensures SettledFor(w, bond, key, w.attempts[key].evidence.payload.penalty)
  {
    var other := w.settledBy[bond];
    assert AttemptGood(w, key) && AttemptGood(w, other);
    EvidenceHashInjective(w.attempts[key].evidence.payload, w.attempts[other].evidence.payload);
  }

  /** A settlement of the gateway for the journal entry has taken effect on chain. */
  ghost predicate Landed(w: World, bond: Key, key: SettlementKey)
    requires key in w.attempts
  {
    && bond in w.chain.bonds && w.chain.bonds[bond].authority == w.gateway
    && w.chain.bonds[bond].status in {P.CLOSED, P.VIOLATED}
    && w.chain.bonds[bond].receiptHash == w.attempts[key].evidence.evidenceHash
  }

  lemma NonceUnseen(w: World, t: Task, cache: B.Cache)
    requires Retry(w, t) && CacheGood(w, cache) && AttemptsGood(w) && TaskKey(t) !in cache.settledResults
    ensures w.attempts[TaskKey(t)].evidence.payload.nonce !in cache.seenNonces
  {
    hide EvidenceHash, SettledFor;
    var n := w.attempts[TaskKey(t)].evidence.payload.nonce;
    assert AttemptGood(w, TaskKey(t));
    if n in cache.seenNonces {
      var key :| key in cache.settledResults.Keys && B.NonceOf(key) == n;
      assert CachedGood(w, key, cache.settledResults[key]) && AttemptGood(w, key);
      NonceDetermines(w, key, TaskKey(t));
    }
  }

  /** The adapter call of a retry: its answer, the cache afterwards, whether it sends. */
  function Again(w: World, t: Task, cache: B.Cache, latest: Option<string>, delivery: B.Delivery): (AdapterResult, B.Cache, bool)
    requires Bonded(t.session.terms) && TaskKey(t) in w.attempts && t.session.bondReference.Some?
  {
    B.Call(cache, w.secret, NewRequest(t, w.attempts[TaskKey(t)].evidence), FetchFrom(w.chain, t.session.bondReference.value, true), latest, delivery)
  }

  /** Confirmed exactly if `expected`, and then with the amounts of the bond. */
  predicate AnswersFrom(b: P.Bond, result: AdapterResult, expected: bool) {
    && (result.status == CONFIRMED <==> expected)
    && (result.status == CONFIRMED ==>
          result.penalty == Some(b.settledPenalty) && b.settledPenalty <= b.bondAmount && result.bondRefunded == Some(b.bondAmount - b.settledPenalty))
  }

  ghost predicate RetryCase(w: World, t: Task, c: Case) {
    Retry(w, t) && c.task == t && CaseReady(w, c) && t.session.bondReference.Some?
  }

  ghost predicate RetryOf(w: World, t: Task, c: Case) {
    && RetryCase(w, t, c) && c == Case(t, 0, w.attempts[TaskKey(t)], NewRequest(t, w.attempts[TaskKey(t)].evidence))
    && SettledFor(w, t.session.bondReference.value, TaskKey(t), c.attempt.evidence.payload.penalty)
  }

  lemma RetryBegins(w: World, t: Task, c: Case, cache: B.Cache)
    requires RetryCase(w, t, c) && TaskKey(t) !in cache.settledResults
    requires w.secret != "" && c.attempt.evidence.payload.nonce !in cache.seenNonces
    requires forall id | id in cache.sessions :: id in w.verified && w.verified[id] == cache.sessions[id]
    ensures var begun := B.Begin(cache, w.secret, c.request).0;
      if TaskPenalty(t) == c.attempt.evidence.payload.penalty then
        begun == B.Ask(t.session.bondReference.value, c.attempt.evidence.evidenceHash) && B.Authorizes(c.attempt.evidence.payload, c.request)
      else begun.Answer? && begun.result.status == FAILED
  {
    hide EvidenceHash;
    RequestIsTask(w, c);
    PenaltyWithinBond(t);
  }

  /** What an adapter that asks the chain answers. */
  lemma DecidesFromChain(q: B.Request, receiptHash: Hash, b: P.Bond)
    requires b.policyHash == q.policyHash && b.receiptHash == receiptHash && b.settledPenalty == B.PenaltyOf(q)
    requires b.status == (if q.CloseRequest? then P.CLOSED else P.VIOLATED)
    ensures B.Decide(q, receiptHash, B.Found(b)) == B.Recover(B.PenaltyOf(q), if q.CloseRequest? then b.bondAmount else B.RefundOf(q))
  {}

  lemma CallRecovers(cache: B.Cache, secret: string, q: B.Request, fetch: B.Fetch, latest: Option<string>, delivery: B.Delivery)
    ensures var (result, _, sent) := B.Call(cache, secret, q, fetch, latest, delivery);
      match B.Begin(cache, secret, q).0
      case Answer(answer) => result == answer && !sent
      case Ask(_, receiptHash) =>
        match B.Decide(q, receiptHash, fetch)
        case Recover(penalty, refunded) => result == Confirmation(latest, penalty, refunded) && !sent
        case _ => true
  {
    hide B.Begin, B.Decide;
  }

  /** Without a remembered answer the evidence decides, then the chain. */
  lemma AskedAgain(w: World, t: Task, c: Case, cache: B.Cache, latest: Option<string>, delivery: B.Delivery)
    requires RetryOf(w, t, c) && TaskKey(t) !in cache.settledResults
    requires w.secret != "" && c.attempt.evidence.payload.nonce !in cache.seenNonces
    requires forall id | id in cache.sessions :: id in w.verified && w.verified[id] == cache.sessions[id]
    ensures var (result, _, sent) := Again(w, t, cache, latest, delivery);
      !sent && AnswersFrom(w.chain.bonds[t.session.bondReference.value], result, TaskPenalty(t) == c.attempt.evidence.payload.penalty)
  {
    hide EvidenceHash, VerifyEvidence, B.Authorizes, AttemptGood, SessionGood, TaskGood;
    RetryBegins(w, t, c, cache);
    RequestIsTask(w, c);
    hide B.Begin, B.Decide, B.Call, CaseReady, ExaminedGood;
    var bond := t.session.bondReference.value;
    CallRecovers(cache, w.secret, c.request, B.Found(w.chain.bonds[bond]), latest, delivery);
    if TaskPenalty(t) == c.attempt.evidence.payload.penalty {
      DecidesFromChain(c.request, c.attempt.evidence.evidenceHash, w.chain.bonds[bond]);
    }
  }

  lemma RememberedAnswer(w: World, t: Task, c: Case, cache: B.Cache, latest: Option<string>, delivery: B.Delivery)
    requires RetryOf(w, t, c) && TaskKey(t) in cache.settledResults && CachedGood(w, TaskKey(t), cache.settledResults[TaskKey(t)])
    ensures var (result, _, sent) := Again(w, t, cache, latest, delivery);
      !sent && AnswersFrom(w.chain.bonds[t.session.bondReference.value], result, true)
  {
    hide EvidenceHash, B.Decide, B.CheckEvidence;
    RequestIsTask(w, c);
    hide CaseReady;
  }

  lemma RetryIsAnswered(w: World, t: Task, adapter: nat, latest: Option<string>, delivery: B.Delivery)
    requires Inv(w) && Retry(w, t) && t.session.bondReference.Some? && Landed(w, t.session.bondReference.value, TaskKey(t))
    ensures var (result, _, sent) := Again(w, t, CacheOf(w, adapter), latest, delivery);
      !sent && AnswersFrom(w.chain.bonds[t.session.bondReference.value], result,
                           TaskKey(t) in CacheOf(w, adapter).settledResults || TaskPenalty(t) == w.attempts[TaskKey(t)].evidence.payload.penalty)
  {
    hide EvidenceHash, VerifyEvidence, B.Authorizes;
    hide Again, AnswersFrom, ProcessesGood, SubmissionsGood, ReservationsGood, NoncesGood, OwnersDistinct, P.Good;
    var k := TaskKey(t);
    var c := Case(t, 0, w.attempts[k], NewRequest(t, w.attempts[k].evidence));
    assert AttemptGood(w, k);
    LandedIsSettled(w, t.session.bondReference.value, k);
    CaseIsReady(w, c);
    var cache := CacheOf(w, adapter);
    CacheOfGood(w, adapter);
    hide Inv, AttemptsGood, SessionsGood, ExitsGood, CachesGood, CaseReady, SettledFor, Landed;
    if k in cache.settledResults {
      RememberedAnswer(w, t, c, cache, latest, delivery);
    } else {
      NonceUnseen(w, t, cache);
      AskedAgain(w, t, c, cache, latest, delivery);
    }
  }

  /** If the transaction of a journalled settlement landed but its response was lost, a retry
      through any adapter, restarted or not, never sends another one. It is confirmed, with the
      amounts that are on chain, exactly when the adapter remembers the answer or the retry asks
      for the journalled penalty. (A close always does; the expire route and the worker may
      differ when a policy has several bonded actions.) */
  lemma LostResponsesAreRecovered(start: World, steps: seq<Step>, t: Task, adapter: nat, latest: Option<string>, delivery: B.Delivery)
    requires Initial(start)
    requires var w := Run(start, steps);
      Retry(w, t) && t.session.bondReference.Some? && Landed(w, t.session.bondReference.value, TaskKey(t))
    ensures var w := Run(start, steps);
      var (result, _, sent) := Again(w, t, CacheOf(w, adapter), latest, delivery);
      !sent && AnswersFrom(w.chain.bonds[t.session.bondReference.value], result,
                           TaskKey(t) in CacheOf(w, adapter).settledResults || TaskPenalty(t) == w.attempts[TaskKey(t)].evidence.payload.penalty)
  {
    hide Inv, Again, AnswersFrom;
    InitialIsGood(start);
    RunKeepsInvariant(start, steps);
    RetryIsAnswered(Run(start, steps), t, adapter, latest, delivery);
  }

  lemma JournalledCloseIsFree(w: World, t: Task)
    requires Inv(w) && TaskKey(t) in w.attempts && t.kind == CLOSE_ROUTE
    requires t.session.bondReference.Some? && Landed(w, t.session.bondReference.value, TaskKey(t))
    ensures w.attempts[TaskKey(t)].evidence.payload.penalty == 0 == w.chain.bonds[t.session.bondReference.value].settledPenalty
  {
    assert AttemptGood(w, TaskKey(t));
    LandedIsSettled(w, t.session.bondReference.value, TaskKey(t));
  }

  /** A close always retries with the journalled penalty, zero. */
  lemma LostClosesAreRecovered(start: World, steps: seq<Step>, t: Task, adapter: nat, latest: Option<string>, delivery: B.Delivery)
    requires Initial(start) && t.kind == CLOSE_ROUTE
    requires var w := Run(start, steps);
      Retry(w, t) && t.session.bondReference.Some? && Landed(w, t.session.bondReference.value, TaskKey(t))
    ensures var w := Run(start, steps);
      var result := Again(w, t, CacheOf(w, adapter), latest, delivery).0;
      && result.status == CONFIRMED && result.penalty == Some(0)
      && result.bondRefunded == Some(w.chain.bonds[t.session.bondReference.value].bondAmount)
  {
    hide Inv, Again, Initial;
    InitialIsGood(start);
    RunKeepsInvariant(start, steps);
    JournalledCloseIsFree(Run(start, steps), t);
    LostResponsesAreRecovered(start, steps, t, adapter, latest, delivery);
  }

  /** With two bonded actions the expire route and the expiry worker can ask for different
      penalties for the same reservation. */
  lemma RouteAndWorkerDiffer(t: S.Terms)
    requires t.bondedActions == [S.BondedAction("express-shipping", 5), S.BondedAction("reserve-inventory", 7)]
    ensures ExpiryPenalty(EXPIRE_ROUTE, t) == 5 && ExpiryPenalty(EXPIRY_WORKER, t) == 7
  {
    assert t.bondedActions[0].operationId[0] == 'e';
    assert FindAction(t.bondedActions) == FindAction(t.bondedActions[1..]);
  }

  /** The nonce claim of a settlement is never refused: the evidence in the journal is the only
      one its nonce was ever claimed for. */
  lemma NonceClaimIsGranted(start: World, steps: seq<Step>, p: nat)
    requires Initial(start) && p in Run(start, steps).processes && Run(start, steps).processes[p].Journaled?
    ensures DoGrantNonce(Run(start, steps), p).Some?
  {
    hide Initial, Inv, DoGrantNonce;
    InitialIsGood(start);
    RunKeepsInvariant(start, steps);
    NonceIsFree(Run(start, steps), p);
  }

  lemma NonceIsFree(w: World, p: nat)
    requires Inv(w) && p in w.processes && w.processes[p].Journaled?
    ensures DoGrantNonce(w, p).Some?
  {
    var c := w.processes[p].c;
    assert NoncesGood(w);
    ProcessFact(w, p);
    CaseIsReady(w, c);
    hide Inv, SessionGood;
  }

  // ---------------------------------------------------------------------------------
  // The life of a session
  // ---------------------------------------------------------------------------------

  /** What one step may do to a session: follow the transition graph, and once it has ended do
      nothing but store the receipt, once. Only a session that was never active can go away. */
  predicate Follows(r: S.SessionRecord, next: Option<S.SessionRecord>) {
    match next
    case None => !Live(r.state)
    case Some(r') =>
      && (r'.state == r.state || r'.state in S.Allowed(r.state))
      && r'.sessionId == r.sessionId && r'.terms == r.terms && r'.calls >= r.calls
      && (r.tokenHash.Some? ==> r'.tokenHash == r.tokenHash)
      && (Live(r.state) ==> r'.bondReference == r.bondReference)
      && (Terminal(r.state) ==> r' == r.(receipt := r'.receipt))
      && (r.receipt.Some? ==> r' == r)
  }

  function Lookup(sessions: S.Table, id: string): Option<S.SessionRecord> {
    if id in sessions then Some(sessions[id]) else None
  }

  ghost predicate AllFollow(w: World, w': World) {
    forall id | id in w.sessions :: Follows(w.sessions[id], Lookup(w'.sessions, id))
  }

  lemma UnchangedFollows(w: World, w': World)
    requires w'.sessions == w.sessions
    ensures AllFollow(w, w')
  {}

  lemma WriteFollows(w: World, w': World, id: string, record: S.SessionRecord)
    requires w'.sessions == w.sessions[id := record] && (id in w.sessions ==> Follows(w.sessions[id], Some(record)))
    ensures AllFollow(w, w')
  {}

  lemma CreateFollows(w: World, p: nat, adapter: nat, id: string, terms: S.Terms)
    requires DoCreateSession(w, p, adapter, id, terms).Some?
    ensures AllFollow(w, DoCreateSession(w, p, adapter, id, terms).value)
  {
    WriteFollows(w, DoCreateSession(w, p, adapter, id, terms).value, id, FreshRecord(id, terms));
  }

  lemma CreationWritesFollow(w: World, p: nat, s: CreationStep)
    requires CreatorReady(w, p) && DoCreation(w, p, s).Some? && !s.VerifyBond? && !s.SaveToken? && !s.AbortCreation?
    ensures AllFollow(w, DoCreation(w, p, s).value)
  {
    hide Unowned, SessionGood;
    var record, stage := CreationEffect(w, p, s);
    hide DoCreation;
    WriteFollows(w, DoCreation(w, p, s).value, w.processes[p].record.sessionId, record);
  }

  lemma CreationEndFollows(w: World, p: nat, s: CreationStep)
    requires CreatorReady(w, p) && DoCreation(w, p, s).Some? && (s.SaveToken? || s.AbortCreation?)
    ensures AllFollow(w, DoCreation(w, p, s).value)
  {
    hide Unowned, SessionGood;
    var was := w.processes[p].record;
    if s.SaveToken? { WriteFollows(w, DoCreation(w, p, s).value, was.sessionId, was.(tokenHash := Some(s.tokenHash))); }
  }

  lemma CreationFollows(w: World, p: nat, s: CreationStep)
    requires CreatorReady(w, p) && DoCreation(w, p, s).Some?
    ensures AllFollow(w, DoCreation(w, p, s).value)
  {
    hide AllFollow, DoCreation, CreatorReady;
    match s {
      case VerifyBond(account) =>
        VerifyBondEffect(w, p, account);
        UnchangedFollows(w, DoCreation(w, p, s).value);
      case SaveToken(_) => CreationEndFollows(w, p, s);
      case AbortCreation => CreationEndFollows(w, p, s);
      case _ => CreationWritesFollow(w, p, s);
    }
  }

  lemma LockFollows(w: World, p: nat, now: int)
    requires Inv(w) && DoLock(w, p, now).Some?
    ensures AllFollow(w, DoLock(w, p, now).value)
  {
    hide Inv, Unowned;
    var t, t', record := LockEffect(w, p, now);
    hide DoLock;
    ProcessFact(w, p);
    PublicFacts(w, Some(p), t.sessionId);
    WriteFollows(w, DoLock(w, p, now).value, t.sessionId, record);
  }

  lemma FinishFollows(w: World, p: nat)
    requires Inv(w) && DoFinish(w, p).Some?
    ensures AllFollow(w, DoFinish(w, p).value)
  {
    hide Inv, Unowned;
    var t, record, receipt := FinishEffect(w, p);
    hide DoFinish;
    ProcessFact(w, p);
    PublicFacts(w, Some(p), t.sessionId);
    WriteFollows(w, DoFinish(w, p).value, t.sessionId, record);
  }

  lemma StoreReceiptFollows(w: World, p: nat)
    requires Inv(w) && DoStoreReceipt(w, p).Some?
    ensures AllFollow(w, DoStoreReceipt(w, p).value)
  {
    hide Inv, Unowned;
    OwnerFacts(w, p);
    var w' := DoStoreReceipt(w, p).value;
    WriteFollows(w, w', w.processes[p].record.sessionId, w'.sessions[w.processes[p].record.sessionId]);
  }

  lemma UnlockFollows(w: World, id: string)
    requires Inv(w) && DoUnlock(w, id).Some?
    ensures AllFollow(w, DoUnlock(w, id).value)
  {
    hide Inv;
    SessionFact(w, id);
    WriteFollows(w, DoUnlock(w, id).value, id, DoUnlock(w, id).value.sessions[id]);
  }

  lemma CountFollows(w: World, id: string, request: S.Request, expected: S.SessionState)
    requires Inv(w) && DoCount(w, id, request, expected).Some?
    ensures AllFollow(w, DoCount(w, id, request, expected).value)
  {
    hide Inv;
    SessionFact(w, id);
    WriteFollows(w, DoCount(w, id, request, expected).value, id, DoCount(w, id, request, expected).value.sessions[id]);
  }

  lemma EnterKeepsSessions(w: World, p: nat, kind: Kind, adapter: nat, id: string, reservation: string)
    requires DoEnter(w, p, kind, adapter, id, reservation).Some?
    ensures DoEnter(w, p, kind, adapter, id, reservation).value.sessions == w.sessions
  {}

  lemma ExamineKeepsSessions(w: World, p: nat, now: int)
    requires DoExamine(w, p, now).Some?
    ensures DoExamine(w, p, now).value.sessions == w.sessions
  {}

  lemma SkipBondKeepsSessions(w: World, p: nat, usage: nat)
    requires DoSkipBond(w, p, usage).Some?
    ensures DoSkipBond(w, p, usage).value.sessions == w.sessions
  {}

  lemma GrantNonceKeepsSessions(w: World, p: nat)
    requires DoGrantNonce(w, p).Some?
    ensures DoGrantNonce(w, p).value.sessions == w.sessions
  {}

  lemma RecordRecoveryKeepsSessions(w: World, p: nat, latest: Option<string>)
    requires DoRecordRecovery(w, p, latest).Some?
    ensures DoRecordRecovery(w, p, latest).value.sessions == w.sessions
  {}

  lemma LandKeepsSessions(w: World, tx: nat)
    requires DoLand(w, tx).Some?
    ensures DoLand(w, tx).value.sessions == w.sessions
  {
    hide P.Execute;
  }

  lemma ConfirmKeepsSessions(w: World, p: nat, signature: string)
    requires DoConfirm(w, p, signature).Some?
    ensures DoConfirm(w, p, signature).value.sessions == w.sessions
  {}

  lemma LoseResponseKeepsSessions(w: World, p: nat, code: FailureCode)
    requires DoLoseResponse(w, p, code).Some?
    ensures DoLoseResponse(w, p, code).value.sessions == w.sessions
  {}

  lemma MarkSettledKeepsSessions(w: World, p: nat)
    requires DoMarkSettled(w, p).Some?
    ensures DoMarkSettled(w, p).value.sessions == w.sessions
  {}

  lemma ReserveKeepsSessions(w: World, id: string, product: string, now: int, expiresAt: int)
    requires DoReserve(w, id, product, now, expiresAt).Some?
    ensures DoReserve(w, id, product, now, expiresAt).value.sessions == w.sessions
  {
    hide V.MemoryCreate, V.ReservationId;
  }

  lemma JournalKeepsSessions(w: World, p: nat, usage: nat, issuedAt: string, authority: string, now: int)
    requires DoJournal(w, p, usage, issuedAt, authority, now).Some?
    ensures DoJournal(w, p, usage, issuedAt, authority, now).value.sessions == w.sessions
  {
    var _, _ := JournalEffect(w, p, usage, issuedAt, authority, now);
    hide DoJournal, NewRequest, CreateEvidence;
  }

  lemma BeginCallKeepsSessions(w: World, p: nat, secret: string)
    requires DoBeginCall(w, p, secret).Some?
    ensures DoBeginCall(w, p, secret).value.sessions == w.sessions
  {
    BeginCallEffect(w, p, secret);
    hide DoBeginCall, B.Begin;
  }

  lemma FetchKeepsSessions(w: World, p: nat, reachable: bool)
    requires DoFetch(w, p, reachable).Some?
    ensures DoFetch(w, p, reachable).value.sessions == w.sessions
  {
    FetchEffect(w, p, reachable);
    hide DoFetch, B.Decide, SettlementInstruction;
  }

  lemma SaveResultKeepsSessions(w: World, p: nat, now: int)
    requires DoSaveResult(w, p, now).Some?
    ensures DoSaveResult(w, p, now).value.sessions == w.sessions
  {
    var _ := SaveResultEffect(w, p, now);
    hide DoSaveResult;
  }

  lemma ValidateKeepsSessions(w: World, p: nat)
    requires DoValidate(w, p).Some?
    ensures DoValidate(w, p).value.sessions == w.sessions
  {
    var _ := ValidateEffect(w, p);
    hide DoValidate;
  }

  lemma FinalizeReservationKeepsSessions(w: World, p: nat, now: int)
    requires DoFinalizeReservation(w, p, now).Some?
    ensures DoFinalizeReservation(w, p, now).value.sessions == w.sessions
  {
    FinalizeReservationEffect(w, p, now);
    hide DoFinalizeReservation, V.MemoryFinalize;
  }

  /** Along every run, whatever is interleaved: no blind write ever moves a session off the
      graph, revives an ended one or changes a stored receipt. */
  lemma SessionsFollowTheGraph(start: World, steps: seq<Step>, s: Step)
    requires Initial(start) && Next(Run(start, steps), s).Some?
    ensures AllFollow(Run(start, steps), Next(Run(start, steps), s).value)
  {
    hide Initial;
    InitialIsGood(start);
    RunKeepsInvariant(start, steps);
    StepFollows(Run(start, steps), s);
  }

  lemma StepFollows(w: World, s: Step)
    requires Inv(w) && Next(w, s).Some?
    ensures AllFollow(w, Next(w, s).value)
  {
    hide Inv, AllFollow, DoCreateSession, DoCreation, DoEnter, DoExamine, DoLock, DoJournal, DoSkipBond, DoGrantNonce, DoBeginCall, DoFetch,
      DoRecordRecovery, DoLand, DoConfirm, DoLoseResponse, DoSaveResult, DoValidate, DoFinalizeReservation, DoMarkSettled, DoFinish,
      DoStoreReceipt, DoUnlock, DoCount, DoReserve, P.Apply, V.MemoryFinalize;
    var w' := Next(w, s).value;
    match s {
      case CreateSession(p, adapter, id, terms) => CreateFollows(w, p, adapter, id, terms);
      case Creation(p, creation) => CreatorFacts(w, p, creation); CreationFollows(w, p, creation);
      case Lock(p, now) => LockFollows(w, p, now);
      case Finish(p) => FinishFollows(w, p);
      case StoreReceipt(p) => StoreReceiptFollows(w, p);
      case Unlock(id) => UnlockFollows(w, id);
      case CountRequest(id, request, expected) => CountFollows(w, id, request, expected);
      case _ =>
        OthersKeepSessions(w, s);
        UnchangedFollows(w, w');
    }
  }

  /** Only creating, locking, unlocking, ending and counting write session records. */
  predicate WritesSessions(s: Step) {
    s.CreateSession? || s.Creation? || s.Lock? || s.Finish? || s.StoreReceipt? || s.Unlock? || s.CountRequest?
  }

  lemma OthersKeepSessions(w: World, s: Step)
    requires Next(w, s).Some? && !WritesSessions(s)
    ensures Next(w, s).value.sessions == w.sessions
  {
    hide DoEnter, DoExamine, DoJournal, DoSkipBond, DoGrantNonce, DoBeginCall, DoFetch,
      DoRecordRecovery, DoLand, DoConfirm, DoLoseResponse, DoSaveResult, DoValidate, DoFinalizeReservation, DoMarkSettled, DoReserve, P.Apply, V.MemoryFinalize;
    match s {
      case Enter(p, kind, adapter, id, reservation) => EnterKeepsSessions(w, p, kind, adapter, id, reservation);
      case Examine(p, now) => ExamineKeepsSessions(w, p, now);
      case Journal(p, usage, issuedAt, authority, now) => JournalKeepsSessions(w, p, usage, issuedAt, authority, now);
      case SkipBond(p, usage) => SkipBondKeepsSessions(w, p, usage);
      case GrantNonce(p) => GrantNonceKeepsSessions(w, p);
      case BeginCall(p, secret) => BeginCallKeepsSessions(w, p, secret);
      case FetchBond(p, reachable) => FetchKeepsSessions(w, p, reachable);
      case RecordRecovery(p, latest) => RecordRecoveryKeepsSessions(w, p, latest);
      case Land(tx) => LandKeepsSessions(w, tx);
      case Confirm(p, signature) => ConfirmKeepsSessions(w, p, signature);
      case LoseResponse(p, code) => LoseResponseKeepsSessions(w, p, code);
      case SaveResult(p, now) => SaveResultKeepsSessions(w, p, now);
      case Validate(p) => ValidateKeepsSessions(w, p);
      case FinalizeReservation(p, now) => FinalizeReservationKeepsSessions(w, p, now);
      case MarkSettled(p) => MarkSettledKeepsSessions(w, p);
      case MakeReservation(id, product, now, expiresAt) => ReserveKeepsSessions(w, id, product, now, expiresAt);
      case _ =>
    }
  }

  /** An active session has been paid for up to its usage cap and, if its policy has bonded
      actions, a bond on its terms was verified for it; it still exists, on those terms. */
  lemma ActiveIsPaidAndBonded(start: World, steps: seq<Step>, id: string)
    requires Initial(start) && id in Run(start, steps).sessions && Live(Run(start, steps).sessions[id].state)
    ensures var w := Run(start, steps);
      var r := w.sessions[id];
      && id in w.paid && w.paid[id] >= r.terms.usageCap
      && (Bonded(r.terms) ==> id in w.verified && r.bondReference == Some(w.verified[id]) && BondMatches(w, w.verified[id], r.terms))
  {
    hide Initial;
    InitialIsGood(start);
    RunKeepsInvariant(start, steps);
    assert SessionGood(Run(start, steps), id);
  }

  /** Whatever is reserved, or has ever been, is covered: its session has bonded actions, and the
      bond verified for it exists on its terms. */
  lemma ReservationsAreCovered(start: World, steps: seq<Step>, reservation: string)
    requires Initial(start) && reservation in Run(start, steps).goods.reservations
    ensures var w := Run(start, steps);
      var id := w.goods.reservations[reservation].sessionId;
      && id in w.sessions && Bonded(w.sessions[id].terms) && id in w.verified
      && w.sessions[id].bondReference == Some(w.verified[id]) && BondMatches(w, w.verified[id], w.sessions[id].terms)
  {
    hide Initial, Inv, Run, BondMatches;
    InitialIsGood(start);
    RunKeepsInvariant(start, steps);
    var w := Run(start, steps);
    ReservationFact(w, reservation);
    SessionFact(w, w.goods.reservations[reservation].sessionId);
  }

  /** A creation that is turned down, when paying or for its bond, can take the session back, and
      leaves nothing of it. */
  lemma CreationCanAbort(start: World, steps: seq<Step>, p: nat)
    requires Initial(start) && p in Run(start, steps).processes && Run(start, steps).processes[p].Creating?
    requires var stage := Run(start, steps).processes[p].stage; stage.POLICY_READY? || stage.PAYMENT_SAVED?
    ensures var w := Run(start, steps);
      Next(w, Creation(p, AbortCreation)) ==
        Some(w.(sessions := w.sessions - {w.processes[p].record.sessionId}, processes := w.processes - {p}))
      && w.processes[p].record.sessionId in w.sessions
  {
    hide Initial, Inv, Run;
    InitialIsGood(start);
    RunKeepsInvariant(start, steps);
    ProcessFact(Run(start, steps), p);
    hide DoAdvance, DoVerifyBond, DoVerifyPayment;
  }
}
