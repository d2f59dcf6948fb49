/** Safety is not bought by standing still: steps that are enabled in every reachable state, and a
    session creation that nobody disturbs. */
module SettlementProgress {
  import opened Wrappers
  import opened Primitives
  import opened AdapterContract
  import opened SettlementEvidence
  import opened SettlementJournal
  import opened Settlement
  import opened SettlementInvariant
  import opened SettlementSteps
  import opened SettlementSafety
  import S = Sessions
  import V = Inventory
  import P = BondProgram
  import B = BondAdapter

  lemma {:induction false} RunAppend(w: World, a: seq<Step>, b: seq<Step>)
    ensures Run(w, a + b) == Run(Run(w, a), b)
    decreases |a|
  {
    hide Next;
    if a == [] {
      assert a + b == b;
    } else {
      assert (a + b)[1..] == a[1..] + b;
      RunAppend(match Next(w, a[0]) case Some(w') => w' case None => w, a[1..], b);
    }
  }

  lemma RunOne(w: World, s: Step)
    requires Next(w, s).Some?
    ensures Run(w, [s]) == Next(w, s).value
  {
    hide Next;
    assert [s][1..] == [];
    assert Run(Next(w, s).value, []) == Next(w, s).value;
  }

  /** One more step. */
  lemma Then(w: World, steps: seq<Step>, s: Step)
    requires Next(Run(w, steps), s).Some?
    ensures Run(w, steps + [s]) == Next(Run(w, steps), s).value
  {
    hide Next, Run;
    RunAppend(w, steps, [s]);
    RunOne(Run(w, steps), s);
  }

  // ---------------------------------------------------------------------------------
  // Steps of a settlement
  // ---------------------------------------------------------------------------------

  lemma CanGrant(w: World, p: nat)
    requires Inv(w) && p in w.processes && w.processes[p].Journaled?
    ensures var next := Next(w, GrantNonce(p));
      next.Some? && next.value == With(w.(nonces := next.value.nonces), p, Granted(w.processes[p].c))
  {
    hide Inv;
    NonceIsFree(w, p);
  }

  lemma CacheFacts(w: World, t: Task, c: Case, cache: B.Cache)
    requires Inv(w) && CaseGood(w, c) && c.task == t && cache == CacheOf(w, t.adapter) && TaskKey(t) !in cache.settledResults
    requires t.session.bondReference.Some?
    ensures RetryCase(w, t, c) && w.secret != "" && c.attempt.evidence.payload.nonce !in cache.seenNonces
    ensures forall id | id in cache.sessions :: id in w.verified && w.verified[id] == cache.sessions[id]
    ensures t.sessionId in w.verified && w.verified[t.sessionId] == t.session.bondReference.value
  {
    hide SessionGood, ProcessGood, AttemptGood, SubmissionGood, ReservationGood, NoncesGood, ExitsGood, OwnersDistinct, P.Good, EvidenceHash;
    CaseIsReady(w, c);
    CacheOfGood(w, t.adapter);
    NonceUnseen(w, t, cache);
    RequestIsTask(w, c);
  }

  /** What a first call for the journalled penalty begins with. */
  lemma FirstCallAsks(w: World, p: nat)
    requires Inv(w) && p in w.processes && w.processes[p].Granted?
    requires var c := w.processes[p].c;
      && c.task.session.bondReference.Some? && TaskKey(c.task) !in CacheOf(w, c.task.adapter).settledResults
      && Bonded(c.task.session.terms) && c.attempt.evidence.payload.penalty == TaskPenalty(c.task)
    ensures var c := w.processes[p].c;
      B.Begin(CacheOf(w, c.task.adapter), w.secret, c.request).0 == B.Ask(c.task.session.bondReference.value, c.attempt.evidence.evidenceHash)
  {
    hide Inv, CaseGood, CacheOf;
    var c := w.processes[p].c;
    var cache := CacheOf(w, c.task.adapter);
    ProcessFact(w, p);
    CacheFacts(w, c.task, c, cache);
    hide TaskPenalty, B.Begin;
    RetryBegins(w, c.task, c, cache);
    hide RetryCase;
  }

  lemma CacheWritten(w: World, w': World, adapter: nat, cache: B.Cache)
    requires w'.caches == w.caches[adapter := cache] && cache.settledResults == CacheOf(w, adapter).settledResults
    ensures forall a :: CacheOf(w', a).settledResults == CacheOf(w, a).settledResults
  {}

  /** A first call, for the journalled penalty, gets as far as asking for the bond. */
  lemma CanBegin(w: World, p: nat)
    requires Inv(w) && p in w.processes && w.processes[p].Granted?
    requires var c := w.processes[p].c;
      && c.task.session.bondReference.Some? && TaskKey(c.task) !in CacheOf(w, c.task.adapter).settledResults
      && Bonded(c.task.session.terms) && c.attempt.evidence.payload.penalty == TaskPenalty(c.task)
    ensures var c, next := w.processes[p].c, Next(w, BeginCall(p, w.secret));
      && next.Some? && next.value == With(w.(caches := next.value.caches), p, Asking(c, c.task.session.bondReference.value, c.attempt.evidence.evidenceHash))
      && forall a :: CacheOf(next.value, a).settledResults == CacheOf(w, a).settledResults
  {
    hide Inv, CacheOf, TaskPenalty;
    FirstCallAsks(w, p);
    var c := w.processes[p].c;
    var cache := CacheOf(w, c.task.adapter);
    BeginKeepsResults(cache, w.secret, c.request);
    hide B.Begin;
    CacheWritten(w, Next(w, BeginCall(p, w.secret)).value, c.task.adapter, B.Begin(cache, w.secret, c.request).1);
  }

  lemma BeginKeepsResults(cache: B.Cache, secret: string, q: B.Request)
    ensures B.Begin(cache, secret, q).1.settledResults == cache.settledResults
  {
    hide B.CheckEvidence;
  }

  /** The bond can be closed by the gateway: open, its own, and the agent has a token account. */
  ghost predicate Closable(w: World, k: Key) {
    && k in w.chain.bonds && w.chain.bonds[k].status == P.OPEN && w.chain.bonds[k].authority == w.gateway && w.gateway.Wallet?
    && P.RefundAccount(w.chain, k, Ata(w.chain.bonds[k].agent, w.chain.bonds[k].mint))
  }

  lemma CanConfirm(w: World, p: nat, signature: string)
    requires p in w.processes && w.processes[p].Submitted? && w.processes[p].tx < |w.submissions| && w.submissions[w.processes[p].tx].landed
    ensures var c, next := w.processes[p].c, Next(w, Confirm(p, signature));
      next.Some? && next.value == With(w.(caches := next.value.caches), p, Answered(c, Confirmation(Some(signature), B.PenaltyOf(c.request), B.RefundOf(c.request)), 2))
  {
    hide B.RememberSubmitted, CacheOf;
  }

  lemma CanFinish(w: World, p: nat)
    requires p in w.processes && w.processes[p].Finishing? && w.processes[p].task.kind == CLOSE_ROUTE
    requires w.processes[p].task.sessionId in w.sessions && w.sessions[w.processes[p].task.sessionId].state == S.SETTLING
    ensures var pr, id := w.processes[p], w.processes[p].task.sessionId;
      var record := w.sessions[id].(state := S.CLOSED, leaseExpiresAt := None);
      Next(w, Finish(p)) == Some(With(w.(sessions := w.sessions[id := record]), p,
        Closing(pr.task.adapter, record, S.Receipt(S.CLOSED, record.calls, pr.usage, pr.amounts.bondRefunded, pr.amounts.penalty))))
  {}

  lemma CanStore(w: World, p: nat)
    requires p in w.processes && w.processes[p].Closing?
    ensures var pr := w.processes[p];
      Next(w, StoreReceipt(p)) == Some(w.(sessions := w.sessions[pr.record.sessionId := pr.record.(receipt := Some(pr.receipt))], processes := w.processes - {p}))
  {}

  lemma InvSecret(w: World)
    requires Inv(w)
    ensures w.secret != ""
  {
    hide SessionGood, ProcessGood, CacheGood, AttemptGood, SubmissionGood, ReservationGood, NoncesGood, ExitsGood, OwnersDistinct, P.Good;
  }

  // ---------------------------------------------------------------------------------
  // Session creation
  // ---------------------------------------------------------------------------------

  ghost predicate AtStage(w: World, p: nat, adapter: nat, record: S.SessionRecord, stage: CreationStage) {
    && p in w.processes && w.processes[p] == Creating(adapter, record, stage)
    && record.sessionId in w.sessions && w.sessions[record.sessionId] == record
  }

  /** Only the session and its process change. */
  predicate SameElsewhere(w: World, w': World) {
    w'.gateway == w.gateway && w'.chain == w.chain && w'.attempts == w.attempts && w'.goods == w.goods
  }

  ghost predicate Leads(w: World, s: CreationStep, p: nat, adapter: nat, record: S.SessionRecord, stage: CreationStage) {
    var next := DoCreation(w, p, s);
    next.Some? && AtStage(next.value, p, adapter, record, stage) && SameElsewhere(w, next.value)
  }

  lemma Advances(w: World, p: nat, adapter: nat, r: S.SessionRecord, was: CreationStage, next: S.SessionState, stage: CreationStage)
    requires AtStage(w, p, adapter, r, was) && next in S.Allowed(r.state)
    ensures var w' := DoAdvance(w, p, r.state, next, stage);
      w'.Some? && AtStage(w'.value, p, adapter, r.(state := next, leaseExpiresAt := None), stage) && SameElsewhere(w, w'.value)
  {}

  lemma Saves(w: World, p: nat, adapter: nat, r: S.SessionRecord, was: CreationStage, r': S.SessionRecord, stage: CreationStage)
    requires AtStage(w, p, adapter, r, was) && r'.sessionId == r.sessionId
    ensures AtStage(DoSave(w, p, r', stage), p, adapter, r', stage) && SameElsewhere(w, DoSave(w, p, r', stage))
  {}

  lemma CanCompile(w: World, p: nat, adapter: nat, r: S.SessionRecord)
    requires AtStage(w, p, adapter, r, CREATED) && r.state == S.CREATED
    ensures Leads(w, CompilePolicy, p, adapter, r.(state := S.POLICY_READY, leaseExpiresAt := None), POLICY_READY)
  {
    Advances(w, p, adapter, r, CREATED, S.POLICY_READY, POLICY_READY);
    hide DoAdvance, DoSave, SameElsewhere, S.Transition, S.Allowed;
  }

  lemma CanPay(w: World, p: nat, adapter: nat, r: S.SessionRecord, limit: nat)
    requires AtStage(w, p, adapter, r, POLICY_READY) && r.state == S.POLICY_READY && limit >= r.terms.usageCap
    ensures Leads(w, VerifyPayment(limit), p, adapter, r.(state := S.PAYMENT_READY, leaseExpiresAt := None), PAID)
  {
    Advances(w, p, adapter, r, POLICY_READY, S.PAYMENT_READY, PAID);
    hide DoAdvance, DoSave, S.Transition, S.Allowed;
  }

  lemma CanSavePayment(w: World, p: nat, adapter: nat, r: S.SessionRecord, reference: Option<string>)
    requires AtStage(w, p, adapter, r, PAID)
    ensures Leads(w, SavePayment(reference), p, adapter, r.(paymentReference := reference), PAYMENT_SAVED)
  {
    Saves(w, p, adapter, r, PAID, r.(paymentReference := reference), PAYMENT_SAVED);
    hide DoAdvance, DoSave, SameElsewhere, S.Transition, S.Allowed;
  }

  lemma CanVerify(w: World, p: nat, adapter: nat, r: S.SessionRecord, k: Key)
    requires AtStage(w, p, adapter, r, PAYMENT_SAVED) && Bonded(r.terms) && BondMatches(w, k, r.terms) && w.chain.bonds[k].status == P.OPEN
    ensures Leads(w, VerifyBond(k), p, adapter, r, VERIFIED(k))
  {
    hide CacheOf;
  }

  lemma CanMark(w: World, p: nat, adapter: nat, r: S.SessionRecord, k: Key)
    requires AtStage(w, p, adapter, r, VERIFIED(k)) && r.state == S.PAYMENT_READY
    ensures Leads(w, MarkBonded, p, adapter, r.(state := S.BONDED, leaseExpiresAt := None), CreationStage.BONDED(k))
  {
    Advances(w, p, adapter, r, VERIFIED(k), S.BONDED, CreationStage.BONDED(k));
    hide DoAdvance, DoSave, SameElsewhere, S.Transition, S.Allowed;
  }

  lemma CanSaveBond(w: World, p: nat, adapter: nat, r: S.SessionRecord, k: Key)
    requires AtStage(w, p, adapter, r, CreationStage.BONDED(k))
    ensures Leads(w, SaveBond, p, adapter, r.(bondReference := Some(k)), BOND_SAVED(k))
  {
    Saves(w, p, adapter, r, CreationStage.BONDED(k), r.(bondReference := Some(k)), BOND_SAVED(k));
    hide DoAdvance, DoSave, SameElsewhere, S.Transition, S.Allowed;
  }

  lemma CanActivate(w: World, p: nat, adapter: nat, r: S.SessionRecord, k: Key)
    requires AtStage(w, p, adapter, r, BOND_SAVED(k)) && r.state == S.BONDED
    ensures Leads(w, Activate, p, adapter, r.(state := S.ACTIVE, leaseExpiresAt := None), ACTIVATED)
  {
    Advances(w, p, adapter, r, BOND_SAVED(k), S.ACTIVE, ACTIVATED);
    hide DoAdvance, DoSave, SameElsewhere, S.Transition, S.Allowed;
  }

  lemma CanHandOut(w: World, p: nat, adapter: nat, r: S.SessionRecord, tokenHash: Hash)
    requires AtStage(w, p, adapter, r, ACTIVATED)
    ensures var next := DoCreation(w, p, SaveToken(tokenHash));
      && next.Some? && SameElsewhere(w, next.value) && p !in next.value.processes
      && r.sessionId in next.value.sessions && next.value.sessions[r.sessionId] == r.(tokenHash := Some(tokenHash))
  {}

  /** The next step of a creation. */
  lemma Onward(w: World, steps: seq<Step>, s: CreationStep, p: nat, adapter: nat, record: S.SessionRecord, stage: CreationStage)
    requires SameElsewhere(w, Run(w, steps)) && Leads(Run(w, steps), s, p, adapter, record, stage)
    ensures SameElsewhere(w, Run(w, steps + [Creation(p, s)])) && AtStage(Run(w, steps + [Creation(p, s)]), p, adapter, record, stage)
  {
    hide DoCreation, Run;
    assert Next(Run(w, steps), Creation(p, s)) == DoCreation(Run(w, steps), p, s);
    hide Next;
    Then(w, steps, Creation(p, s));
  }

  lemma CanReachPaid(w: World, p: nat, adapter: nat, id: string, terms: S.Terms, limit: nat, reference: Option<string>) returns (steps: seq<Step>, r: S.SessionRecord)
    requires p !in w.processes && id !in w.sessions && ':' !in id && ValidTerms(terms) && limit >= terms.usageCap
    ensures var w' := Run(w, steps);
      && SameElsewhere(w, w') && AtStage(w', p, adapter, r, PAYMENT_SAVED)
      && r == FreshRecord(id, terms).(state := S.PAYMENT_READY, paymentReference := reference)
  {
    r := FreshRecord(id, terms);
    steps := [CreateSession(p, adapter, id, terms)];
    RunOne(w, steps[0]);
    hide Next, Run, Leads, AtStage, SameElsewhere;
    var w1 := Run(w, steps);
    assert AtStage(w1, p, adapter, r, CREATED) && SameElsewhere(w, w1) by { FirstStage(w, p, adapter, id, terms); }
    CanCompile(w1, p, adapter, r);
    r := r.(state := S.POLICY_READY, leaseExpiresAt := None);
    Onward(w, steps, CompilePolicy, p, adapter, r, POLICY_READY);
    steps := steps + [Creation(p, CompilePolicy)];
    CanPay(Run(w, steps), p, adapter, r, limit);
    r := r.(state := S.PAYMENT_READY, leaseExpiresAt := None);
    Onward(w, steps, VerifyPayment(limit), p, adapter, r, PAID);
    steps := steps + [Creation(p, VerifyPayment(limit))];
    CanSavePayment(Run(w, steps), p, adapter, r, reference);
    r := r.(paymentReference := reference);
    Onward(w, steps, SavePayment(reference), p, adapter, r, PAYMENT_SAVED);
    steps := steps + [Creation(p, SavePayment(reference))];
  }

  lemma FirstStage(w: World, p: nat, adapter: nat, id: string, terms: S.Terms)
    requires DoCreateSession(w, p, adapter, id, terms).Some?
    ensures var w' := DoCreateSession(w, p, adapter, id, terms).value;
      AtStage(w', p, adapter, FreshRecord(id, terms), CREATED) && SameElsewhere(w, w') && Run(w, [CreateSession(p, adapter, id, terms)]) == w'
  {
    assert Next(w, CreateSession(p, adapter, id, terms)) == DoCreateSession(w, p, adapter, id, terms);
    RunOne(w, CreateSession(p, adapter, id, terms));
  }

  lemma CanReachActive(w: World, p: nat, adapter: nat, r: S.SessionRecord, k: Key, tokenHash: Hash) returns (steps: seq<Step>)
    requires AtStage(w, p, adapter, r, PAYMENT_SAVED) && r.state == S.PAYMENT_READY && Bonded(r.terms)
    requires BondMatches(w, k, r.terms) && w.chain.bonds[k].status == P.OPEN
    ensures var w' := Run(w, steps);
      && SameElsewhere(w, w') && p !in w'.processes && r.sessionId in w'.sessions
      && w'.sessions[r.sessionId] == r.(state := S.ACTIVE, leaseExpiresAt := None, bondReference := Some(k), tokenHash := Some(tokenHash))
  {
    steps := [];
    assert Run(w, []) == w && SameElsewhere(w, w);
    hide Next, Run, Leads, AtStage, BondMatches;
    CanVerify(w, p, adapter, r, k);
    Onward(w, steps, VerifyBond(k), p, adapter, r, VERIFIED(k));
    steps := steps + [Creation(p, VerifyBond(k))];
    CanMark(Run(w, steps), p, adapter, r, k);
    var r1 := r.(state := S.BONDED, leaseExpiresAt := None);
    Onward(w, steps, MarkBonded, p, adapter, r1, CreationStage.BONDED(k));
    steps := steps + [Creation(p, MarkBonded)];
    CanSaveBond(Run(w, steps), p, adapter, r1, k);
    var r2 := r1.(bondReference := Some(k));
    Onward(w, steps, SaveBond, p, adapter, r2, BOND_SAVED(k));
    steps := steps + [Creation(p, SaveBond)];
    CanActivate(Run(w, steps), p, adapter, r2, k);
    var r3 := r2.(state := S.ACTIVE, leaseExpiresAt := None);
    Onward(w, steps, Activate, p, adapter, r3, ACTIVATED);
    steps := steps + [Creation(p, Activate)];
    HandedOut(w, steps, p, adapter, r3, tokenHash);
    steps := steps + [Creation(p, SaveToken(tokenHash))];
  }

  lemma HandedOut(w: World, steps: seq<Step>, p: nat, adapter: nat, r: S.SessionRecord, tokenHash: Hash)
    requires SameElsewhere(w, Run(w, steps)) && AtStage(Run(w, steps), p, adapter, r, ACTIVATED)
    ensures var w' := Run(w, steps + [Creation(p, SaveToken(tokenHash))]);
      && SameElsewhere(w, w') && p !in w'.processes && r.sessionId in w'.sessions && w'.sessions[r.sessionId] == r.(tokenHash := Some(tokenHash))
  {
    CanHandOut(Run(w, steps), p, adapter, r, tokenHash);
    hide DoCreation, Run;
    assert Next(Run(w, steps), Creation(p, SaveToken(tokenHash))) == DoCreation(Run(w, steps), p, SaveToken(tokenHash));
    hide Next;
    Then(w, steps, Creation(p, SaveToken(tokenHash)));
  }

  /** A creation that nobody disturbs ends with an active session on its verified bond. */
  lemma UndisturbedCreationCompletes(w: World, p: nat, adapter: nat, id: string, terms: S.Terms, limit: nat, reference: Option<string>,
                                     k: Key, tokenHash: Hash) returns (steps: seq<Step>)
    requires p !in w.processes && id !in w.sessions && ':' !in id && ValidTerms(terms) && Bonded(terms) && limit >= terms.usageCap
    requires BondMatches(w, k, terms) && w.chain.bonds[k].status == P.OPEN
    ensures var w' := Run(w, steps);
      && SameElsewhere(w, w') && p !in w'.processes && id in w'.sessions
      && w'.sessions[id] == FreshRecord(id, terms).(state := S.ACTIVE, paymentReference := reference, bondReference := Some(k), tokenHash := Some(tokenHash))
  {
    hide Next, Run, AtStage, ValidTerms;
    var a, r := CanReachPaid(w, p, adapter, id, terms, limit, reference);
    var b := CanReachActive(Run(w, a), p, adapter, r, k, tokenHash);
    RunAppend(w, a, b);
    steps := a + b;
  }

  /** A session that does not exist has left no trace. */
  lemma NothingWithoutSession(w: World, id: string)
    requires Inv(w) && id !in w.sessions
    ensures CloseKey(id) !in w.attempts && !V.HasActive(w.goods.reservations, id)
  {
    hide AttemptGood, ReservationGood, SessionsGood, NoncesGood, CachesGood, SubmissionsGood, ProcessesGood, OwnersDistinct, ExitsGood, P.Good;
    if CloseKey(id) in w.attempts {
      AttemptFact(w, CloseKey(id));
      AttemptHasSession(w, CloseKey(id));
    }
    if V.HasActive(w.goods.reservations, id) {
      var r :| r in w.goods.reservations && w.goods.reservations[r].sessionId == id;
      ReservationFact(w, r);
      ReservationHasSession(w, r);
    }
  }

  lemma AttemptHasSession(w: World, key: SettlementKey)
    requires key in w.attempts && AttemptGood(w, key)
    ensures key.sessionId in w.sessions
  {}

  lemma ReservationHasSession(w: World, r: string)
    requires r in w.goods.reservations && ReservationGood(w, r)
    ensures w.goods.reservations[r].sessionId in w.sessions
  {}

  lemma NothingCached(w: World, adapter: nat, key: SettlementKey)
    requires Inv(w) && key !in w.attempts
    ensures key !in CacheOf(w, adapter).settledResults
  {
    hide SessionsGood, ReservationsGood, AttemptsGood, NoncesGood, SubmissionsGood, ProcessesGood, OwnersDistinct, ExitsGood, P.Good;
    CacheOfGood(w, adapter);
  }
}
