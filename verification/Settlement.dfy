/**
 * The settlement protocol as a step system: session creation, the close route, the expire branch
 * of the access route and the expiry worker (apps/gateway/src/app.ts,
 * apps/gateway/src/expiry-processor.ts) driving any number of sessions, bonds and adapter
 * instances over the bond program and the repository. Every repository call and every chain
 * instruction is one atomic step; in between, anything else may happen and a process may die.
 */
module Settlement {
  import opened Wrappers
  import opened Primitives
  import opened AdapterContract
  import opened SettlementEvidence
  import opened SettlementJournal
  import S = Sessions
  import V = Inventory
  import P = BondProgram
  import B = BondAdapter

  // ---------------------------------------------------------------------------------
  // State
  // ---------------------------------------------------------------------------------

  datatype Kind = CLOSE_ROUTE | EXPIRE_ROUTE | EXPIRY_WORKER

  /** What a settling process was asked to do and the session record it has read. */
  datatype Task = Task(kind: Kind, adapter: nat, sessionId: string, reservationId: string, session: S.SessionRecord)

  /** A task with its journal entry and the request it makes of the adapter. */
  datatype Case = Case(task: Task, usage: nat, attempt: Attempt, request: B.Request)

  datatype CreationStage =
    | CREATED | POLICY_READY | PAID | PAYMENT_SAVED | VERIFIED(bond: Key) | BONDED(bond: Key) | BOND_SAVED(bond: Key) | ACTIVATED

  /** Where a process stands between two atomic steps. */
  datatype Process =
    | Creating(adapter: nat, record: S.SessionRecord, stage: CreationStage)
    | Entered(task: Task)
    | Examined(task: Task)
    | Locked(task: Task)
    | Journaled(c: Case)
    | Granted(c: Case)
    | Asking(c: Case, bond: Key, receiptHash: Hash)
    | Recovering(c: Case, penalty: nat, bondRefunded: nat)
    | Submitted(c: Case, tx: nat)
    | Answered(c: Case, result: AdapterResult, saves: nat)
    | Settled(task: Task, usage: nat, amounts: Amounts)
    | Finalized(task: Task, usage: nat, amounts: Amounts, reservation: V.Reservation)
    | Finishing(task: Task, usage: nat, amounts: Amounts)
    | Closing(adapter: nat, record: S.SessionRecord, receipt: S.Receipt)

  /** A transaction handed to the network. It may land now, later or never. */
  datatype Submission = Submission(key: SettlementKey, bond: Key, instruction: P.Instruction, landed: bool)

  /** `paid`, `verified` and `settledBy` are history: the usage limit a session's payment was
      verified for, the bond verified for it, and the attempt whose transaction ended a bond. */
  datatype World = World(
    gateway: Key, secret: string,
    chain: P.Chain,
    sessions: S.Table, goods: V.Memory, attempts: map<SettlementKey, Attempt>, nonces: map<Nonce, Hash>,
    caches: map<nat, B.Cache>, submissions: seq<Submission>, processes: map<nat, Process>,
    paid: map<string, nat>, verified: map<string, Key>, settledBy: map<Key, SettlementKey>)

  predicate Bonded(t: S.Terms) {
    t.bondedActions != []
  }

  /** What policy validation guarantees about the amounts. */
  predicate ValidTerms(t: S.Terms) {
    && t.maxPenalty <= t.bondAmount
    && forall i | 0 <= i < |t.bondedActions| :: t.bondedActions[i].expiryPenalty <= t.maxPenalty
  }

  function FreshRecord(sessionId: string, terms: S.Terms): S.SessionRecord {
    S.SessionRecord(sessionId, terms, S.CREATED, None, 0, map[], [], None, None, None, None)
  }

  function FindAction(actions: seq<S.BondedAction>): Option<S.BondedAction> {
    if actions == [] then None
    else if actions[0].operationId == "reserve-inventory" then Some(actions[0])
    else FindAction(actions[1..])
  }

  /** The expire route takes the first bonded action; the worker looks for the reservation. */
  function ExpiryPenalty(kind: Kind, t: S.Terms): nat
    requires Bonded(t)
  {
    if kind == EXPIRY_WORKER && FindAction(t.bondedActions).Some? then FindAction(t.bondedActions).value.expiryPenalty
    else t.bondedActions[0].expiryPenalty
  }

  function TaskKey(t: Task): SettlementKey {
    if t.kind == CLOSE_ROUTE then CloseKey(t.sessionId) else ExpiryKey(t.sessionId, t.reservationId)
  }

  function TaskPenalty(t: Task): nat
    requires Bonded(t.session.terms)
  {
    if t.kind == CLOSE_ROUTE then 0 else ExpiryPenalty(t.kind, t.session.terms)
  }

  function NewPayload(t: Task, usage: nat, issuedAt: string, authority: string): Payload
    requires Bonded(t.session.terms)
  {
    var terms := t.session.terms;
    var penalty := TaskPenalty(t);
    Payload(t.sessionId, terms.policyHash, if t.kind == CLOSE_ROUTE then None else Some(t.reservationId),
            if t.kind == CLOSE_ROUTE then VALID_CLOSE else EXPIRED_RESERVATION,
            usage, penalty, if penalty <= terms.bondAmount then terms.bondAmount - penalty else 0,
            B.NonceOf(TaskKey(t)), issuedAt, authority)
  }

  /** The adapter call of a task, with the evidence that is in the journal. */
  function NewRequest(t: Task, evidence: Evidence): B.Request
    requires Bonded(t.session.terms)
  {
    var terms := t.session.terms;
    if t.kind == CLOSE_ROUTE then
      B.CloseRequest(t.sessionId, t.session.bondReference, terms.policyHash, terms.bondAmount, Some(evidence))
    else
      B.ExpiryRequest(t.sessionId, t.session.bondReference, terms.policyHash, TaskPenalty(t), terms.maxPenalty, terms.bondAmount, t.reservationId, Some(evidence))
  }

  function CacheOf(w: World, adapter: nat): B.Cache {
    if adapter in w.caches then w.caches[adapter] else B.EMPTY
  }

  function AdapterOf(pr: Process): nat {
    match pr
    case Creating(a, _, _) => a
    case Entered(t) => t.adapter
    case Examined(t) => t.adapter
    case Locked(t) => t.adapter
    case Journaled(c) => c.task.adapter
    case Granted(c) => c.task.adapter
    case Asking(c, _, _) => c.task.adapter
    case Recovering(c, _, _) => c.task.adapter
    case Submitted(c, _) => c.task.adapter
    case Answered(c, _, _) => c.task.adapter
    case Settled(t, _, _) => t.adapter
    case Finalized(t, _, _, _) => t.adapter
    case Finishing(t, _, _) => t.adapter
    case Closing(a, _, _) => a
  }

  function FetchFrom(c: P.Chain, bond: Key, reachable: bool): B.Fetch {
    if !reachable then B.Unreachable else if bond in c.bonds then B.Found(c.bonds[bond]) else B.Missing
  }

  /** The transaction the client builds from the account it has read. */
  function SettlementInstruction(gateway: Key, bond: Key, b: P.Bond, q: B.Request, receiptHash: Hash): P.Instruction
    requires B.PenaltyOf(q) <= U64_MAX
  {
    if q.CloseRequest? then P.CloseValid(gateway, bond, Ata(b.agent, b.mint), receiptHash)
    else P.SettleViolation(gateway, bond, Ata(b.agent, b.mint), Ata(b.merchant, b.mint), receiptHash, q.penalty)
  }

  // ---------------------------------------------------------------------------------
  // Session creation (apps/gateway/src/app.ts:415-512); None: not enabled here
  // ---------------------------------------------------------------------------------

  function With(w: World, p: nat, pr: Process): World {
    w.(processes := w.processes[p := pr])
  }

  function DoCreateSession(w: World, p: nat, adapter: nat, sessionId: string, terms: S.Terms): Option<World> {
    if p in w.processes || sessionId in w.sessions || ':' in sessionId || !ValidTerms(terms) then None
    else
      var record := FreshRecord(sessionId, terms);
      Some(With(w.(sessions := w.sessions[sessionId := record]), p, Creating(adapter, record, CREATED)))
  }

  /** A transition by the creating process, which keeps the returned record. */
  function DoAdvance(w: World, p: nat, expected: S.SessionState, next: S.SessionState, stage: CreationStage): Option<World>
    requires p in w.processes && w.processes[p].Creating?
  {
    var pr := w.processes[p];
    match S.Transition(w.sessions, pr.record.sessionId, expected, next)
    case Err(_) => None
    case Ok(record) => Some(With(w.(sessions := w.sessions[pr.record.sessionId := record]), p, Creating(pr.adapter, record, stage)))
  }

  /** `saveSession`: a blind write of the process's own copy. */
  function DoSave(w: World, p: nat, record: S.SessionRecord, stage: CreationStage): World
    requires p in w.processes && w.processes[p].Creating?
  {
    With(w.(sessions := w.sessions[record.sessionId := record]), p, Creating(w.processes[p].adapter, record, stage))
  }

  function DoVerifyPayment(w: World, p: nat, limit: nat): Option<World>
    requires p in w.processes && w.processes[p].Creating?
  {
    var record := w.processes[p].record;
    if limit < record.terms.usageCap then None
    else
      match DoAdvance(w, p, S.POLICY_READY, S.PAYMENT_READY, PAID)
      case None => None
      case Some(w') => Some(w'.(paid := w'.paid[record.sessionId := limit]))
  }

  function DoVerifyBond(w: World, p: nat, account: Key): Option<World>
    requires p in w.processes && w.processes[p].Creating?
  {
    var pr := w.processes[p];
    var terms := pr.record.terms;
    if B.CheckOpenBond(FetchFrom(w.chain, account, true), terms.policyHash, terms.bondAmount, terms.maxPenalty).Some? then None
    else
      var cache := CacheOf(w, pr.adapter);
      Some(With(w.(caches := w.caches[pr.adapter := cache.(sessions := cache.sessions[pr.record.sessionId := account])],
                   verified := w.verified[pr.record.sessionId := account]),
                p, Creating(pr.adapter, pr.record, VERIFIED(account))))
  }

  datatype CreationStep =
    | CompilePolicy | VerifyPayment(limit: nat) | SavePayment(reference: Option<string>) | VerifyBond(account: Key)
    | MarkBonded | SaveBond | Activate | SaveToken(tokenHash: Hash) | AbortCreation

  function DoCreation(w: World, p: nat, s: CreationStep): Option<World> {
    if p !in w.processes || !w.processes[p].Creating? then None
    else
      var pr := w.processes[p];
      var record := pr.record;
      match (s, pr.stage)
      case (CompilePolicy, CREATED) => DoAdvance(w, p, S.CREATED, S.POLICY_READY, POLICY_READY)
      case (VerifyPayment(limit), POLICY_READY) => DoVerifyPayment(w, p, limit)
      case (SavePayment(reference), PAID) => Some(DoSave(w, p, record.(paymentReference := reference), PAYMENT_SAVED))
      case (VerifyBond(account), PAYMENT_SAVED) => if Bonded(record.terms) then DoVerifyBond(w, p, account) else None
      case (MarkBonded, VERIFIED(bond)) => DoAdvance(w, p, S.PAYMENT_READY, S.BONDED, BONDED(bond))
      case (SaveBond, BONDED(bond)) => Some(DoSave(w, p, record.(bondReference := Some(bond)), BOND_SAVED(bond)))
      case (Activate, BOND_SAVED(_)) => DoAdvance(w, p, S.BONDED, S.ACTIVE, ACTIVATED)
      case (Activate, PAYMENT_SAVED) => if Bonded(record.terms) then None else DoAdvance(w, p, S.PAYMENT_READY, S.ACTIVE, ACTIVATED)
      case (SaveToken(tokenHash), ACTIVATED) =>
        var saved := record.(tokenHash := Some(tokenHash));
        Some(w.(sessions := w.sessions[record.sessionId := saved], processes := w.processes - {p}))
      case (AbortCreation, stage) =>
        if (stage.POLICY_READY? || stage.PAYMENT_SAVED?) && record.sessionId in w.sessions
           && w.sessions[record.sessionId].state in {S.CREATED, S.POLICY_READY, S.PAYMENT_READY, S.BONDED} then
          Some(w.(sessions := w.sessions - {record.sessionId}, processes := w.processes - {p}))
        else None
      case _ => None
  }

  // ---------------------------------------------------------------------------------
  // Settling a session (close route, expire route, expiry worker)
  // ---------------------------------------------------------------------------------

  /** A route is entered with the session's token; the worker lists the sessions. */
  function DoEnter(w: World, p: nat, kind: Kind, adapter: nat, sessionId: string, reservationId: string): Option<World> {
    if p in w.processes || sessionId !in w.sessions then None
    else
      var session := w.sessions[sessionId];
      if (if kind == EXPIRY_WORKER then session.state in {S.ACTIVE, S.SETTLING} && Bonded(session.terms)
          else session.tokenHash.Some? && (session.state == S.ACTIVE || (kind == CLOSE_ROUTE && session.state == S.SETTLING)))
      then Some(With(w, p, Entered(Task(kind, adapter, sessionId, reservationId, session))))
      else None
  }

  /** The close route refuses while a reservation is active; the others need an active one that
      has expired. This is a read only: it may be out of date at the next step. */
  function DoExamine(w: World, p: nat, now: int): Option<World> {
    if p !in w.processes || !w.processes[p].Entered? then None
    else
      var t := w.processes[p].task;
      if t.kind == CLOSE_ROUTE then
        if V.HasActive(w.goods.reservations, t.sessionId) then None else Some(With(w, p, Examined(t)))
      else if t.reservationId in w.goods.reservations
              && var r := w.goods.reservations[t.reservationId]; r.sessionId == t.sessionId && r.state == V.ACTIVE && r.expiresAt <= now then
        Some(With(w, p, Examined(t)))
      else None
  }

  const LEASE_MS: nat := 30_000

  /** The expire route locks with a plain transition, the others claim the lease. */
  function DoLock(w: World, p: nat, now: int): Option<World> {
    if p !in w.processes || !w.processes[p].Examined? then None
    else
      var t := w.processes[p].task;
      if t.kind == EXPIRE_ROUTE then
        (match S.Transition(w.sessions, t.sessionId, S.ACTIVE, S.SETTLING)
         case Err(_) => None
         case Ok(record) => Some(With(w.(sessions := w.sessions[t.sessionId := record]), p, Locked(t))))
      else
        (match S.Claim(w.sessions, t.sessionId, now, LEASE_MS)
         case Ok(Some(record)) =>
           Some(With(w.(sessions := w.sessions[t.sessionId := record]), p,
                     Locked(if t.kind == CLOSE_ROUTE then t.(session := record) else t)))
         case _ => None)
  }

  /** The usage charge is confirmed and within the cap; an existing attempt wins over a new one. */
  function DoJournal(w: World, p: nat, usage: nat, issuedAt: string, authority: string, now: int): Option<World> {
    if p !in w.processes || !w.processes[p].Locked? then None
    else
      var t := w.processes[p].task;
      if ValidateUsage(Some(usage), t.session.terms.usageCap) == None || !Bonded(t.session.terms) then None
      else
        match CreateEvidence(NewPayload(t, usage, issuedAt, authority), w.secret)
        case None => None
        case Some(evidence) =>
          var attempts := Create(w.attempts, Attempt(TaskKey(t), evidence, PENDING, true, None, None, now, now));
          var stored := attempts[TaskKey(t)];
          Some(With(w.(attempts := attempts), p, Journaled(Case(t, usage, stored, NewRequest(t, stored.evidence)))))
  }

  /** Closing a session without bonded actions involves no bond. */
  function DoSkipBond(w: World, p: nat, usage: nat): Option<World> {
    if p !in w.processes || !w.processes[p].Locked? then None
    else
      var t := w.processes[p].task;
      if t.kind != CLOSE_ROUTE || Bonded(t.session.terms) || ValidateUsage(Some(usage), t.session.terms.usageCap) == None then None
      else Some(With(w, p, Settled(t, usage, Amounts(0, 0))))
  }

  function DoGrantNonce(w: World, p: nat): Option<World> {
    if p !in w.processes || !w.processes[p].Journaled? then None
    else
      var c := w.processes[p].c;
      var e := c.attempt.evidence;
      if !NonceGranted(w.nonces, e.payload.nonce, e.evidenceHash) then None
      else Some(With(w.(nonces := ClaimNonce(w.nonces, e.payload.nonce, e.evidenceHash)), p, Granted(c)))
  }

  /** `secret` is the one this adapter instance was configured with. */
  function DoBeginCall(w: World, p: nat, secret: string): Option<World> {
    if p !in w.processes || !w.processes[p].Granted? then None
    else
      var c := w.processes[p].c;
      var (begun, cache) := B.Begin(CacheOf(w, c.task.adapter), secret, c.request);
      Some(With(w.(caches := w.caches[c.task.adapter := cache]), p,
                match begun
                case Answer(result) => Answered(c, result, 2)
                case Ask(bond, receiptHash) => Asking(c, bond, receiptHash)))
  }

  function DoFetch(w: World, p: nat, reachable: bool): Option<World> {
    if p !in w.processes || !w.processes[p].Asking? then None
    else
      var pr := w.processes[p];
      var c := pr.c;
      match B.Decide(c.request, pr.receiptHash, FetchFrom(w.chain, pr.bond, reachable))
      case Reply(result) => Some(With(w, p, Answered(c, result, 2)))
      case Recover(penalty, refunded) => Some(With(w, p, Recovering(c, penalty, refunded)))
      case Submit =>
        if B.PenaltyOf(c.request) > U64_MAX || pr.bond !in w.chain.bonds then None
        else
          var instruction := SettlementInstruction(w.gateway, pr.bond, w.chain.bonds[pr.bond], c.request, pr.receiptHash);
          Some(With(w.(submissions := w.submissions + [Submission(TaskKey(c.task), pr.bond, instruction, false)]), p, Submitted(c, |w.submissions|)))
  }

  function DoRecordRecovery(w: World, p: nat, latest: Option<string>): Option<World> {
    if p !in w.processes || !w.processes[p].Recovering? then None
    else
      var pr := w.processes[p];
      var result := Confirmation(latest, pr.penalty, pr.bondRefunded);
      var a := pr.c.task.adapter;
      Some(With(w.(caches := w.caches[a := B.Remember(CacheOf(w, a), B.KeyOf(pr.c.request), result)]), p, Answered(pr.c, result, 2)))
  }

  /** A submitted transaction takes effect on chain, at any time after its submission. */
  function DoLand(w: World, tx: nat): Option<World> {
    if tx >= |w.submissions| || w.submissions[tx].landed then None
    else
      var s := w.submissions[tx];
      match P.Execute(w.chain, s.instruction)
      case Err(_) => None
      case Ok(chain) =>
        Some(w.(chain := chain, submissions := w.submissions[tx := s.(landed := true)], settledBy := w.settledBy[s.bond := s.key]))
  }

  /** The success response reaches the process. */
  function DoConfirm(w: World, p: nat, signature: string): Option<World> {
    if p !in w.processes || !w.processes[p].Submitted? then None
    else
      var pr := w.processes[p];
      if pr.tx >= |w.submissions| || !w.submissions[pr.tx].landed then None
      else
        var q := pr.c.request;
        var result := Confirmation(Some(signature), B.PenaltyOf(q), B.RefundOf(q));
        var a := pr.c.task.adapter;
        Some(With(w.(caches := w.caches[a := B.RememberSubmitted(CacheOf(w, a), q, result)]), p, Answered(pr.c, result, 2)))
  }

  /** The send fails or its response is lost, whether or not the transaction lands. */
  function DoLoseResponse(w: World, p: nat, code: FailureCode): Option<World> {
    if p !in w.processes || !w.processes[p].Submitted? then None
    else Some(With(w, p, Answered(w.processes[p].c, Failure(code), 2)))
  }

  /** `updateSettlementAttempt`, twice: after the call and after polling. */
  function DoSaveResult(w: World, p: nat, now: int): Option<World> {
    if p !in w.processes || !w.processes[p].Answered? || w.processes[p].saves == 0 then None
    else
      var pr := w.processes[p];
      match Save(w.attempts, WithResult(pr.c.attempt, pr.result, now))
      case Err(_) => None
      case Ok(attempts) =>
        Some(With(w.(attempts := attempts), p, Answered(pr.c.(attempt := attempts[pr.c.attempt.key]), pr.result, pr.saves - 1)))
  }

  function DoValidate(w: World, p: nat): Option<World> {
    if p !in w.processes || !w.processes[p].Answered? || w.processes[p].saves != 0 || w.processes[p].result.status != CONFIRMED then None
    else
      var pr := w.processes[p];
      var t := pr.c.task;
      if !Bonded(t.session.terms) then None
      else
        match (if t.kind == CLOSE_ROUTE then ValidateValidClose(pr.result, t.session.terms.bondAmount)
               else ValidateExpiredReservation(pr.result, TaskPenalty(t), t.session.terms.maxPenalty, t.session.terms.bondAmount))
        case None => None
        case Some(amounts) => Some(With(w, p, Settled(t, pr.c.usage, amounts)))
  }

  /** Only the worker stops when somebody else has finalised the reservation. */
  function DoFinalizeReservation(w: World, p: nat, now: int): Option<World> {
    if p !in w.processes || !w.processes[p].Settled? then None
    else
      var pr := w.processes[p];
      if pr.task.kind == CLOSE_ROUTE then Some(With(w, p, Finishing(pr.task, pr.usage, pr.amounts)))
      else
        match V.MemoryFinalize(w.goods, pr.task.sessionId, pr.task.reservationId, V.EXPIRED, now)
        case (goods, Ok(finalized)) =>
          if pr.task.kind == EXPIRY_WORKER && !finalized.changed then None
          else Some(With(w.(goods := goods), p, Finalized(pr.task, pr.usage, pr.amounts, finalized.reservation)))
        case (_, Err(_)) => None
  }

  /** `saveReservation`: another blind write. */
  function DoMarkSettled(w: World, p: nat): Option<World> {
    if p !in w.processes || !w.processes[p].Finalized? then None
    else
      var pr := w.processes[p];
      var r := pr.reservation.(settlementRequested := true);
      Some(With(w.(goods := w.goods.(reservations := w.goods.reservations[r.reservationId := r])), p, Finishing(pr.task, pr.usage, pr.amounts)))
  }

  /** The routes report the calls the session has, the worker those it had when it was listed. */
  function DoFinish(w: World, p: nat): Option<World> {
    if p !in w.processes || !w.processes[p].Finishing? then None
    else
      var pr := w.processes[p];
      var outcome := if pr.task.kind == CLOSE_ROUTE then S.CLOSED else S.EXPIRED;
      match S.Transition(w.sessions, pr.task.sessionId, S.SETTLING, outcome)
      case Err(_) => None
      case Ok(record) =>
        var calls := if pr.task.kind == EXPIRY_WORKER then pr.task.session.calls else record.calls;
        var receipt := S.Receipt(outcome, calls, pr.usage, pr.amounts.bondRefunded, pr.amounts.penalty);
        Some(With(w.(sessions := w.sessions[pr.task.sessionId := record]), p, Closing(pr.task.adapter, record, receipt)))
  }

  function DoStoreReceipt(w: World, p: nat): Option<World> {
    if p !in w.processes || !w.processes[p].Closing? then None
    else
      var pr := w.processes[p];
      Some(w.(sessions := w.sessions[pr.record.sessionId := pr.record.(receipt := Some(pr.receipt))], processes := w.processes - {p}))
  }

  // ---------------------------------------------------------------------------------
  // Everything else
  // ---------------------------------------------------------------------------------

  /** `transitionSession(SETTLING, ACTIVE)` is not owner-checked: any request whose handler
      fails may do it to any session at any time. */
  function DoUnlock(w: World, sessionId: string): Option<World> {
    match S.Transition(w.sessions, sessionId, S.SETTLING, S.ACTIVE)
    case Err(_) => None
    case Ok(record) => Some(w.(sessions := w.sessions[sessionId := record]))
  }

  /** A restarted adapter has lost its caches and the processes that used it. */
  function DoRestart(w: World, adapter: nat): World {
    w.(caches := w.caches - {adapter},
       processes := map p | p in w.processes && AdapterOf(w.processes[p]) != adapter :: w.processes[p])
  }

  function DoCount(w: World, sessionId: string, request: S.Request, expected: S.SessionState): Option<World> {
    if sessionId !in w.sessions || w.sessions[sessionId].tokenHash == None || expected !in {S.ACTIVE, S.SETTLING} then None
    else
      match S.ReserveRequest(w.sessions, sessionId, request, expected)
      case Err(_) => None
      case Ok(record) => Some(w.(sessions := w.sessions[sessionId := record]))
  }

  function DoReserve(w: World, sessionId: string, productId: string, now: int, expiresAt: int): Option<World> {
    if sessionId !in w.sessions || w.sessions[sessionId].tokenHash == None || '_' in productId
       || w.sessions[sessionId].bondReference == None || !Bonded(w.sessions[sessionId].terms) then None
    else
      match V.MemoryCreate(w.goods, V.Reservation(V.ReservationId(sessionId, productId), sessionId, productId, 1, now, expiresAt, V.ACTIVE, false))
      case Err(_) => None
      case Ok(goods) => Some(w.(goods := goods))
  }

  /** Transactions of agents, merchants, other settlement authorities and strangers. The gateway's
      authority settles through its adapters only. */
  predicate Foreign(w: World, i: P.Instruction) {
    (i.CloseValid? || i.SettleViolation?) ==> i.signer != w.gateway
  }

  datatype Step =
    | CreateSession(p: nat, adapter: nat, sessionId: string, terms: S.Terms)
    | Creation(p: nat, creation: CreationStep)
    | Enter(p: nat, kind: Kind, adapter: nat, sessionId: string, reservationId: string)
    | Examine(p: nat, now: int)
    | Lock(p: nat, now: int)
    | Journal(p: nat, usage: nat, issuedAt: string, authority: string, now: int)
    | SkipBond(p: nat, usage: nat)
    | GrantNonce(p: nat)
    | BeginCall(p: nat, adapterSecret: string)
    | FetchBond(p: nat, reachable: bool)
    | RecordRecovery(p: nat, latest: Option<string>)
    | Land(tx: nat)
    | Confirm(p: nat, signature: string)
    | LoseResponse(p: nat, code: FailureCode)
    | SaveResult(p: nat, now: int)
    | Validate(p: nat)
    | FinalizeReservation(p: nat, now: int)
    | MarkSettled(p: nat)
    | Finish(p: nat)
    | StoreReceipt(p: nat)
    | Unlock(sessionId: string)
    | Crash(p: nat)
    | Restart(adapter: nat)
    | CountRequest(sessionId: string, request: S.Request, expected: S.SessionState)
    | MakeReservation(sessionId: string, productId: string, now: int, expiresAt: int)
    | EndReservation(sessionId: string, reservationId: string, state: V.ReservationState, now: int)
    | Onchain(instruction: P.Instruction)

  function Next(w: World, s: Step): Option<World> {
    match s
    case CreateSession(p, adapter, id, terms) => DoCreateSession(w, p, adapter, id, terms)
    case Creation(p, creation) => DoCreation(w, p, creation)
    case Enter(p, kind, adapter, id, reservation) => DoEnter(w, p, kind, adapter, id, reservation)
    case Examine(p, now) => DoExamine(w, p, now)
    case Lock(p, now) => DoLock(w, p, now)
    case Journal(p, usage, issuedAt, authority, now) => DoJournal(w, p, usage, issuedAt, authority, now)
    case SkipBond(p, usage) => DoSkipBond(w, p, usage)
    case GrantNonce(p) => DoGrantNonce(w, p)
    case BeginCall(p, secret) => DoBeginCall(w, p, secret)
    case FetchBond(p, reachable) => DoFetch(w, p, reachable)
    case RecordRecovery(p, latest) => DoRecordRecovery(w, p, latest)
    case Land(tx) => DoLand(w, tx)
    case Confirm(p, signature) => DoConfirm(w, p, signature)
    case LoseResponse(p, code) => DoLoseResponse(w, p, code)
    case SaveResult(p, now) => DoSaveResult(w, p, now)
    case Validate(p) => DoValidate(w, p)
    case FinalizeReservation(p, now) => DoFinalizeReservation(w, p, now)
    case MarkSettled(p) => DoMarkSettled(w, p)
    case Finish(p) => DoFinish(w, p)
    case StoreReceipt(p) => DoStoreReceipt(w, p)
    case Unlock(id) => DoUnlock(w, id)
    case Crash(p) => Some(w.(processes := w.processes - {p}))
    case Restart(adapter) => Some(DoRestart(w, adapter))
    case CountRequest(id, request, expected) => DoCount(w, id, request, expected)
    case MakeReservation(id, product, now, expiresAt) => DoReserve(w, id, product, now, expiresAt)
    case EndReservation(id, reservation, state, now) =>
      if state == V.ACTIVE then None else Some(w.(goods := V.MemoryFinalize(w.goods, id, reservation, state, now).0))
    case Onchain(i) => if Foreign(w, i) then Some(w.(chain := P.Apply(w.chain, i))) else None
  }

  /** A run: steps that are not enabled are skipped. */
  function Run(w: World, steps: seq<Step>): World
    decreases |steps|
  {
    if steps == [] then w
    else Run(match Next(w, steps[0]) case Some(w') => w' case None => w, steps[1..])
  }
}
