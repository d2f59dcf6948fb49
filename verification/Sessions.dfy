/**
 * Session records and the operations both repositories perform on them atomically
 * (apps/gateway/src/repository.ts, apps/gateway/src/firestore-repository.ts): the transition
 * graph, the settlement lease and the request counters. Times are milliseconds.
 */
module Sessions {
  import opened Wrappers
  import opened Primitives
  import opened Sums

  datatype SessionState = CREATED | POLICY_READY | PAYMENT_READY | BONDED | ACTIVE | SETTLING | CLOSED | VIOLATED | EXPIRED

  datatype BondedAction = BondedAction(operationId: string, expiryPenalty: nat)

  /** The part of a session's policy that settlement depends on. */
  datatype Terms = Terms(policyHash: Hash, usageCap: nat, bondAmount: nat, maxPenalty: nat, bondedActions: seq<BondedAction>)

  datatype Receipt = Receipt(outcome: SessionState, calls: nat, usageCharged: nat, bondRefunded: nat, penalty: nat)

  datatype SessionRecord = SessionRecord(
    sessionId: string, terms: Terms, state: SessionState, tokenHash: Option<Hash>,
    calls: nat, operationCalls: map<string, nat>, requestTimestamps: seq<int>,
    paymentReference: Option<string>, bondReference: Option<Key>, leaseExpiresAt: Option<int>, receipt: Option<Receipt>)

  type Table = map<string, SessionRecord>

  datatype SessionError =
    | SESSION_NOT_FOUND | INVALID_STATE_TRANSITION | SESSION_NOT_ACTIVE
    | OPERATION_CALL_LIMIT | TOTAL_CALL_LIMIT | RATE_LIMIT

  function Allowed(s: SessionState): set<SessionState> {
    match s
    case CREATED => {POLICY_READY}
    case POLICY_READY => {PAYMENT_READY}
    case PAYMENT_READY => {ACTIVE, BONDED}
    case BONDED => {ACTIVE}
    case ACTIVE => {SETTLING}
    case SETTLING => {ACTIVE, CLOSED, VIOLATED, EXPIRED}
    case _ => {}
  }

  /** `transitionSession`: follows the graph and drops the lease. */
  function Transition(sessions: Table, id: string, expected: SessionState, next: SessionState): Result<SessionRecord, SessionError> {
    if id !in sessions then Err(SESSION_NOT_FOUND)
    else if sessions[id].state != expected || next !in Allowed(expected) then Err(INVALID_STATE_TRANSITION)
    else Ok(sessions[id].(state := next, leaseExpiresAt := None))
  }

  predicate Claimable(s: SessionRecord, now: int) {
    s.state == ACTIVE || (s.state == SETTLING && (s.leaseExpiresAt == None || s.leaseExpiresAt.value <= now))
  }

  /** `claimSettlement`: Ok(None) is the lost race. */
  function Claim(sessions: Table, id: string, now: int, leaseMs: nat): Result<Option<SessionRecord>, SessionError> {
    if id !in sessions then Err(SESSION_NOT_FOUND)
    else if !Claimable(sessions[id], now) then Ok(None)
    else Ok(Some(sessions[id].(state := SETTLING, leaseExpiresAt := Some(now + leaseMs))))
  }

  datatype Request = Request(operationKey: string, operationMaxCalls: nat, maxTotalCalls: nat, maxRequestsPerMinute: nat, nowMs: int)

  function Recent(timestamps: seq<int>, nowMs: int): seq<int> {
    if timestamps == [] then []
    else (if timestamps[0] > nowMs - 60_000 then [timestamps[0]] else []) + Recent(timestamps[1..], nowMs)
  }

  function OperationCalls(s: SessionRecord, operationKey: string): nat {
    if operationKey in s.operationCalls then s.operationCalls[operationKey] else 0
  }

  /** `reserveRequest` on one record that is in the expected state. */
  function Reserve(s: SessionRecord, q: Request): Result<SessionRecord, SessionError> {
    var timestamps := Recent(s.requestTimestamps, q.nowMs);
    if OperationCalls(s, q.operationKey) >= q.operationMaxCalls then Err(OPERATION_CALL_LIMIT)
    else if s.calls >= q.maxTotalCalls then Err(TOTAL_CALL_LIMIT)
    else if |timestamps| >= q.maxRequestsPerMinute then Err(RATE_LIMIT)
    else Ok(s.(calls := s.calls + 1,
               operationCalls := s.operationCalls[q.operationKey := OperationCalls(s, q.operationKey) + 1],
               requestTimestamps := timestamps + [q.nowMs]))
  }

  function ReserveRequest(sessions: Table, id: string, q: Request, expected: SessionState): Result<SessionRecord, SessionError> {
    if id !in sessions then Err(SESSION_NOT_FOUND)
    else if sessions[id].state != expected then Err(SESSION_NOT_ACTIVE)
    else Reserve(sessions[id], q)
  }

  // ---------------------------------------------------------------------------------
  // The lease
  // ---------------------------------------------------------------------------------

  datatype SessionOp =
    | DoTransition(id: string, expected: SessionState, next: SessionState)
    | DoClaim(id: string, now: int, leaseMs: nat)
    | DoReserve(id: string, request: Request, state: SessionState)
    | DoSave(id: string, record: SessionRecord)
    | DoCreate(id: string, record: SessionRecord)
    | DoDelete(id: string, allowed: set<SessionState>)

  function Do(sessions: Table, op: SessionOp): Table {
    match op
    case DoTransition(id, expected, next) =>
      (match Transition(sessions, id, expected, next) case Ok(s) => sessions[id := s] case Err(_) => sessions)
    case DoClaim(id, now, leaseMs) =>
      (match Claim(sessions, id, now, leaseMs) case Ok(Some(s)) => sessions[id := s] case _ => sessions)
    case DoReserve(id, request, state) =>
      (match ReserveRequest(sessions, id, request, state) case Ok(s) => sessions[id := s] case Err(_) => sessions)
    case DoSave(id, record) => sessions[id := record]
    case DoCreate(id, record) => if id in sessions then sessions else sessions[id := record]
    case DoDelete(id, allowed) => if id in sessions && sessions[id].state in allowed then sessions - {id} else sessions
  }

  function DoAll(sessions: Table, ops: seq<SessionOp>): Table
    decreases |ops|
  {
    if ops == [] then sessions else DoAll(Do(sessions, ops[0]), ops[1..])
  }

  /** A claim that wins in the given state. */
  predicate Wins(sessions: Table, id: string, now: int, leaseMs: nat) {
    Claim(sessions, id, now, leaseMs).Ok? && Claim(sessions, id, now, leaseMs).value.Some?
  }

  /** No transition of the session, no deletion that a settling session is subject to, and only
      saves of records that hold a lease at least as long. */
  predicate LeaseSafe(op: SessionOp, id: string, until: int) {
    op.id == id ==>
      && !op.DoTransition?
      && (op.DoSave? ==> RecordLeased(op.record, until))
      && (op.DoDelete? ==> SETTLING !in op.allowed)
  }

  /** Two winning claims on a session with only such operations between them, whatever else
      happens (other claims included) and whatever the clocks say, are at least the lease
      apart. */
  lemma {:induction false} LeaseSeparatesClaims(sessions: Table, id: string, now: int, leaseMs: nat, between: seq<SessionOp>, now': int, leaseMs': nat)
    requires Wins(sessions, id, now, leaseMs)
    requires forall i | 0 <= i < |between| :: LeaseSafe(between[i], id, now + leaseMs)
    requires Wins(DoAll(Do(sessions, DoClaim(id, now, leaseMs)), between), id, now', leaseMs')
    ensures now' >= now + leaseMs
  {
    LeaseHeld(Do(sessions, DoClaim(id, now, leaseMs)), id, now + leaseMs, between);
  }

  predicate RecordLeased(r: SessionRecord, until: int) {
    r.state == SETTLING && r.leaseExpiresAt.Some? && r.leaseExpiresAt.value >= until
  }

  /** A blind save lets somebody else claim the session before its lease is over exactly if the
      saved record is active, or settling without a lease that long. */
  lemma SaveBreaksLeaseIff(sessions: Table, id: string, until: int, record: SessionRecord)
    requires LeasedUntil(sessions, id, until)
    ensures (exists now | now < until :: Wins(Do(sessions, DoSave(id, record)), id, now, 0)) <==>
            record.state == ACTIVE || (record.state == SETTLING && !RecordLeased(record, until))
  {
    var after := Do(sessions, DoSave(id, record));
    if record.state == ACTIVE || (record.state == SETTLING && !RecordLeased(record, until)) {
      var now := if record.leaseExpiresAt.Some? && record.leaseExpiresAt.value < until then record.leaseExpiresAt.value else until - 1;
      assert now < until && Wins(after, id, now, 0);
    }
  }

  /** The session is leased at least until then. */
  predicate LeasedUntil(sessions: Table, id: string, until: int) {
    id in sessions && RecordLeased(sessions[id], until)
  }

  lemma {:induction false} LeaseHeld(sessions: Table, id: string, until: int, ops: seq<SessionOp>)
    requires LeasedUntil(sessions, id, until)
    requires forall i | 0 <= i < |ops| :: LeaseSafe(ops[i], id, until)
    ensures LeasedUntil(DoAll(sessions, ops), id, until)
    decreases |ops|
  {
    if ops != [] { LeaseHeld(Do(sessions, ops[0]), id, until, ops[1..]); }
  }

  // ---------------------------------------------------------------------------------
  // The request counters
  // ---------------------------------------------------------------------------------

  /** One call as the gateway serves it, and the limits of the session's policy. */
  datatype Call = Call(operationKey: string, nowMs: int)
  datatype Limits = Limits(perOperation: map<string, nat>, maxTotalCalls: nat, maxRequestsPerMinute: nat)

  function RequestOf(limits: Limits, call: Call): Request {
    Request(call.operationKey, if call.operationKey in limits.perOperation then limits.perOperation[call.operationKey] else 0,
            limits.maxTotalCalls, limits.maxRequestsPerMinute, call.nowMs)
  }

  /** The record after a run of calls; a refused call changes nothing. */
  function Serve(s: SessionRecord, limits: Limits, calls: seq<Call>): SessionRecord {
    if calls == [] then s
    else
      var t := Serve(s, limits, calls[..|calls| - 1]);
      match Reserve(t, RequestOf(limits, calls[|calls| - 1])) case Ok(u) => u case Err(_) => t
  }

  /** The calls of a run that were accepted, in order. */
  function Accepted(s: SessionRecord, limits: Limits, calls: seq<Call>): seq<Call> {
    if calls == [] then []
    else
      var front := calls[..|calls| - 1];
      var call := calls[|calls| - 1];
      Accepted(s, limits, front) + (if Reserve(Serve(s, limits, front), RequestOf(limits, call)).Ok? then [call] else [])
  }

  function Times(calls: seq<Call>): seq<int> {
    seq(|calls|, i requires 0 <= i < |calls| => calls[i].nowMs)
  }

  function CountOperation(calls: seq<Call>, operationKey: string): nat {
    if calls == [] then 0
    else CountOperation(calls[..|calls| - 1], operationKey) + (if calls[|calls| - 1].operationKey == operationKey then 1 else 0)
  }

  ghost predicate NonDecreasing(times: seq<int>) {
    forall i, j | 0 <= i <= j < |times| :: times[i] <= times[j]
  }

  predicate Fresh(s: SessionRecord) {
    s.calls == 0 && s.operationCalls == map[] && s.requestTimestamps == []
  }

  lemma {:induction false} RecentAppend(xs: seq<int>, ys: seq<int>, nowMs: int)
    ensures Recent(xs + ys, nowMs) == Recent(xs, nowMs) + Recent(ys, nowMs)
  {
    if xs == [] { assert xs + ys == ys; }
    else {
      assert (xs + ys)[1..] == xs[1..] + ys;
      RecentAppend(xs[1..], ys, nowMs);
    }
  }

  lemma {:induction false} RecentTwice(xs: seq<int>, earlier: int, later: int)
    requires earlier <= later
    ensures Recent(Recent(xs, earlier), later) == Recent(xs, later)
  {
    if xs != [] {
      RecentTwice(xs[1..], earlier, later);
      var head := if xs[0] > earlier - 60_000 then [xs[0]] else [];
      RecentAppend(head, Recent(xs[1..], earlier), later);
    }
  }

  lemma TimesOfPrefix(calls: seq<Call>, n: nat)
    requires n <= |calls|
    ensures Times(calls[..n]) == Times(calls)[..n]
  {}

  /** The counters count the history of accepted calls. */
  ghost predicate Counted(t: SessionRecord, history: seq<Call>) {
    && t.calls == |history| == Sum(t.operationCalls)
    && forall k :: OperationCalls(t, k) == CountOperation(history, k)
  }

  /** At any time from the last accepted call on, the stored timestamps show the same last
      minute as the full history. */
  ghost predicate Pruned(t: SessionRecord, history: seq<Call>) {
    && (forall now | history == [] || history[|history| - 1].nowMs <= now :: Recent(t.requestTimestamps, now) == Recent(Times(history), now))
    && (history != [] ==> t.requestTimestamps == Recent(Times(history), history[|history| - 1].nowMs))
  }

  lemma CountStep(t: SessionRecord, limits: Limits, history: seq<Call>, call: Call)
    requires Counted(t, history) && Reserve(t, RequestOf(limits, call)).Ok?
    ensures Counted(Reserve(t, RequestOf(limits, call)).value, history + [call])
  {
    hide Recent;
    assert (history + [call])[..|history|] == history;
    forall k ensures CountOperation(history + [call], k) == CountOperation(history, k) + (if call.operationKey == k then 1 else 0) {
      assert (history + [call])[|history|] == call;
    }
    SumUpdate(t.operationCalls, call.operationKey, OperationCalls(t, call.operationKey) + 1);
  }

  lemma PruneStep(t: SessionRecord, limits: Limits, history: seq<Call>, call: Call)
    requires Pruned(t, history) && Reserve(t, RequestOf(limits, call)).Ok?
    requires history != [] ==> history[|history| - 1].nowMs <= call.nowMs
    ensures Pruned(Reserve(t, RequestOf(limits, call)).value, history + [call])
  {
    var times := Times(history);
    assert Times(history + [call]) == times + [call.nowMs];
    RecentAppend(times, [call.nowMs], call.nowMs);
    var stored := Recent(times, call.nowMs) + [call.nowMs];
    assert Recent([call.nowMs], call.nowMs) == [call.nowMs];
    assert Reserve(t, RequestOf(limits, call)).value.requestTimestamps == stored;
    hide Recent, Reserve;
    forall now | call.nowMs <= now ensures Recent(stored, now) == Recent(times + [call.nowMs], now) {
      RecentAppend(Recent(times, call.nowMs), [call.nowMs], now);
      RecentTwice(times, call.nowMs, now);
      RecentAppend(times, [call.nowMs], now);
    }
  }

  /** The last call of a run: accepted, or without effect. */
  lemma LastCall(s: SessionRecord, limits: Limits, calls: seq<Call>)
    requires calls != []
    ensures var front, call := calls[..|calls| - 1], calls[|calls| - 1];
      var reserved := Reserve(Serve(s, limits, front), RequestOf(limits, call));
      && Serve(s, limits, calls) == (if reserved.Ok? then reserved.value else Serve(s, limits, front))
      && Accepted(s, limits, calls) == (if reserved.Ok? then Accepted(s, limits, front) + [call] else Accepted(s, limits, front))
  {
    assert Accepted(s, limits, calls[..|calls| - 1]) + [] == Accepted(s, limits, calls[..|calls| - 1]);
  }

  lemma {:induction false} HistoryIsEarlier(s: SessionRecord, limits: Limits, calls: seq<Call>)
    requires NonDecreasing(Times(calls))
    ensures var history := Accepted(s, limits, calls);
      history != [] ==> calls != [] && history[|history| - 1].nowMs <= calls[|calls| - 1].nowMs
    decreases |calls|
  {
    if calls != [] {
      var n := |calls| - 1;
      TimesOfPrefix(calls, n);
      HistoryIsEarlier(s, limits, calls[..n]);
      LastCall(s, limits, calls);
      hide Serve, Accepted, Reserve;
      if n > 0 { assert Times(calls)[n - 1] <= Times(calls)[n]; }
    }
  }

  lemma EarlierThanNext(s: SessionRecord, limits: Limits, calls: seq<Call>)
    requires NonDecreasing(Times(calls)) && calls != []
    ensures var history := Accepted(s, limits, calls[..|calls| - 1]);
      history != [] ==> history[|history| - 1].nowMs <= calls[|calls| - 1].nowMs
  {
    var n := |calls| - 1;
    TimesOfPrefix(calls, n);
    HistoryIsEarlier(s, limits, calls[..n]);
    hide Accepted;
    if n > 0 { assert Times(calls)[n - 1] <= Times(calls)[n]; }
  }

  /** Pruning loses nothing, and the counters count the history. */
  lemma {:induction false} CountersMatchHistory(s: SessionRecord, limits: Limits, calls: seq<Call>)
    requires Fresh(s) && NonDecreasing(Times(calls))
    ensures Counted(Serve(s, limits, calls), Accepted(s, limits, calls))
    ensures Pruned(Serve(s, limits, calls), Accepted(s, limits, calls))
    decreases |calls|
  {
    if calls != [] {
      var front, call := calls[..|calls| - 1], calls[|calls| - 1];
      TimesOfPrefix(calls, |calls| - 1);
      CountersMatchHistory(s, limits, front);
      EarlierThanNext(s, limits, calls);
      LastCall(s, limits, calls);
      hide Serve, Accepted, Reserve, Counted, Pruned;
      var t := Serve(s, limits, front);
      if Reserve(t, RequestOf(limits, call)).Ok? {
        CountStep(t, limits, Accepted(s, limits, front), call);
        PruneStep(t, limits, Accepted(s, limits, front), call);
      }
    }
  }

  /** The entries of the window (now - 60 s, now]. */
  function Window(times: seq<int>, now: int): seq<int> {
    if times == [] then []
    else (if now - 60_000 < times[0] <= now then [times[0]] else []) + Window(times[1..], now)
  }

  lemma {:induction false} WindowAppend(xs: seq<int>, y: int, now: int)
    ensures |Window(xs + [y], now)| == |Window(xs, now)| + (if now - 60_000 < y <= now then 1 else 0)
  {
    if xs == [] { assert xs + [y] == [y]; }
    else {
      assert (xs + [y])[1..] == xs[1..] + [y];
      WindowAppend(xs[1..], y, now);
    }
  }

  lemma {:induction false} WindowWithinRecent(xs: seq<int>, earlier: int, later: int)
    requires earlier <= later
    ensures |Window(xs, later)| <= |Recent(xs, earlier)|
  {
    if xs != [] { WindowWithinRecent(xs[1..], earlier, later); }
  }

  /** No minute-long window, wherever it ends, holds more calls than allowed; the total and
      every operation stay within their caps. */
  ghost predicate WithinCaps(limits: Limits, history: seq<Call>) {
    && (forall now :: |Window(Times(history), now)| <= limits.maxRequestsPerMinute)
    && |history| <= limits.maxTotalCalls
    && (forall k :: CountOperation(history, k) <= if k in limits.perOperation then limits.perOperation[k] else 0)
  }

  lemma CapStep(t: SessionRecord, limits: Limits, history: seq<Call>, call: Call)
    requires WithinCaps(limits, history) && Counted(t, history) && Pruned(t, history) && Reserve(t, RequestOf(limits, call)).Ok?
    requires history != [] ==> history[|history| - 1].nowMs <= call.nowMs
    ensures WithinCaps(limits, history + [call])
  {
    var times := Times(history);
    assert Times(history + [call]) == times + [call.nowMs];
    assert (history + [call])[..|history|] == history && (history + [call])[|history|] == call;
    assert |Recent(times, call.nowMs)| < limits.maxRequestsPerMinute;
    assert OperationCalls(t, call.operationKey) < RequestOf(limits, call).operationMaxCalls;
    hide Recent, Reserve, Pruned;
    forall now ensures |Window(times + [call.nowMs], now)| <= limits.maxRequestsPerMinute {
      WindowAppend(times, call.nowMs, now);
      if call.nowMs <= now { WindowWithinRecent(times, call.nowMs, now); }
    }
  }

  lemma {:induction false} LimitsHold(s: SessionRecord, limits: Limits, calls: seq<Call>)
    requires Fresh(s) && NonDecreasing(Times(calls))
    ensures WithinCaps(limits, Accepted(s, limits, calls))
    decreases |calls|
  {
    if calls != [] {
      var front, call := calls[..|calls| - 1], calls[|calls| - 1];
      TimesOfPrefix(calls, |calls| - 1);
      LimitsHold(s, limits, front);
      CountersMatchHistory(s, limits, front);
      EarlierThanNext(s, limits, calls);
      LastCall(s, limits, calls);
      hide Serve, Accepted, Reserve, Counted, Pruned, WithinCaps;
      var t := Serve(s, limits, front);
      if Reserve(t, RequestOf(limits, call)).Ok? { CapStep(t, limits, Accepted(s, limits, front), call); }
    }
  }

  /** Once no entry is later than now, the window holds exactly the recent entries. */
  lemma {:induction false} WindowIsRecent(times: seq<int>, now: int)
    requires forall i | 0 <= i < |times| :: times[i] <= now
    ensures |Window(times, now)| == |Recent(times, now)|
  {
    if times != [] {
      assert forall i | 0 <= i < |times[1..]| :: times[1..][i] == times[i + 1];
      WindowIsRecent(times[1..], now);
    }
  }

  function CapOf(limits: Limits, operationKey: string): nat {
    if operationKey in limits.perOperation then limits.perOperation[operationKey] else 0
  }

  /** Whether a call is within the limits, from the calls accepted so far. */
  predicate WithinLimits(limits: Limits, history: seq<Call>, call: Call) {
    && CountOperation(history, call.operationKey) < CapOf(limits, call.operationKey)
    && |history| < limits.maxTotalCalls
    && |Window(Times(history), call.nowMs)| < limits.maxRequestsPerMinute
  }

  /** What a call is answered, in the order in which the limits are checked. */
  predicate AnsweredAs(limits: Limits, history: seq<Call>, call: Call, answer: Result<SessionRecord, SessionError>) {
    if CountOperation(history, call.operationKey) >= CapOf(limits, call.operationKey) then answer == Err(OPERATION_CALL_LIMIT)
    else if |history| >= limits.maxTotalCalls then answer == Err(TOTAL_CALL_LIMIT)
    else if |Window(Times(history), call.nowMs)| >= limits.maxRequestsPerMinute then answer == Err(RATE_LIMIT)
    else answer.Ok? && answer.value.calls == |history| + 1
  }

  lemma {:induction false} HistoryNotLater(s: SessionRecord, limits: Limits, calls: seq<Call>, now: int)
    requires forall i | 0 <= i < |calls| :: calls[i].nowMs <= now
    ensures forall i | 0 <= i < |Accepted(s, limits, calls)| :: Accepted(s, limits, calls)[i].nowMs <= now
    decreases |calls|
  {
    if calls != [] {
      HistoryNotLater(s, limits, calls[..|calls| - 1], now);
      LastCall(s, limits, calls);
      hide Serve, Accepted, Reserve;
    }
  }

  lemma AnswerFromHistory(t: SessionRecord, limits: Limits, history: seq<Call>, call: Call)
    requires Counted(t, history) && |Recent(t.requestTimestamps, call.nowMs)| == |Window(Times(history), call.nowMs)|
    ensures AnsweredAs(limits, history, call, Reserve(t, RequestOf(limits, call)))
    ensures Reserve(t, RequestOf(limits, call)).Ok? <==> WithinLimits(limits, history, call)
  {
    hide Recent, Window, CountOperation, Sum;
  }

  lemma RecentOfHistory(t: SessionRecord, history: seq<Call>, now: int)
    requires Pruned(t, history) && forall i | 0 <= i < |history| :: history[i].nowMs <= now
    ensures |Recent(t.requestTimestamps, now)| == |Window(Times(history), now)|
  {
    hide Recent, Window;
    WindowIsRecent(Times(history), now);
  }

  /** For a fresh session and a clock that does not run backwards: the next call is accepted exactly
      if, counting the calls accepted before, it is within its operation's cap, the total and
      the last minute; the first limit it breaks is reported. */
  lemma NextCallAcceptedIff(s: SessionRecord, limits: Limits, calls: seq<Call>, call: Call)
    requires Fresh(s) && NonDecreasing(Times(calls + [call]))
    ensures var history := Accepted(s, limits, calls);
      && Accepted(s, limits, calls + [call]) == (if WithinLimits(limits, history, call) then history + [call] else history)
      && AnsweredAs(limits, history, call, Reserve(Serve(s, limits, calls), RequestOf(limits, call)))
  {
    hide Serve, Accepted, Recent, Window, CountOperation, Fresh, Counted, Pruned, WithinLimits, AnsweredAs, Reserve;
    var all := calls + [call];
    assert all[..|calls|] == calls && all[|calls|] == call;
    TimesOfPrefix(all, |calls|);
    CountersMatchHistory(s, limits, calls);
    LastCall(s, limits, all);
    forall i | 0 <= i < |calls| ensures calls[i].nowMs <= call.nowMs {
      assert Times(all)[i] <= Times(all)[|calls|];
    }
    HistoryNotLater(s, limits, calls, call.nowMs);
    var history, t := Accepted(s, limits, calls), Serve(s, limits, calls);
    RecentOfHistory(t, history, call.nowMs);
    AnswerFromHistory(t, limits, history, call);
  }

  /** A request for a session is answered from its record alone: unknown, in another state, or as
      the record's counters say. */
  lemma RequestIsAnswered(sessions: Table, id: string, q: Request, expected: SessionState)
    ensures ReserveRequest(sessions, id, q, expected) == Err(SESSION_NOT_FOUND) <==> id !in sessions
    ensures ReserveRequest(sessions, id, q, expected) == Err(SESSION_NOT_ACTIVE) <==> id in sessions && sessions[id].state != expected
    ensures id in sessions && sessions[id].state == expected ==> ReserveRequest(sessions, id, q, expected) == Reserve(sessions[id], q)
  {}

  /** A lease is granted exactly for an active session, or one that is settling without a lease or
      with one that is over; it lasts from now on. */
  lemma ClaimExact(sessions: Table, id: string, now: int, leaseMs: nat)
    ensures var r := Claim(sessions, id, now, leaseMs);
      && (r.Err? <==> id !in sessions) && (r.Err? ==> r.error == SESSION_NOT_FOUND)
      && (Wins(sessions, id, now, leaseMs) <==>
            && id in sessions
            && (sessions[id].state == ACTIVE
                || (sessions[id].state == SETTLING && (sessions[id].leaseExpiresAt.Some? ==> sessions[id].leaseExpiresAt.value <= now))))
      && (Wins(sessions, id, now, leaseMs) ==>
            r.value.value == sessions[id].(state := SETTLING, leaseExpiresAt := Some(now + leaseMs)))
  {}

  /** The life of a session, step by step. */
  predicate LifeStep(a: SessionState, b: SessionState) {
    || (a == CREATED && b == POLICY_READY) || (a == POLICY_READY && b == PAYMENT_READY) || (a == PAYMENT_READY && (b == BONDED || b == ACTIVE))
    || (a == BONDED && b == ACTIVE) || (a == ACTIVE && b == SETTLING)
    || (a == SETTLING && (b == ACTIVE || b == CLOSED || b == VIOLATED || b == EXPIRED))
  }

  /** A transition succeeds exactly on the graph; an unknown session and a wrong state are told
      apart. */
  lemma TransitionExact(sessions: Table, id: string, expected: SessionState, next: SessionState)
    ensures var r := Transition(sessions, id, expected, next);
      && (r == Err(SESSION_NOT_FOUND) <==> id !in sessions)
      && (r.Ok? <==> id in sessions && sessions[id].state == expected && LifeStep(expected, next))
      && (r.Err? && id in sessions ==> r == Err(INVALID_STATE_TRANSITION))
      && (r.Ok? ==> r.value == sessions[id].(state := next, leaseExpiresAt := None))
  {}
}
