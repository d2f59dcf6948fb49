/**
 * The two repositories as objects whose methods update their collections in place
 * (apps/gateway/src/repository.ts, apps/gateway/src/firestore-repository.ts). Each method is
 * tied to the function that the other modules reason about.
 */
module Repositories {
  import opened Wrappers
  import opened Primitives
  import S = Sessions
  import J = SettlementJournal
  import E = SettlementEvidence
  import V = Inventory
  import I = Idempotency

  class InMemoryRepository {
    var sessions: S.Table
    var settlementAttempts: map<J.SettlementKey, J.Attempt>
    var settlementNonceClaims: map<E.Nonce, Hash>
    var inventory: map<string, V.Stock>
    var reservations: map<string, V.Reservation>
    var idempotency: I.Table

    constructor ()
      ensures sessions == map[] && settlementAttempts == map[] && settlementNonceClaims == map[]
      ensures inventory == map[] && reservations == map[] && idempotency == map[]
    {
      sessions, settlementAttempts, settlementNonceClaims := map[], map[], map[];
      inventory, reservations, idempotency := map[], map[], map[];
    }

    ghost function Goods(): V.Memory
      reads this
    {
      V.Memory(inventory, reservations)
    }

    method CreateSession(session: S.SessionRecord) returns (created: bool)
      modifies this`sessions
      ensures created == (session.sessionId !in old(sessions))
      ensures sessions == if created then old(sessions)[session.sessionId := session] else old(sessions)
    {
      if session.sessionId in sessions { return false; }
      sessions := sessions[session.sessionId := session];
      return true;
    }

    method DeleteSessionIfState(sessionId: string, allowed: set<S.SessionState>) returns (deleted: bool)
      modifies this`sessions
      ensures deleted == (sessionId in old(sessions) && old(sessions)[sessionId].state in allowed)
      ensures sessions == if deleted then old(sessions) - {sessionId} else old(sessions)
    {
      if sessionId !in sessions || sessions[sessionId].state !in allowed { return false; }
      sessions := sessions - {sessionId};
      return true;
    }

    method TransitionSession(sessionId: string, expected: S.SessionState, next: S.SessionState) returns (r: Result<S.SessionRecord, S.SessionError>)
      modifies this`sessions
      ensures r == S.Transition(old(sessions), sessionId, expected, next)
      ensures sessions == if r.Ok? then old(sessions)[sessionId := r.value] else old(sessions)
    {
      if sessionId !in sessions { return Err(S.SESSION_NOT_FOUND); }
      var session := sessions[sessionId];
      if session.state != expected || next !in S.Allowed(expected) { return Err(S.INVALID_STATE_TRANSITION); }
      var updated := session.(state := next, leaseExpiresAt := None);
      sessions := sessions[sessionId := updated];
      return Ok(updated);
    }

    method ClaimSettlement(sessionId: string, now: int, leaseMs: nat) returns (r: Result<Option<S.SessionRecord>, S.SessionError>)
      modifies this`sessions
      ensures r == S.Claim(old(sessions), sessionId, now, leaseMs)
      ensures sessions == if r.Ok? && r.value.Some? then old(sessions)[sessionId := r.value.value] else old(sessions)
    {
      if sessionId !in sessions { return Err(S.SESSION_NOT_FOUND); }
      var session := sessions[sessionId];
      var leaseRuns := session.leaseExpiresAt.Some? && session.leaseExpiresAt.value > now;
      if session.state != S.ACTIVE && (session.state != S.SETTLING || leaseRuns) { return Ok(None); }
      var updated := session.(state := S.SETTLING, leaseExpiresAt := Some(now + leaseMs));
      sessions := sessions[sessionId := updated];
      return Ok(Some(updated));
    }

    method ReserveRequest(sessionId: string, q: S.Request, expected: S.SessionState) returns (r: Result<S.SessionRecord, S.SessionError>)
      modifies this`sessions
      ensures r == S.ReserveRequest(old(sessions), sessionId, q, expected)
      ensures sessions == if r.Ok? then old(sessions)[sessionId := r.value] else old(sessions)
    {
      if sessionId !in sessions { return Err(S.SESSION_NOT_FOUND); }
      var session := sessions[sessionId];
      if session.state != expected { return Err(S.SESSION_NOT_ACTIVE); }
      var timestamps := S.Recent(session.requestTimestamps, q.nowMs);
      if S.OperationCalls(session, q.operationKey) >= q.operationMaxCalls { return Err(S.OPERATION_CALL_LIMIT); }
      if session.calls >= q.maxTotalCalls { return Err(S.TOTAL_CALL_LIMIT); }
      if |timestamps| >= q.maxRequestsPerMinute { return Err(S.RATE_LIMIT); }
      session := session.(calls := session.calls + 1);
      session := session.(operationCalls := session.operationCalls[q.operationKey := S.OperationCalls(session, q.operationKey) + 1]);
      session := session.(requestTimestamps := timestamps + [q.nowMs]);
      sessions := sessions[sessionId := session];
      return Ok(session);
    }

    method CreateSettlementAttempt(attempt: J.Attempt) returns (stored: J.Attempt)
      modifies this`settlementAttempts
      ensures settlementAttempts == J.Create(old(settlementAttempts), attempt) && stored == settlementAttempts[attempt.key]
    {
      if attempt.key in settlementAttempts { return settlementAttempts[attempt.key]; }
      settlementAttempts := settlementAttempts[attempt.key := attempt];
      return attempt;
    }

    method ClaimSettlementNonce(nonce: E.Nonce, evidenceHash: Hash) returns (granted: bool)
      modifies this`settlementNonceClaims
      ensures granted == J.NonceGranted(old(settlementNonceClaims), nonce, evidenceHash)
      ensures settlementNonceClaims == J.ClaimNonce(old(settlementNonceClaims), nonce, evidenceHash)
    {
      if nonce in settlementNonceClaims { return settlementNonceClaims[nonce] == evidenceHash; }
      settlementNonceClaims := settlementNonceClaims[nonce := evidenceHash];
      return true;
    }

    method SaveSettlementAttempt(attempt: J.Attempt) returns (r: Result<J.Attempt, J.JournalError>)
      modifies this`settlementAttempts
      ensures match J.Save(old(settlementAttempts), attempt)
        case Ok(attempts) => r == Ok(attempts[attempt.key]) && settlementAttempts == attempts
        case Err(e) => r == Err(e) && settlementAttempts == old(settlementAttempts)
    {
      if attempt.key !in settlementAttempts { return Err(J.ATTEMPT_NOT_FOUND); }
      r := J.Merge(settlementAttempts[attempt.key], attempt);
      if r.Ok? { settlementAttempts := settlementAttempts[attempt.key := r.value]; }
    }

    method CreateReservationWithInventory(reservation: V.Reservation) returns (error: Option<V.InventoryError>)
      modifies this`inventory, this`reservations
      ensures match V.MemoryCreate(old(Goods()), reservation)
        case Ok(m) => error == None && Goods() == m
        case Err(e) => error == Some(e) && Goods() == old(Goods())
    {
      if V.HasActive(reservations, reservation.sessionId) { return Some(V.MAX_ACTIVE_RESERVATIONS); }
      if reservation.productId !in inventory || inventory[reservation.productId].stock < reservation.quantity { return Some(V.OUT_OF_STOCK); }
      var stock := inventory[reservation.productId];
      inventory := inventory[reservation.productId := V.Stock(stock.stock - reservation.quantity, reservation.createdAt)];
      reservations := reservations[reservation.reservationId := reservation];
      return None;
    }

    /** A blind write. */
    method SaveReservation(reservation: V.Reservation)
      modifies this`reservations
      ensures Goods() == V.MemorySave(old(Goods()), reservation)
    {
      reservations := reservations[reservation.reservationId := reservation];
    }

    /** The reservation record is marked before the inventory lookup that may throw. */
    method FinalizeReservationWithInventory(sessionId: string, id: string, state: V.ReservationState, now: int)
      returns (r: Result<V.Finalized, V.InventoryError>)
      modifies this`inventory, this`reservations
      ensures (Goods(), r) == V.MemoryFinalize(old(Goods()), sessionId, id, state, now)
    {
      var error := V.FinalizeError(reservations, sessionId, id, state, now);
      if error.Some? { return Err(error.value); }
      var reservation := reservations[id];
      if reservation.state != V.ACTIVE { return Ok(V.Finalized(reservation, false)); }
      reservation := reservation.(state := state);
      reservations := reservations[id := reservation];
      if state != V.CONSUMED {
        if reservation.productId !in inventory { return Err(V.PRODUCT_NOT_FOUND); }
        inventory := inventory[reservation.productId := V.Restock(inventory[reservation.productId], reservation.quantity, now)];
      }
      return Ok(V.Finalized(reservation, true));
    }

    method ClaimIdempotent(scope: string, key: string, fingerprint: string) returns (r: I.ClaimResult)
      modifies this`idempotency
      ensures (r, idempotency) == I.Claim(old(idempotency), I.RecordId(scope, key), fingerprint)
    {
      var id := I.RecordId(scope, key);
      if id !in idempotency {
        idempotency := idempotency[id := I.Record(fingerprint, None)];
        return I.CLAIMED;
      }
      var existing := idempotency[id];
      if existing.fingerprint != fingerprint { return I.CONFLICT; }
      if existing.completed == None { return I.IN_PROGRESS; }
      return I.COMPLETED(existing.completed.value);
    }

    method CompleteIdempotent(scope: string, key: string, fingerprint: string, value: string) returns (missing: bool)
      modifies this`idempotency
      ensures match I.Complete(old(idempotency), I.RecordId(scope, key), fingerprint, value)
        case Some(table) => !missing && idempotency == table
        case None => missing && idempotency == old(idempotency)
    {
      var id := I.RecordId(scope, key);
      if id !in idempotency || idempotency[id].fingerprint != fingerprint { return true; }
      idempotency := idempotency[id := I.Record(fingerprint, Some(value))];
      return false;
    }

    method ReleaseIdempotent(scope: string, key: string, fingerprint: string)
      modifies this`idempotency
      ensures idempotency == I.Release(old(idempotency), I.RecordId(scope, key), fingerprint)
    {
      var id := I.RecordId(scope, key);
      if id in idempotency && idempotency[id].completed == None && idempotency[id].fingerprint == fingerprint {
        idempotency := idempotency - {id};
      }
    }
  }

  class FirestoreRepository {
    var sessions: S.Table
    var inventory: map<string, V.Stock>
    var reservations: map<string, V.Reservation>
    var activeReservations: map<string, string>

    ghost function Goods(): V.Documents
      reads this
    {
      V.Documents(inventory, reservations, activeReservations)
    }

    /** Checks the graph before it reads the session, so an unknown session may be reported as an
        invalid transition; what is accepted, and its effect, is the same as in memory. */
    method TransitionSession(sessionId: string, expected: S.SessionState, next: S.SessionState) returns (r: Result<S.SessionRecord, S.SessionError>)
      modifies this`sessions
      ensures r.Ok? <==> S.Transition(old(sessions), sessionId, expected, next).Ok?
      ensures r.Ok? ==> r == S.Transition(old(sessions), sessionId, expected, next)
      ensures r == Err(S.SESSION_NOT_FOUND) <==> sessionId !in old(sessions) && next in S.Allowed(expected)
      ensures sessions == if r.Ok? then old(sessions)[sessionId := r.value] else old(sessions)
    {
      if next !in S.Allowed(expected) { return Err(S.INVALID_STATE_TRANSITION); }
      if sessionId !in sessions { return Err(S.SESSION_NOT_FOUND); }
      var session := sessions[sessionId];
      if session.state != expected { return Err(S.INVALID_STATE_TRANSITION); }
      var updated := session.(leaseExpiresAt := None, state := next);
      sessions := sessions[sessionId := updated];
      return Ok(updated);
    }

    method CreateReservationWithInventory(reservation: V.Reservation) returns (error: Option<V.InventoryError>)
      modifies this`inventory, this`reservations, this`activeReservations
      ensures match V.DocumentsCreate(old(Goods()), reservation)
        case Ok(d) => error == None && Goods() == d
        case Err(e) => error == Some(e) && Goods() == old(Goods())
    {
      if reservation.reservationId in reservations { return None; }
      if reservation.sessionId in activeReservations { return Some(V.MAX_ACTIVE_RESERVATIONS); }
      if reservation.productId !in inventory { return Some(V.PRODUCT_NOT_FOUND); }
      var stock := inventory[reservation.productId];
      if stock.stock < reservation.quantity { return Some(V.OUT_OF_STOCK); }
      inventory := inventory[reservation.productId := V.Stock(stock.stock - reservation.quantity, reservation.createdAt)];
      reservations := reservations[reservation.reservationId := reservation];
      activeReservations := activeReservations[reservation.sessionId := reservation.reservationId];
      return None;
    }

    /** A blind write. */
    method SaveReservation(reservation: V.Reservation)
      modifies this`reservations
      ensures Goods() == V.DocumentsSave(old(Goods()), reservation)
    {
      reservations := reservations[reservation.reservationId := reservation];
    }

    method FinalizeReservationWithInventory(sessionId: string, id: string, state: V.ReservationState, now: int)
      returns (r: Result<V.Finalized, V.InventoryError>)
      modifies this`inventory, this`reservations, this`activeReservations
      ensures (Goods(), r) == V.DocumentsFinalize(old(Goods()), sessionId, id, state, now)
    {
      var error := V.FinalizeError(reservations, sessionId, id, state, now);
      if error.Some? { return Err(error.value); }
      var reservation := reservations[id];
      if reservation.state != V.ACTIVE { return Ok(V.Finalized(reservation, false)); }
      if sessionId !in activeReservations || activeReservations[sessionId] != id { return Err(V.ACTIVE_RESERVATION_INCONSISTENT); }
      var updated := reservation.(state := state);
      if state != V.CONSUMED {
        if reservation.productId !in inventory { return Err(V.PRODUCT_NOT_FOUND); }
        inventory := inventory[reservation.productId := V.Restock(inventory[reservation.productId], reservation.quantity, now)];
      }
      reservations := reservations[id := updated];
      activeReservations := activeReservations - {sessionId};
      return Ok(V.Finalized(updated, true));
    }
  }
}
