/**
 * Reservations against inventory in the two repositories: the in-memory store, which scans all
 * reservations (apps/gateway/src/repository.ts), and the Firestore store, which keeps an
 * `activeReservations` index (apps/gateway/src/firestore-repository.ts).
 */
module Inventory {
  import opened Wrappers
  import opened Sums

  datatype ReservationState = ACTIVE | RELEASED | CONSUMED | EXPIRED

  type Quantity = n: int | 1 <= n witness 1

  datatype Reservation = Reservation(
    reservationId: string, sessionId: string, productId: string, quantity: Quantity,
    createdAt: int, expiresAt: int, state: ReservationState, settlementRequested: bool)

  datatype Stock = Stock(stock: int, updatedAt: int)

  datatype InventoryError =
    | MAX_ACTIVE_RESERVATIONS | OUT_OF_STOCK | PRODUCT_NOT_FOUND | RESERVATION_NOT_FOUND
    | RESERVATION_SESSION_MISMATCH | RESERVATION_NOT_EXPIRED | ACTIVE_RESERVATION_INCONSISTENT

  /** The in-memory store. */
  datatype Memory = Memory(inventory: map<string, Stock>, reservations: map<string, Reservation>)

  /** The Firestore collections; `active` maps a session to the id of its active reservation. */
  datatype Documents = Documents(inventory: map<string, Stock>, reservations: map<string, Reservation>, active: map<string, string>)

  datatype Finalized = Finalized(reservation: Reservation, changed: bool)

  // ---------------------------------------------------------------------------------
  // In-memory operations
  // ---------------------------------------------------------------------------------

  predicate HasActive(reservations: map<string, Reservation>, sessionId: string) {
    exists r | r in reservations :: reservations[r].sessionId == sessionId && reservations[r].state == ACTIVE
  }

  function MemoryCreate(m: Memory, r: Reservation): Result<Memory, InventoryError> {
    if HasActive(m.reservations, r.sessionId) then Err(MAX_ACTIVE_RESERVATIONS)
    else if r.productId !in m.inventory || m.inventory[r.productId].stock < r.quantity then Err(OUT_OF_STOCK)
    else
      Ok(Memory(m.inventory[r.productId := Stock(m.inventory[r.productId].stock - r.quantity, r.createdAt)],
                m.reservations[r.reservationId := r]))
  }

  /** The error checks that come before anything is changed. */
  function FinalizeError(reservations: map<string, Reservation>, sessionId: string, id: string, state: ReservationState, now: int): Option<InventoryError> {
    if id !in reservations then Some(RESERVATION_NOT_FOUND)
    else if reservations[id].sessionId != sessionId then Some(RESERVATION_SESSION_MISMATCH)
    else if reservations[id].state == ACTIVE && state == EXPIRED && now < reservations[id].expiresAt then Some(RESERVATION_NOT_EXPIRED)
    else None
  }

  function Restock(s: Stock, quantity: Quantity, now: int): Stock {
    Stock(s.stock + quantity, now)
  }

  /** The record is changed in place before the inventory is looked up, so the store is part of
      the result even when the lookup throws. */
  function MemoryFinalize(m: Memory, sessionId: string, id: string, state: ReservationState, now: int): (Memory, Result<Finalized, InventoryError>) {
    var error := FinalizeError(m.reservations, sessionId, id, state, now);
    if error.Some? then (m, Err(error.value))
    else
      var r := m.reservations[id];
      if r.state != ACTIVE then (m, Ok(Finalized(r, false)))
      else
        var updated := r.(state := state);
        var marked := m.(reservations := m.reservations[id := updated]);
        if state == CONSUMED then (marked, Ok(Finalized(updated, true)))
        else if r.productId !in m.inventory then (marked, Err(PRODUCT_NOT_FOUND))
        else
          (marked.(inventory := m.inventory[r.productId := Restock(m.inventory[r.productId], r.quantity, now)]), Ok(Finalized(updated, true)))
  }

  // ---------------------------------------------------------------------------------
  // Firestore transactions
  // ---------------------------------------------------------------------------------

  function DocumentsCreate(d: Documents, r: Reservation): Result<Documents, InventoryError> {
    if r.reservationId in d.reservations then Ok(d)
    else if r.sessionId in d.active then Err(MAX_ACTIVE_RESERVATIONS)
    else if r.productId !in d.inventory then Err(PRODUCT_NOT_FOUND)
    else if d.inventory[r.productId].stock < r.quantity then Err(OUT_OF_STOCK)
    else
      Ok(Documents(d.inventory[r.productId := Stock(d.inventory[r.productId].stock - r.quantity, r.createdAt)],
                   d.reservations[r.reservationId := r],
                   d.active[r.sessionId := r.reservationId]))
  }

  function DocumentsFinalize(d: Documents, sessionId: string, id: string, state: ReservationState, now: int): (Documents, Result<Finalized, InventoryError>) {
    var error := FinalizeError(d.reservations, sessionId, id, state, now);
    if error.Some? then (d, Err(error.value))
    else
      var r := d.reservations[id];
      if r.state != ACTIVE then (d, Ok(Finalized(r, false)))
      else if sessionId !in d.active || d.active[sessionId] != id then (d, Err(ACTIVE_RESERVATION_INCONSISTENT))
      else
        var updated := r.(state := state);
        if state != CONSUMED && r.productId !in d.inventory then (d, Err(PRODUCT_NOT_FOUND))
        else
          (Documents(if state == CONSUMED then d.inventory else d.inventory[r.productId := Restock(d.inventory[r.productId], r.quantity, now)],
                     d.reservations[id := updated], d.active - {sessionId}),
           Ok(Finalized(updated, true)))
  }

  // ---------------------------------------------------------------------------------
  // The index refines the scan
  // ---------------------------------------------------------------------------------

  /** Same stock, same reservations; a session's index entry names its one active reservation;
      every reserved product is in the inventory. */
  ghost predicate Related(m: Memory, d: Documents) {
    && m.inventory == d.inventory && m.reservations == d.reservations
    && (forall s, r :: s in d.active && d.active[s] == r <==> r in m.reservations && m.reservations[r].sessionId == s && m.reservations[r].state == ACTIVE)
    && (forall r | r in m.reservations :: m.reservations[r].reservationId == r && m.reservations[r].productId in m.inventory)
  }

  /** Both stores accept and reject the same new reservations and stay related, exactly when the
      reservation id is fresh: for a known id Firestore reports success and stores nothing while
      the in-memory store refuses or overwrites. The only difference in the error reported is
      for a product that has no inventory. */
  lemma CreateRefinesIffFresh(m: Memory, d: Documents, r: Reservation)
    requires Related(m, d) && r.state == ACTIVE
    ensures r.reservationId !in m.reservations <==>
            match (MemoryCreate(m, r), DocumentsCreate(d, r))
            case (Ok(m'), Ok(d')) => Related(m', d')
            case (Err(e), Err(f)) => e == f || (r.productId !in m.inventory && e == OUT_OF_STOCK && f == PRODUCT_NOT_FOUND)
            case _ => false
  {
    ActiveIndexed(m, d, r.sessionId);
    if MemoryCreate(m, r).Ok? && DocumentsCreate(d, r).Ok? {
      var m', d' := MemoryCreate(m, r).value, DocumentsCreate(d, r).value;
      if r.reservationId in m.reservations {
        assert m'.inventory[r.productId].stock != d'.inventory[r.productId].stock;
      } else {
        assert Related(m', d');
      }
    }
  }

  lemma ActiveIndexed(m: Memory, d: Documents, s: string)
    requires Related(m, d)
    ensures HasActive(m.reservations, s) <==> s in d.active
  {
    if s in d.active { assert d.active[s] in m.reservations; }
  }

  /** Finalising agrees always, and neither the index check nor the inventory lookup, which in
      memory would leave a half-done change behind, can ever fail. */
  lemma FinalizeRefines(m: Memory, d: Documents, sessionId: string, id: string, state: ReservationState, now: int)
    requires Related(m, d) && state != ACTIVE
    ensures var (m', r) := MemoryFinalize(m, sessionId, id, state, now);
      var (d', q) := DocumentsFinalize(d, sessionId, id, state, now);
      && r == q && Related(m', d')
      && r != Err(PRODUCT_NOT_FOUND) && q != Err(ACTIVE_RESERVATION_INCONSISTENT)
      && (r.Err? ==> m' == m && d' == d)
  {
    if id in m.reservations && m.reservations[id].sessionId == sessionId && m.reservations[id].state == ACTIVE {
      assert sessionId in d.active && d.active[sessionId] == id;
    }
  }

  /** The session's own reservation, as it is stored. */
  predicate IsOwn(m: Memory, sessionId: string, id: string) {
    id in m.reservations && m.reservations[id].sessionId == sessionId
  }

  /** A quantity moves in or out of a product's stock, and nothing else of the inventory changes. */
  ghost predicate StockMoved(was: map<string, Stock>, now: map<string, Stock>, product: string, change: int, at: int) {
    && now.Keys == was.Keys && product in was
    && now[product] == (if change == 0 then was[product] else Stock(was[product].stock + change, at))
    && forall q | q in was && q != product :: now[q] == was[q]
  }

  /** Both stores end exactly the session's own active reservations, and let them expire only when
      they are due; the unit goes back to stock unless it is consumed. Whatever else is asked
      changes nothing and is answered with its reason; a reservation that has ended already is
      no error. */
  lemma FinalizeExact(m: Memory, d: Documents, sessionId: string, id: string, state: ReservationState, now: int)
    requires Related(m, d) && state != ACTIVE
    ensures var (m', a) := MemoryFinalize(m, sessionId, id, state, now);
      var d' := DocumentsFinalize(d, sessionId, id, state, now).0;
      var live := IsOwn(m, sessionId, id) && m.reservations[id].state == ACTIVE;
      var due := live && (state == EXPIRED ==> m.reservations[id].expiresAt <= now);
      && a == DocumentsFinalize(d, sessionId, id, state, now).1
      && (a == Err(RESERVATION_NOT_FOUND) <==> id !in m.reservations)
      && (a == Err(RESERVATION_SESSION_MISMATCH) <==> id in m.reservations && m.reservations[id].sessionId != sessionId)
      && (a == Err(RESERVATION_NOT_EXPIRED) <==> live && !due)
      && (a.Ok? <==> due || (IsOwn(m, sessionId, id) && !live))
      && (a.Ok? ==> a.value.changed == due)
      && (if due then
            && a.value.reservation == m.reservations[id].(state := state) && m'.reservations == m.reservations[id := a.value.reservation] == d'.reservations
            && d'.active == d.active - {sessionId} && m'.inventory == d'.inventory
            && StockMoved(m.inventory, m'.inventory, m.reservations[id].productId, if state == CONSUMED then 0 else m.reservations[id].quantity, now)
          else m' == m && d' == d && (a.Ok? ==> a.value.reservation == m.reservations[id]))
  {
    FinalizeRefines(m, d, sessionId, id, state, now);
  }

  /** A reservation with a new id is made exactly if its session has no active one and the product
      has stock for it; it then takes its quantity out of stock. */
  lemma CreateExact(m: Memory, d: Documents, r: Reservation)
    requires Related(m, d) && r.state == ACTIVE && r.reservationId !in m.reservations
    ensures var (a, b) := (MemoryCreate(m, r), DocumentsCreate(d, r));
      var idle := forall q | q in m.reservations && m.reservations[q].sessionId == r.sessionId :: m.reservations[q].state != ACTIVE;
      var inStock := r.productId in m.inventory && r.quantity <= m.inventory[r.productId].stock;
      && (a.Ok? <==> idle && inStock) && (b.Ok? <==> a.Ok?)
      && (a.Err? ==> a.error == if idle then OUT_OF_STOCK else MAX_ACTIVE_RESERVATIONS)
      && (b.Err? ==> b.error == if !idle then MAX_ACTIVE_RESERVATIONS else if r.productId in m.inventory then OUT_OF_STOCK else PRODUCT_NOT_FOUND)
      && (a.Ok? ==>
            && a.value.reservations == m.reservations[r.reservationId := r] == b.value.reservations && a.value.inventory == b.value.inventory
            && b.value.active == d.active[r.sessionId := r.reservationId]
            && StockMoved(m.inventory, a.value.inventory, r.productId, 0 - r.quantity, r.createdAt))
  {
    ActiveIndexed(m, d, r.sessionId);
    assert HasActive(m.reservations, r.sessionId) <==>
           !forall q | q in m.reservations && m.reservations[q].sessionId == r.sessionId :: m.reservations[q].state != ACTIVE;
    hide HasActive;
  }

  /** The operations of a run. `SaveReservation` is a blind write: the paths that expire a
      reservation mark the record they were given and store it again. */
  datatype Operation =
    | Reserve(reservation: Reservation)
    | Finalize(sessionId: string, id: string, state: ReservationState, now: int)
    | SaveReservation(record: Reservation)

  datatype Reply = Done | Refused(error: InventoryError) | Ended(result: Finalized)

  function MemorySave(m: Memory, r: Reservation): Memory {
    m.(reservations := m.reservations[r.reservationId := r])
  }

  function DocumentsSave(d: Documents, r: Reservation): Documents {
    d.(reservations := d.reservations[r.reservationId := r])
  }

  function MemoryStep(m: Memory, op: Operation): Memory {
    match op
    case Reserve(r) => (match MemoryCreate(m, r) case Ok(m') => m' case Err(_) => m)
    case Finalize(s, id, state, now) => MemoryFinalize(m, s, id, state, now).0
    case SaveReservation(r) => MemorySave(m, r)
  }

  function DocumentsStep(d: Documents, op: Operation): Documents {
    match op
    case Reserve(r) => (match DocumentsCreate(d, r) case Ok(d') => d' case Err(_) => d)
    case Finalize(s, id, state, now) => DocumentsFinalize(d, s, id, state, now).0
    case SaveReservation(r) => DocumentsSave(d, r)
  }

  function MemoryReply(m: Memory, op: Operation): Reply {
    match op
    case Reserve(r) => (match MemoryCreate(m, r) case Ok(_) => Done case Err(e) => Refused(e))
    case Finalize(s, id, state, now) => (match MemoryFinalize(m, s, id, state, now).1 case Ok(f) => Ended(f) case Err(e) => Refused(e))
    case SaveReservation(_) => Done
  }

  function DocumentsReply(d: Documents, op: Operation): Reply {
    match op
    case Reserve(r) => (match DocumentsCreate(d, r) case Ok(_) => Done case Err(e) => Refused(e))
    case Finalize(s, id, state, now) => (match DocumentsFinalize(d, s, id, state, now).1 case Ok(f) => Ended(f) case Err(e) => Refused(e))
    case SaveReservation(_) => Done
  }

  predicate WellTyped(op: Operation) {
    match op
    case Reserve(r) => r.state == ACTIVE
    case Finalize(_, _, state, _) => state != ACTIVE
    case SaveReservation(r) => r.state != ACTIVE
  }

  function MemoryRun(m: Memory, ops: seq<Operation>): (r: (Memory, seq<Reply>))
    ensures |r.1| == |ops|
    decreases |ops|
  {
    if ops == [] then (m, [])
    else
      var (m', replies) := MemoryRun(MemoryStep(m, ops[0]), ops[1..]);
      (m', [MemoryReply(m, ops[0])] + replies)
  }

  function DocumentsRun(d: Documents, ops: seq<Operation>): (r: (Documents, seq<Reply>))
    ensures |r.1| == |ops|
    decreases |ops|
  {
    if ops == [] then (d, [])
    else
      var (d', replies) := DocumentsRun(DocumentsStep(d, ops[0]), ops[1..]);
      (d', [DocumentsReply(d, ops[0])] + replies)
  }

  // ---------------------------------------------------------------------------------
  // What is saved
  // ---------------------------------------------------------------------------------

  /** `known` are the records that finalisations have handed out. */
  function Learn(known: set<Reservation>, reply: Reply): set<Reservation> {
    if reply.Ended? then known + {reply.result.reservation} else known
  }

  predicate SavesKnown(known: set<Reservation>, op: Operation) {
    op.SaveReservation? ==> exists q | q in known :: op.record == q.(settlementRequested := true)
  }

  /** Every save stores a record that a finalisation handed out, marked as settled. */
  predicate SavesReturned(known: set<Reservation>, m: Memory, ops: seq<Operation>)
    decreases |ops|
  {
    ops == [] || (SavesKnown(known, ops[0]) && SavesReturned(Learn(known, MemoryReply(m, ops[0])), MemoryStep(m, ops[0]), ops[1..]))
  }

  predicate DocumentsSavesReturned(known: set<Reservation>, d: Documents, ops: seq<Operation>)
    decreases |ops|
  {
    ops == [] || (SavesKnown(known, ops[0]) && DocumentsSavesReturned(Learn(known, DocumentsReply(d, ops[0])), DocumentsStep(d, ops[0]), ops[1..]))
  }

  predicate SameOwner(r: Reservation, q: Reservation) {
    r.reservationId == q.reservationId && r.sessionId == q.sessionId && r.productId == q.productId
  }

  /** The records handed out are still those of ended reservations. */
  ghost predicate KnownEnded(known: set<Reservation>, m: Memory) {
    forall q | q in known ::
      && q.state != ACTIVE && q.reservationId in m.reservations
      && SameOwner(m.reservations[q.reservationId], q) && m.reservations[q.reservationId].state != ACTIVE
  }

  /** Equal, but for the error that reports a product without inventory. */
  predicate Agree(a: Reply, b: Reply) {
    a == b || (a == Refused(OUT_OF_STOCK) && b == Refused(PRODUCT_NOT_FOUND))
  }

  /** No two reservations of the run share an id and none is stored already. */
  ghost predicate FreshIds(m: Memory, ops: seq<Operation>) {
    && (forall i | 0 <= i < |ops| && ops[i].Reserve? :: ops[i].reservation.reservationId !in m.reservations)
    && (forall i, j | 0 <= i < j < |ops| && ops[i].Reserve? && ops[j].Reserve? :: ops[i].reservation.reservationId != ops[j].reservation.reservationId)
  }

  lemma SaveRefines(m: Memory, d: Documents, r: Reservation)
    requires Related(m, d) && r.state != ACTIVE && r.reservationId in m.reservations
    requires m.reservations[r.reservationId].state != ACTIVE && SameOwner(m.reservations[r.reservationId], r)
    ensures Related(MemorySave(m, r), DocumentsSave(d, r))
  {}

  /** One operation, with a reservation id that is new or an operation without one. */
  lemma StepRefines(m: Memory, d: Documents, op: Operation, known: set<Reservation>)
    requires Related(m, d) && WellTyped(op) && KnownEnded(known, m) && SavesKnown(known, op)
    requires op.Reserve? ==> op.reservation.reservationId !in m.reservations
    ensures Related(MemoryStep(m, op), DocumentsStep(d, op)) && Agree(MemoryReply(m, op), DocumentsReply(d, op))
    ensures KnownEnded(Learn(known, MemoryReply(m, op)), MemoryStep(m, op))
    ensures op.Finalize? ==> MemoryReply(m, op) == DocumentsReply(d, op)
    ensures forall id | id in MemoryStep(m, op).reservations :: id in m.reservations || (op.Reserve? && id == op.reservation.reservationId)
  {
    match op {
      case Reserve(r) => CreateRefinesIffFresh(m, d, r);
      case Finalize(s, id, state, now) =>
        FinalizeRefines(m, d, s, id, state, now);
        FinalizeHandsOut(m, d, s, id, state, now, known);
      case SaveReservation(r) => SaveRefines(m, d, r);
    }
    hide Related;
  }

  lemma FinalizeHandsOut(m: Memory, d: Documents, s: string, id: string, state: ReservationState, now: int, known: set<Reservation>)
    requires Related(m, d) && state != ACTIVE && KnownEnded(known, m)
    ensures KnownEnded(Learn(known, MemoryReply(m, Finalize(s, id, state, now))), MemoryStep(m, Finalize(s, id, state, now)))
  {}

  /** Driven by the same calls with fresh reservation ids, the two stores give the same answers
      throughout, blind saves of handed-out records included, and end up with the same stock,
      reservations and exact index. */
  lemma {:induction false} FirestoreRefinesMemory(m: Memory, d: Documents, ops: seq<Operation>, known: set<Reservation>)
    requires Related(m, d) && FreshIds(m, ops) && (forall i | 0 <= i < |ops| :: WellTyped(ops[i]))
    requires KnownEnded(known, m) && SavesReturned(known, m, ops)
    ensures forall i | 0 <= i < |ops| :: Agree(MemoryRun(m, ops).1[i], DocumentsRun(d, ops).1[i])
    ensures Related(MemoryRun(m, ops).0, DocumentsRun(d, ops).0)
    decreases |ops|
  {
    if ops != [] {
      StepRefines(m, d, ops[0], known);
      hide Related, KnownEnded, MemoryStep, DocumentsStep, MemoryReply, DocumentsReply, Agree;
      FirestoreRefinesMemory(MemoryStep(m, ops[0]), DocumentsStep(d, ops[0]), ops[1..], Learn(known, MemoryReply(m, ops[0])));
    }
  }

  // ---------------------------------------------------------------------------------
  // Conservation
  // ---------------------------------------------------------------------------------

  function Held(r: Reservation, productId: string): nat {
    if r.state == ACTIVE && r.productId == productId then r.quantity else 0
  }

  ghost function HeldBy(reservations: map<string, Reservation>, productId: string): map<string, nat> {
    map id | id in reservations :: Held(reservations[id], productId)
  }

  /** Quantity of a product in active reservations. */
  ghost function Reserved(m: Memory, productId: string): nat {
    Sum(HeldBy(m.reservations, productId))
  }

  /** What an operation takes out of circulation for good. */
  function Consumed(op: Operation, reply: Reply, productId: string): nat {
    if op.Finalize? && reply.Ended? && reply.result.changed && op.state == CONSUMED && reply.result.reservation.productId == productId then
      reply.result.reservation.quantity
    else 0
  }

  function ConsumedOver(m: Memory, ops: seq<Operation>, productId: string): nat
    decreases |ops|
  {
    if ops == [] then 0
    else Consumed(ops[0], MemoryReply(m, ops[0]), productId) + ConsumedOver(MemoryStep(m, ops[0]), ops[1..], productId)
  }

  function DocumentsConsumedOver(d: Documents, ops: seq<Operation>, productId: string): nat
    decreases |ops|
  {
    if ops == [] then 0
    else Consumed(ops[0], DocumentsReply(d, ops[0]), productId) + DocumentsConsumedOver(DocumentsStep(d, ops[0]), ops[1..], productId)
  }

  lemma ReservedUpdate(m: Memory, id: string, r: Reservation, productId: string)
    ensures Reserved(m.(reservations := m.reservations[id := r]), productId) ==
            Reserved(m, productId) + Held(r, productId) - (if id in m.reservations then Held(m.reservations[id], productId) else 0)
  {
    SumUpdate(HeldBy(m.reservations, productId), id, Held(r, productId));
    assert HeldBy(m.reservations[id := r], productId) == HeldBy(m.reservations, productId)[id := Held(r, productId)];
  }

  /** Stock is never negative, every reserved product has inventory, and a session has at most
      one active reservation. */
  ghost predicate GoodMemory(m: Memory) {
    && (forall p | p in m.inventory :: m.inventory[p].stock >= 0)
    && (forall r | r in m.reservations :: m.reservations[r].reservationId == r && m.reservations[r].productId in m.inventory)
    && (forall r, q | r in m.reservations && q in m.reservations && r != q :: !BothActive(m.reservations[r], m.reservations[q]))
  }

  predicate BothActive(r: Reservation, q: Reservation) {
    r.sessionId == q.sessionId && r.state == ACTIVE && q.state == ACTIVE
  }

  /** An accepted reservation moves its quantity from stock to the reserved amount; an
      overwritten one drops out of it. */
  lemma CreateMoves(m: Memory, r: Reservation, p: string)
    requires GoodMemory(m) && r.state == ACTIVE && MemoryCreate(m, r).Ok? && p in m.inventory
    ensures var m' := MemoryCreate(m, r).value;
      && p in m'.inventory
      && m'.inventory[p].stock + Reserved(m', p) == m.inventory[p].stock + Reserved(m, p)
         - (if r.reservationId in m.reservations then Held(m.reservations[r.reservationId], p) else 0)
  {
    var m' := MemoryCreate(m, r).value;
    ReservedUpdate(m, r.reservationId, r, p);
    assert m'.reservations == m.reservations[r.reservationId := r];
    assert Reserved(m', p) == Reserved(m.(reservations := m'.reservations), p);
    hide Reserved, HasActive;
  }

  /** Stock and reservations add up to what they were, for every product, exactly when no
      active reservation of another session is overwritten. */
  lemma CreateConservesIffNothingOverwritten(m: Memory, r: Reservation)
    requires GoodMemory(m) && r.state == ACTIVE && MemoryCreate(m, r).Ok?
    ensures var m' := MemoryCreate(m, r).value;
      (r.reservationId in m.reservations && m.reservations[r.reservationId].state == ACTIVE) <==>
      exists p | p in m.inventory :: m'.inventory[p].stock + Reserved(m', p) != m.inventory[p].stock + Reserved(m, p)
  {
    var m' := MemoryCreate(m, r).value;
    forall p | p in m.inventory
      ensures p in m'.inventory && m'.inventory[p].stock + Reserved(m', p) == m.inventory[p].stock + Reserved(m, p)
              - (if r.reservationId in m.reservations then Held(m.reservations[r.reservationId], p) else 0)
    {
      CreateMoves(m, r, p);
    }
    hide Reserved, MemoryCreate;
    if r.reservationId in m.reservations && m.reservations[r.reservationId].state == ACTIVE {
      var p := m.reservations[r.reservationId].productId;
      assert p in m.inventory && Held(m.reservations[r.reservationId], p) > 0;
    }
  }

  /** Reservation ids belong to one session each. */
  ghost predicate OwnedIds(owner: string -> string, m: Memory, ops: seq<Operation>) {
    && (forall r | r in m.reservations :: owner(r) == m.reservations[r].sessionId)
    && (forall i | 0 <= i < |ops| && ops[i].Reserve? :: owner(ops[i].reservation.reservationId) == ops[i].reservation.sessionId)
  }

  /** What finalising does when it changes anything. */
  lemma FinalizeEffect(m: Memory, s: string, id: string, state: ReservationState, now: int)
    requires GoodMemory(m) && state != ACTIVE
    ensures var (m', r) := MemoryFinalize(m, s, id, state, now);
      if FinalizeError(m.reservations, s, id, state, now).Some? || m.reservations[id].state != ACTIVE then
        m' == m && (r.Ok? ==> !r.value.changed)
      else
        var res := m.reservations[id];
        && m'.reservations == m.reservations[id := res.(state := state)] && r == Ok(Finalized(res.(state := state), true))
        && m'.inventory == (if state == CONSUMED then m.inventory else m.inventory[res.productId := Restock(m.inventory[res.productId], res.quantity, now)])
  {}

  lemma FinalizeKeepsGood(m: Memory, s: string, id: string, state: ReservationState, now: int)
    requires GoodMemory(m) && state != ACTIVE
    ensures var (m', r) := MemoryFinalize(m, s, id, state, now);
      && GoodMemory(m') && r != Err(PRODUCT_NOT_FOUND)
      && m'.inventory.Keys == m.inventory.Keys && m'.reservations.Keys == m.reservations.Keys
      && (forall k | k in m.reservations :: m'.reservations[k].sessionId == m.reservations[k].sessionId)
  {
    FinalizeEffect(m, s, id, state, now);
    FinalizeErrors(m, s, id, state, now);
    hide MemoryFinalize;
    if FinalizeError(m.reservations, s, id, state, now) == None && m.reservations[id].state == ACTIVE {
      hide FinalizeError;
      EndedStaysGood(m, MemoryFinalize(m, s, id, state, now).0, id, state);
    }
  }

  lemma FinalizeErrors(m: Memory, s: string, id: string, state: ReservationState, now: int)
    requires GoodMemory(m) && state != ACTIVE
    ensures MemoryFinalize(m, s, id, state, now).1 != Err(PRODUCT_NOT_FOUND)
    ensures FinalizeError(m.reservations, s, id, state, now) == None ==> id in m.reservations
  {}

  lemma EndedStaysGood(m: Memory, m': Memory, id: string, state: ReservationState)
    requires GoodMemory(m) && state != ACTIVE && id in m.reservations
    requires m'.reservations == m.reservations[id := m.reservations[id].(state := state)]
    requires m'.inventory.Keys == m.inventory.Keys && forall p | p in m.inventory :: m'.inventory[p].stock >= m.inventory[p].stock
    ensures GoodMemory(m')
  {}

  /** Finalising moves a reservation's quantity back to stock or out of circulation, once. */
  lemma FinalizeConserves(m: Memory, s: string, id: string, state: ReservationState, now: int, p: string)
    requires GoodMemory(m) && state != ACTIVE && p in m.inventory
    ensures var m' := MemoryFinalize(m, s, id, state, now).0;
      && p in m'.inventory
      && m'.inventory[p].stock + Reserved(m', p) + Consumed(Finalize(s, id, state, now), MemoryReply(m, Finalize(s, id, state, now)), p) == m.inventory[p].stock + Reserved(m, p)
  {
    FinalizeEffect(m, s, id, state, now);
    hide MemoryFinalize, GoodMemory;
    if FinalizeError(m.reservations, s, id, state, now) == None && m.reservations[id].state == ACTIVE {
      var updated := m.reservations[id].(state := state);
      var m' := MemoryFinalize(m, s, id, state, now).0;
      ReservedUpdate(m, id, updated, p);
      hide FinalizeError;
      assert Reserved(m', p) == Reserved(m.(reservations := m'.reservations), p);
    }
  }

  lemma CreateKeepsGood(m: Memory, r: Reservation, owner: string -> string)
    requires GoodMemory(m) && r.state == ACTIVE && OwnedIds(owner, m, []) && owner(r.reservationId) == r.sessionId
    requires MemoryCreate(m, r).Ok?
    ensures GoodMemory(MemoryCreate(m, r).value) && OwnedIds(owner, MemoryCreate(m, r).value, [])
    ensures r.reservationId in m.reservations ==> m.reservations[r.reservationId].state != ACTIVE
  {}

  lemma ReserveConserves(m: Memory, r: Reservation, owner: string -> string)
    requires GoodMemory(m) && r.state == ACTIVE && OwnedIds(owner, m, []) && owner(r.reservationId) == r.sessionId
    ensures var m' := MemoryStep(m, Operation.Reserve(r));
      && GoodMemory(m') && OwnedIds(owner, m', []) && m'.inventory.Keys == m.inventory.Keys
      && forall p | p in m.inventory :: m'.inventory[p].stock + Reserved(m', p) == m.inventory[p].stock + Reserved(m, p)
  {
    hide Reserved;
    if MemoryCreate(m, r).Ok? {
      CreateKeepsGood(m, r, owner);
      forall p | p in m.inventory {
        CreateMoves(m, r, p);
      }
    }
  }

  /** A blind save meets a reservation that is active again. */
  predicate OverwritesActive(m: Memory, op: Operation) {
    op.SaveReservation? && op.record.reservationId in m.reservations && m.reservations[op.record.reservationId].state == ACTIVE
  }

  ghost predicate StepConserves(m: Memory, op: Operation) {
    var m', reply := MemoryStep(m, op), MemoryReply(m, op);
    && m'.inventory.Keys == m.inventory.Keys
    && forall p | p in m.inventory :: m'.inventory[p].stock + Reserved(m', p) + Consumed(op, reply, p) == m.inventory[p].stock + Reserved(m, p)
  }

  /** Saving an ended record leaves stock and reservations adding up, for every product, exactly
      if the record it replaces is not that of an active reservation. */
  lemma SaveConservesIffNotActive(m: Memory, r: Reservation)
    requires GoodMemory(m) && r.state != ACTIVE
    ensures StepConserves(m, SaveReservation(r)) <==> !OverwritesActive(m, SaveReservation(r))
  {
    var m' := MemorySave(m, r);
    forall p ensures Reserved(m', p) == Reserved(m, p) - (if r.reservationId in m.reservations then Held(m.reservations[r.reservationId], p) else 0) {
      ReservedUpdate(m, r.reservationId, r, p);
    }
    hide Reserved;
    if OverwritesActive(m, SaveReservation(r)) {
      var p := m.reservations[r.reservationId].productId;
      assert p in m.inventory && Held(m.reservations[r.reservationId], p) > 0;
    }
  }

  /** The records handed out name their owner and a product that has inventory. */
  ghost predicate KnownOwned(known: set<Reservation>, m: Memory, owner: string -> string) {
    forall q | q in known :: q.state != ACTIVE && owner(q.reservationId) == q.sessionId && q.productId in m.inventory
  }

  lemma SaveKeepsGood(m: Memory, r: Reservation, owner: string -> string)
    requires GoodMemory(m) && OwnedIds(owner, m, []) && r.state != ACTIVE && owner(r.reservationId) == r.sessionId && r.productId in m.inventory
    ensures GoodMemory(MemorySave(m, r)) && OwnedIds(owner, MemorySave(m, r), [])
  {}

  lemma FinalizeKeepsKnown(m: Memory, op: Operation, owner: string -> string, known: set<Reservation>)
    requires GoodMemory(m) && WellTyped(op) && op.Finalize? && OwnedIds(owner, m, []) && KnownOwned(known, m, owner)
    ensures OwnedIds(owner, MemoryStep(m, op), []) && KnownOwned(Learn(known, MemoryReply(m, op)), MemoryStep(m, op), owner)
  {
    FinalizeEffect(m, op.sessionId, op.id, op.state, op.now);
    if MemoryFinalize(m, op.sessionId, op.id, op.state, op.now).1.Ok? {
      FinalizeReturns(m, op.sessionId, op.id, op.state, op.now);
    }
    hide MemoryFinalize;
  }

  lemma FinalizeReturns(m: Memory, s: string, id: string, state: ReservationState, now: int)
    requires GoodMemory(m) && state != ACTIVE && MemoryFinalize(m, s, id, state, now).1.Ok?
    ensures var r := MemoryFinalize(m, s, id, state, now).1.value.reservation;
      id in m.reservations && SameOwner(m.reservations[id], r) && r.state != ACTIVE
  {}

  lemma ReserveStep(m: Memory, r: Reservation, owner: string -> string, known: set<Reservation>)
    requires GoodMemory(m) && r.state == ACTIVE && OwnedIds(owner, m, [Operation.Reserve(r)]) && KnownOwned(known, m, owner)
    ensures var m' := MemoryStep(m, Operation.Reserve(r));
      GoodMemory(m') && OwnedIds(owner, m', []) && KnownOwned(known, m', owner) && StepConserves(m, Operation.Reserve(r))
  {
    assert [Operation.Reserve(r)][0] == Operation.Reserve(r);
    hide GoodMemory, Reserved, MemoryCreate;
    ReserveConserves(m, r, owner);
  }

  lemma FinalizeStep(m: Memory, op: Operation, owner: string -> string, known: set<Reservation>)
    requires GoodMemory(m) && WellTyped(op) && op.Finalize? && OwnedIds(owner, m, []) && KnownOwned(known, m, owner)
    ensures var m' := MemoryStep(m, op);
      && GoodMemory(m') && OwnedIds(owner, m', []) && KnownOwned(Learn(known, MemoryReply(m, op)), m', owner) && StepConserves(m, op)
  {
    hide GoodMemory, Reserved, MemoryFinalize, FinalizeError;
    FinalizeKeepsGood(m, op.sessionId, op.id, op.state, op.now);
    FinalizeKeepsKnown(m, op, owner, known);
    hide OwnedIds, KnownOwned;
    forall p | p in m.inventory {
      FinalizeConserves(m, op.sessionId, op.id, op.state, op.now, p);
    }
  }

  lemma SaveStep(m: Memory, r: Reservation, owner: string -> string, known: set<Reservation>)
    requires GoodMemory(m) && r.state != ACTIVE && OwnedIds(owner, m, []) && KnownOwned(known, m, owner) && SavesKnown(known, SaveReservation(r))
    ensures var m' := MemoryStep(m, SaveReservation(r));
      GoodMemory(m') && OwnedIds(owner, m', []) && KnownOwned(known, m', owner) && m'.inventory == m.inventory
  {
    SaveKeepsGood(m, r, owner);
    hide GoodMemory, OwnedIds;
  }

  /** Whatever the operation, the store stays good; it conserves unless a save meets a
      reservation that is active again. */
  lemma StepConservesIff(m: Memory, op: Operation, owner: string -> string, known: set<Reservation>)
    requires GoodMemory(m) && WellTyped(op) && OwnedIds(owner, m, [op]) && KnownOwned(known, m, owner) && SavesKnown(known, op)
    ensures GoodMemory(MemoryStep(m, op)) && OwnedIds(owner, MemoryStep(m, op), [])
    ensures KnownOwned(Learn(known, MemoryReply(m, op)), MemoryStep(m, op), owner)
    ensures MemoryStep(m, op).inventory.Keys == m.inventory.Keys
    ensures StepConserves(m, op) <==> !OverwritesActive(m, op)
  {
    hide GoodMemory, KnownOwned, Reserved, MemoryFinalize, MemoryCreate, SavesKnown;
    assert OwnedIds(owner, m, []);
    hide OwnedIds;
    match op {
      case Reserve(r) => ReserveStep(m, r, owner, known);
      case Finalize(_, _, _, _) => FinalizeStep(m, op, owner, known);
      case SaveReservation(r) =>
        SaveStep(m, r, owner, known);
        SaveConservesIffNotActive(m, r);
        hide StepConserves;
    }
  }

  /** Every operation of the run conserves. */
  ghost predicate AlwaysConserves(m: Memory, ops: seq<Operation>)
    decreases |ops|
  {
    ops == [] || (StepConserves(m, ops[0]) && AlwaysConserves(MemoryStep(m, ops[0]), ops[1..]))
  }

  predicate NeverOverwritesActive(m: Memory, ops: seq<Operation>)
    decreases |ops|
  {
    ops == [] || (!OverwritesActive(m, ops[0]) && NeverOverwritesActive(MemoryStep(m, ops[0]), ops[1..]))
  }

  /** The in-memory store conserves every product at every moment of a run exactly if no save
      comes after its reservation has been made anew and is active. */
  lemma {:induction false} ConservedIffSavesInTime(m: Memory, ops: seq<Operation>, owner: string -> string, known: set<Reservation>)
    requires GoodMemory(m) && OwnedIds(owner, m, ops) && forall i | 0 <= i < |ops| :: WellTyped(ops[i])
    requires KnownOwned(known, m, owner) && SavesReturned(known, m, ops)
    ensures AlwaysConserves(m, ops) <==> NeverOverwritesActive(m, ops)
    ensures GoodMemory(MemoryRun(m, ops).0)
    decreases |ops|
  {
    if ops != [] {
      assert OwnedIds(owner, m, [ops[0]]);
      StepConservesIff(m, ops[0], owner, known);
      hide GoodMemory, MemoryStep, MemoryReply, KnownOwned, StepConserves, OverwritesActive;
      ConservedIffSavesInTime(MemoryStep(m, ops[0]), ops[1..], owner, Learn(known, MemoryReply(m, ops[0])));
    }
  }

  lemma {:induction false} AlwaysAddsUp(m: Memory, ops: seq<Operation>)
    requires AlwaysConserves(m, ops)
    ensures var m' := MemoryRun(m, ops).0;
      && m'.inventory.Keys == m.inventory.Keys
      && forall p | p in m.inventory ::
           m'.inventory[p].stock + Reserved(m', p) + ConsumedOver(m, ops, p) == m.inventory[p].stock + Reserved(m, p)
    decreases |ops|
  {
    if ops != [] {
      hide MemoryStep, MemoryReply, Reserved, Consumed;
      AlwaysAddsUp(MemoryStep(m, ops[0]), ops[1..]);
    }
  }

  /** On every run from any sessions: per product, stock, active reservations and everything
      ever consumed add up to what there was. */
  lemma InventoryConserved(m: Memory, ops: seq<Operation>, owner: string -> string, known: set<Reservation>)
    requires GoodMemory(m) && OwnedIds(owner, m, ops) && forall i | 0 <= i < |ops| :: WellTyped(ops[i])
    requires KnownOwned(known, m, owner) && SavesReturned(known, m, ops) && NeverOverwritesActive(m, ops)
    ensures var m' := MemoryRun(m, ops).0;
      && GoodMemory(m') && m'.inventory.Keys == m.inventory.Keys
      && forall p | p in m.inventory ::
           m'.inventory[p].stock + Reserved(m', p) + ConsumedOver(m, ops, p) == m.inventory[p].stock + Reserved(m, p)
  {
    hide GoodMemory, OwnedIds, KnownOwned, SavesReturned, NeverOverwritesActive, Reserved;
    ConservedIffSavesInTime(m, ops, owner, known);
    AlwaysAddsUp(m, ops);
  }

  // ---------------------------------------------------------------------------------
  // Saves in time
  // ---------------------------------------------------------------------------------

  /** A reservation that is made anew makes the records of the old one worthless. */
  function Forget(known: set<Reservation>, op: Operation, reply: Reply): set<Reservation> {
    if op.Reserve? && reply == Done then set q | q in known && q.reservationId != op.reservation.reservationId else known
  }

  /** Every save stores a record that a finalisation handed out, and since that finalisation no
      reservation with its id has been made. */
  predicate SavesTimely(known: set<Reservation>, m: Memory, ops: seq<Operation>)
    decreases |ops|
  {
    ops == [] ||
      (SavesKnown(known, ops[0])
       && SavesTimely(Learn(Forget(known, ops[0], MemoryReply(m, ops[0])), MemoryReply(m, ops[0])), MemoryStep(m, ops[0]), ops[1..]))
  }

  lemma StepForgets(m: Memory, op: Operation, known: set<Reservation>)
    requires GoodMemory(m) && WellTyped(op) && KnownEnded(known, m) && SavesKnown(known, op)
    ensures KnownEnded(Learn(Forget(known, op, MemoryReply(m, op)), MemoryReply(m, op)), MemoryStep(m, op))
    ensures !OverwritesActive(m, op)
  {
    match op {
      case Reserve(r) =>
      case Finalize(s, id, state, now) =>
        FinalizeEffect(m, s, id, state, now);
        if MemoryFinalize(m, s, id, state, now).1.Ok? { FinalizeReturns(m, s, id, state, now); }
        hide MemoryFinalize;
      case SaveReservation(r) =>
    }
  }

  lemma SavesMore(known: set<Reservation>, more: set<Reservation>, op: Operation, reply: Reply)
    requires known <= more && SavesKnown(known, op)
    ensures SavesKnown(more, op) && Learn(Forget(known, op, reply), reply) <= Learn(more, reply)
  {}

  lemma {:induction false} TimelySavesAreHarmless(m: Memory, ops: seq<Operation>, owner: string -> string, known: set<Reservation>, more: set<Reservation>)
    requires GoodMemory(m) && OwnedIds(owner, m, ops) && forall i | 0 <= i < |ops| :: WellTyped(ops[i])
    requires known <= more && KnownEnded(known, m) && KnownOwned(more, m, owner) && SavesTimely(known, m, ops)
    ensures SavesReturned(more, m, ops) && NeverOverwritesActive(m, ops)
    decreases |ops|
  {
    if ops != [] {
      var reply := MemoryReply(m, ops[0]);
      assert OwnedIds(owner, m, [ops[0]]);
      SavesMore(known, more, ops[0], reply);
      StepForgets(m, ops[0], known);
      StepConservesIff(m, ops[0], owner, more);
      hide GoodMemory, MemoryStep, MemoryReply, KnownOwned, KnownEnded, StepConserves, OverwritesActive, Forget, Learn, SavesKnown;
      TimelySavesAreHarmless(MemoryStep(m, ops[0]), ops[1..], owner, Learn(Forget(known, ops[0], reply), reply), Learn(more, reply));
    }
  }

  // ---------------------------------------------------------------------------------
  // Firestore never makes a reservation anew
  // ---------------------------------------------------------------------------------

  function View(d: Documents): Memory {
    Memory(d.inventory, d.reservations)
  }

  ghost predicate GoodDocuments(d: Documents) {
    Related(View(d), d) && StockNonNegative(View(d))
  }

  lemma ExactIndexIsGood(d: Documents)
    requires GoodDocuments(d)
    ensures GoodMemory(View(d))
  {
    forall r | r in d.reservations && d.reservations[r].state == ACTIVE
      ensures d.reservations[r].sessionId in d.active && d.active[d.reservations[r].sessionId] == r
    {}
  }

  lemma FinalizedConserves(m: Memory, op: Operation)
    requires GoodMemory(m) && WellTyped(op) && op.Finalize?
    ensures StepConserves(m, op) && StockNonNegative(MemoryStep(m, op))
  {
    hide GoodMemory, Reserved, MemoryFinalize, FinalizeError;
    FinalizeKeepsGood(m, op.sessionId, op.id, op.state, op.now);
    StockOfGood(MemoryStep(m, op));
    forall p | p in m.inventory {
      FinalizeConserves(m, op.sessionId, op.id, op.state, op.now, p);
    }
  }

  ghost predicate StockNonNegative(m: Memory) {
    forall p | p in m.inventory :: m.inventory[p].stock >= 0
  }

  lemma FreshStepConserves(m: Memory, op: Operation, known: set<Reservation>)
    requires GoodMemory(m) && WellTyped(op) && KnownEnded(known, m) && SavesKnown(known, op)
    requires op.Reserve? ==> op.reservation.reservationId !in m.reservations
    ensures StepConserves(m, op) && StockNonNegative(MemoryStep(m, op))
  {
    match op {
      case Reserve(r) =>
        hide GoodMemory, Reserved, HasActive, MemoryCreate;
        FreshReserveConserves(m, r);
      case Finalize(_, _, _, _) => FinalizedConserves(m, op);
      case SaveReservation(r) =>
        assert !OverwritesActive(m, op);
        StockOfGood(m);
        hide GoodMemory, Reserved, StepConserves, KnownEnded;
        SaveConservesIffNotActive(m, r);
    }
  }

  lemma FreshReserveConserves(m: Memory, r: Reservation)
    requires GoodMemory(m) && r.state == ACTIVE && r.reservationId !in m.reservations
    ensures var m' := MemoryStep(m, Operation.Reserve(r));
      && m'.inventory.Keys == m.inventory.Keys
      && forall p | p in m.inventory :: m'.inventory[p].stock >= 0 && m'.inventory[p].stock + Reserved(m', p) == m.inventory[p].stock + Reserved(m, p)
  {
    hide HasActive, Reserved;
    if MemoryCreate(m, r).Ok? {
      forall p | p in m.inventory {
        CreateMoves(m, r, p);
      }
    }
  }

  lemma StockOfGood(m: Memory)
    requires GoodMemory(m)
    ensures StockNonNegative(m)
  {}

  ghost predicate DocumentsStepConserves(d: Documents, op: Operation) {
    var d', reply := DocumentsStep(d, op), DocumentsReply(d, op);
    && d'.inventory.Keys == d.inventory.Keys
    && forall p | p in d.inventory ::
         d'.inventory[p].stock + Reserved(View(d'), p) + Consumed(op, reply, p) == d.inventory[p].stock + Reserved(View(d), p)
  }

  lemma KnownIdDoesNothing(d: Documents, op: Operation, known: set<Reservation>)
    requires op.Reserve? && op.reservation.reservationId in d.reservations
    ensures DocumentsStep(d, op) == d && DocumentsStepConserves(d, op) && Learn(known, DocumentsReply(d, op)) == known
  {
    hide Reserved;
  }

  lemma FirestoreStepConserves(d: Documents, op: Operation, known: set<Reservation>)
    requires GoodDocuments(d) && WellTyped(op) && KnownEnded(known, View(d)) && SavesKnown(known, op)
    ensures GoodDocuments(DocumentsStep(d, op)) && DocumentsStepConserves(d, op)
    ensures KnownEnded(Learn(known, DocumentsReply(d, op)), View(DocumentsStep(d, op)))
  {
    hide Reserved, KnownEnded, GoodMemory, MemoryFinalize, DocumentsFinalize, MemoryCreate, DocumentsCreate, Related, HasActive, SavesKnown;
    var m := View(d);
    if op.Reserve? && op.reservation.reservationId in d.reservations {
      KnownIdDoesNothing(d, op, known);
    } else {
      ExactIndexIsGood(d);
      FreshStepConserves(m, op, known);
      StepRefines(m, d, op, known);
      SameView(MemoryStep(m, op), DocumentsStep(d, op));
    }
  }

  lemma SameView(m: Memory, d: Documents)
    requires Related(m, d)
    ensures View(d) == m
  {}

  /** In Firestore a known reservation id is never used again, so a save is always harmless: on
      every run, whatever the ids and the interleaving, stock, active reservations and
      everything consumed add up, and the index stays exact. */
  lemma {:induction false} FirestoreConserves(d: Documents, ops: seq<Operation>, known: set<Reservation>)
    requires GoodDocuments(d) && (forall i | 0 <= i < |ops| :: WellTyped(ops[i]))
    requires KnownEnded(known, View(d)) && DocumentsSavesReturned(known, d, ops)
    ensures var d' := DocumentsRun(d, ops).0;
      && GoodDocuments(d') && d'.inventory.Keys == d.inventory.Keys
      && forall p | p in d.inventory ::
           d'.inventory[p].stock + Reserved(View(d'), p) + DocumentsConsumedOver(d, ops, p) == d.inventory[p].stock + Reserved(View(d), p)
    decreases |ops|
  {
    if ops != [] {
      FirestoreStepConserves(d, ops[0], known);
      hide GoodDocuments, KnownEnded, DocumentsStep, DocumentsReply, Reserved, Consumed, SavesKnown;
      FirestoreConserves(DocumentsStep(d, ops[0]), ops[1..], Learn(known, DocumentsReply(d, ops[0])));
    }
  }

  const LATE_UNIT := Reservation("res_s_p", "s", "p", 1, 0, 5, ACTIVE, false)
  const LATE_ENDED := LATE_UNIT.(state := EXPIRED)
  const LATE_AGAIN := LATE_UNIT.(createdAt := 6)
  const LATE_SAVE := LATE_ENDED.(settlementRequested := true)
  const LATE_RUN := [Finalize("s", "res_s_p", EXPIRED, 5), Operation.Reserve(LATE_AGAIN), SaveReservation(LATE_SAVE)]

  function LateStore(stock: Stock, r: Reservation): Memory {
    Memory(map["p" := stock], map["res_s_p" := r])
  }

  lemma LateFinalize(active: map<string, string>)
    requires active == map["s" := "res_s_p"]
    ensures MemoryFinalize(LateStore(Stock(0, 0), LATE_UNIT), "s", "res_s_p", EXPIRED, 5) == (LateStore(Stock(1, 5), LATE_ENDED), Ok(Finalized(LATE_ENDED, true)))
    ensures DocumentsFinalize(Documents(map["p" := Stock(0, 0)], map["res_s_p" := LATE_UNIT], active), "s", "res_s_p", EXPIRED, 5)
         == (Documents(map["p" := Stock(1, 5)], map["res_s_p" := LATE_ENDED], map[]), Ok(Finalized(LATE_ENDED, true)))
  {
    var unit, stored := LATE_UNIT, Stock(0, 0);
    assert map["res_s_p" := unit]["res_s_p" := LATE_ENDED] == map["res_s_p" := LATE_ENDED];
    assert map["p" := stored]["p" := Stock(1, 5)] == map["p" := Stock(1, 5)];
    assert active - {"s"} == map[];
  }

  lemma LateReserve()
    ensures MemoryCreate(LateStore(Stock(1, 5), LATE_ENDED), LATE_AGAIN) == Ok(LateStore(Stock(0, 6), LATE_AGAIN))
    ensures MemorySave(LateStore(Stock(0, 6), LATE_AGAIN), LATE_SAVE) == LateStore(Stock(0, 6), LATE_SAVE)
    ensures DocumentsSave(Documents(map["p" := Stock(1, 5)], map["res_s_p" := LATE_ENDED], map[]), LATE_SAVE)
         == Documents(map["p" := Stock(1, 5)], map["res_s_p" := LATE_SAVE], map[])
  {
    var ended := LATE_ENDED;
    assert map["res_s_p" := ended]["res_s_p" := LATE_AGAIN] == map["res_s_p" := LATE_AGAIN];
    assert map["res_s_p" := ended]["res_s_p" := LATE_SAVE] == map["res_s_p" := LATE_SAVE];
    assert map["res_s_p" := LATE_AGAIN]["res_s_p" := LATE_SAVE] == map["res_s_p" := LATE_SAVE];
    assert map["p" := Stock(1, 5)]["p" := Stock(0, 6)] == map["p" := Stock(0, 6)];
  }

  /** A reservation that is made anew between a finalisation and its save breaks the sum: the
      unit in stock is handed out again, and the save ends the new reservation without giving
      it back. In Firestore the second reservation does nothing, so the save is harmless. */
  lemma LateSaveLosesStock()
    ensures var m, d := LateStore(Stock(0, 0), LATE_UNIT), Documents(map["p" := Stock(0, 0)], map["res_s_p" := LATE_UNIT], map["s" := "res_s_p"]);
      && SavesReturned({}, m, LATE_RUN) && !AlwaysConserves(m, LATE_RUN)
      && MemoryRun(m, LATE_RUN).0 == LateStore(Stock(0, 6), LATE_SAVE)
      && DocumentsRun(d, LATE_RUN).0 == Documents(map["p" := Stock(1, 5)], map["res_s_p" := LATE_SAVE], map[])
  {
    var m, active: map<string, string> := LateStore(Stock(0, 0), LATE_UNIT), map["s" := "res_s_p"];
    var m1, m2 := LateStore(Stock(1, 5), LATE_ENDED), LateStore(Stock(0, 6), LATE_AGAIN);
    var a, b, c := LATE_RUN[0], LATE_RUN[1], LATE_RUN[2];
    LateFinalize(active);
    LateReserve();
    assert MemoryStep(m, a) == m1 && MemoryReply(m, a) == Ended(Finalized(LATE_ENDED, true));
    assert MemoryStep(m1, b) == m2 && MemoryReply(m1, b) == Done;
    assert OverwritesActive(m2, c);
    var d, d1 := Documents(map["p" := Stock(0, 0)], map["res_s_p" := LATE_UNIT], active), Documents(map["p" := Stock(1, 5)], map["res_s_p" := LATE_ENDED], map[]);
    assert DocumentsStep(d, a) == d1 && DocumentsStep(d1, b) == d1;
    assert LATE_RUN[1..] == [b, c] && [b, c][1..] == [c] && [c][1..] == [];
    hide MemoryFinalize, DocumentsFinalize, MemoryCreate, DocumentsCreate, LateStore;
    assert DocumentsRun(d1, [c]).0 == DocumentsStep(d1, c) && DocumentsRun(d1, [b, c]).0 == DocumentsRun(d1, [c]).0;
    assert MemoryRun(m2, [c]).0 == MemoryStep(m2, c) && MemoryRun(m1, [b, c]).0 == MemoryRun(m2, [c]).0;
    LateSaves(m, m1, m2, a, b, c);
    assert LATE_RUN == [a, b, c];
    LateIsGood(m);
    hide MemoryStep, MemoryReply, SavesReturned, NeverOverwritesActive, AlwaysConserves, GoodMemory, OwnedIds, KnownOwned;
    ConservedIffSavesInTime(m, LATE_RUN, id => "s", {});
  }

  lemma LateSaves(m: Memory, m1: Memory, m2: Memory, a: Operation, b: Operation, c: Operation)
    requires !a.SaveReservation? && !b.SaveReservation? && c == SaveReservation(LATE_SAVE)
    requires MemoryStep(m, a) == m1 && MemoryReply(m, a) == Ended(Finalized(LATE_ENDED, true))
    requires MemoryStep(m1, b) == m2 && MemoryReply(m1, b) == Done && OverwritesActive(m2, c)
    ensures SavesReturned({}, m, [a, b, c]) && !NeverOverwritesActive(m, [a, b, c])
  {
    hide MemoryStep, MemoryReply, OverwritesActive;
    assert [a, b, c][1..] == [b, c] && [b, c][1..] == [c] && [c][1..] == [];
    assert Learn({}, MemoryReply(m, a)) == {LATE_ENDED} == Learn({LATE_ENDED}, MemoryReply(m1, b));
    assert SavesKnown({LATE_ENDED}, c) by { assert LATE_ENDED in {LATE_ENDED}; }
    assert SavesReturned({LATE_ENDED}, m2, [c]);
    assert SavesReturned({LATE_ENDED}, m1, [b, c]);
    assert !NeverOverwritesActive(m2, [c]);
    assert !NeverOverwritesActive(m1, [b, c]);
  }

  lemma LateIsGood(m: Memory)
    requires m == LateStore(Stock(0, 0), LATE_UNIT)
    ensures GoodMemory(m) && OwnedIds(id => "s", m, LATE_RUN) && KnownOwned({}, m, id => "s")
  {}

  // ---------------------------------------------------------------------------------
  // The gateway's reservation ids (apps/gateway/src/commerce.ts)
  // ---------------------------------------------------------------------------------

  function ReservationId(sessionId: string, productId: string): string {
    "res_" + sessionId + "_" + productId
  }

  /** Product ids have no underscore, so the id determines session and product. */
  lemma {:induction false} ReservationIdInjective(s: string, p: string, t: string, q: string)
    requires '_' !in p && '_' !in q && ReservationId(s, p) == ReservationId(t, q)
    ensures s == t && p == q
  {
    var u, w := ReservationId(s, p), ReservationId(t, q);
    var m := if |p| < |q| then |p| else |q|;
    assert u[|u| - 1 - m] == w[|w| - 1 - m];
    assert |p| == |q|;
    assert p == u[|u| - |p|..] && q == w[|w| - |q|..];
    assert s == u[4..|u| - |p| - 1] && t == w[4..|w| - |q| - 1];
  }

  /** With an underscore in a product id two sessions can collide. */
  lemma ReservationIdsCollide()
    ensures ReservationId("ses_a_b", "c") == ReservationId("ses_a", "b_c") && "ses_a_b" != "ses_a"
  {
    assert ReservationId("ses_a_b", "c") == "res_ses_a_b_c";
    assert ReservationId("ses_a", "b_c") == "res_ses_a_b_c";
  }

  /** The gateway names a reservation after its session and product. */
  predicate GatewayId(r: Reservation) {
    r.reservationId == ReservationId(r.sessionId, r.productId) && '_' !in r.productId
  }

  predicate NamedFor(id: string, s: string, p: string) {
    id == ReservationId(s, p) && '_' !in p
  }

  ghost function OwnerOf(id: string): (owner: string)
    ensures (exists s, p :: NamedFor(id, s, p)) ==> exists p :: NamedFor(id, owner, p)
  {
    if exists s, p :: NamedFor(id, s, p) then
      var s :| exists p :: NamedFor(id, s, p); s
    else ""
  }

  lemma OwnerOfGatewayId(r: Reservation)
    requires GatewayId(r)
    ensures OwnerOf(r.reservationId) == r.sessionId
  {
    assert NamedFor(r.reservationId, r.sessionId, r.productId);
    var p :| NamedFor(r.reservationId, OwnerOf(r.reservationId), p);
    ReservationIdInjective(OwnerOf(r.reservationId), p, r.sessionId, r.productId);
  }

  /** All reservations, stored, handed out or still to be made, have the gateway's ids. */
  ghost predicate GatewayIds(m: Memory, ops: seq<Operation>, known: set<Reservation>) {
    && (forall r | r in m.reservations :: GatewayId(m.reservations[r]))
    && (forall i | 0 <= i < |ops| && ops[i].Reserve? :: GatewayId(ops[i].reservation))
    && (forall q | q in known :: GatewayId(q))
  }

  lemma GatewayIdsAreOwned(m: Memory, ops: seq<Operation>, known: set<Reservation>)
    requires GoodMemory(m) && GatewayIds(m, ops, known)
    requires forall q | q in known :: q.state != ACTIVE && q.productId in m.inventory
    ensures OwnedIds(OwnerOf, m, ops) && KnownOwned(known, m, OwnerOf)
  {
    forall r | r in m.reservations ensures OwnerOf(r) == m.reservations[r].sessionId {
      OwnerOfGatewayId(m.reservations[r]);
    }
    forall i | 0 <= i < |ops| && ops[i].Reserve? ensures OwnerOf(ops[i].reservation.reservationId) == ops[i].reservation.sessionId {
      OwnerOfGatewayId(ops[i].reservation);
    }
    forall q | q in known ensures OwnerOf(q.reservationId) == q.sessionId {
      OwnerOfGatewayId(q);
    }
  }

  /** The gateway's in-memory store conserves every product at every moment of a run exactly if
      no save meets a reservation that is active again. */
  lemma GatewayConservesIff(m: Memory, ops: seq<Operation>, known: set<Reservation>)
    requires GoodMemory(m) && GatewayIds(m, ops, known) && forall i | 0 <= i < |ops| :: WellTyped(ops[i])
    requires (forall q | q in known :: q.state != ACTIVE && q.productId in m.inventory) && SavesReturned(known, m, ops)
    ensures AlwaysConserves(m, ops) <==> NeverOverwritesActive(m, ops)
    ensures GoodMemory(MemoryRun(m, ops).0)
  {
    hide OwnerOf;
    GatewayIdsAreOwned(m, ops, known);
    hide GoodMemory, GatewayIds, SavesReturned, AlwaysConserves, NeverOverwritesActive, OwnedIds, KnownOwned, MemoryRun;
    ConservedIffSavesInTime(m, ops, OwnerOf, known);
  }

  /** So the gateway conserves its inventory on every run in which no reservation is made
      between the finalisation of an earlier one with its id and the save that follows. */
  lemma GatewayConservesInventory(m: Memory, ops: seq<Operation>, known: set<Reservation>)
    requires GoodMemory(m) && GatewayIds(m, ops, known) && forall i | 0 <= i < |ops| :: WellTyped(ops[i])
    requires KnownEnded(known, m) && SavesTimely(known, m, ops)
    ensures var m' := MemoryRun(m, ops).0;
      && GoodMemory(m') && m'.inventory.Keys == m.inventory.Keys
      && forall p | p in m.inventory ::
           m'.inventory[p].stock + Reserved(m', p) + ConsumedOver(m, ops, p) == m.inventory[p].stock + Reserved(m, p)
  {
    hide OwnerOf, Reserved;
    GatewayIdsAreOwned(m, ops, known);
    hide GoodMemory, GatewayIds, KnownEnded, SavesReturned, SavesTimely, NeverOverwritesActive, OwnedIds, KnownOwned, MemoryRun;
    TimelySavesAreHarmless(m, ops, OwnerOf, known, known);
    InventoryConserved(m, ops, OwnerOf, known);
  }
}
