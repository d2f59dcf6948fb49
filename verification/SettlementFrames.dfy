/** What a step of the settlement protocol has to care about: only what it changes. */
module SettlementFrames {
  import opened Wrappers
  import opened AdapterContract
  import opened SettlementJournal
  import opened Settlement
  import opened SettlementInvariant
  import P = BondProgram
  import B = BondAdapter

  // ---------------------------------------------------------------------------------
  // What a step leaves alone
  // ---------------------------------------------------------------------------------

  ghost predicate OnlyTouches(w: World, w': World, touched: Option<string>) {
    forall id | Some(id) != touched :: Untouched(w, w', id)
  }

  /** Nobody but the acting process owns the session. */
  ghost predicate Unowned(w: World, acting: Option<nat>, id: string) {
    forall q | q in w.processes && Some(q) != acting :: Owns(w.processes[q]) != Some(id)
  }

  ghost predicate OnlyActs(w: World, w': World, acting: Option<nat>) {
    forall q | q in w'.processes && Some(q) != acting :: q in w.processes && w'.processes[q] == w.processes[q]
  }

  lemma SessionsKept(w: World, w': World, touched: Option<string>)
    requires SessionsGood(w) && Grows(w, w') && OnlyTouches(w, w', touched)
    requires touched.Some? && touched.value in w'.sessions ==> SessionGood(w', touched.value)
    ensures SessionsGood(w')
  {
    forall id | id in w'.sessions ensures SessionGood(w', id) {
      if Some(id) != touched {
        assert Untouched(w, w', id);
        SessionStable(w, w', id);
      }
    }
  }

  lemma ReservationsKept(w: World, w': World)
    requires SessionsGood(w) && ReservationsGood(w) && Grows(w, w')
    requires forall r | r in w'.goods.reservations ::
      if r in w.goods.reservations then w'.goods.reservations[r].reservationId == w.goods.reservations[r].reservationId else ReservationGood(w', r)
    ensures ReservationsGood(w')
  {
    forall r | r in w'.goods.reservations ensures ReservationGood(w', r) {
      if r in w.goods.reservations {
        assert ReservationGood(w, r);
        assert SessionGood(w, w.goods.reservations[r].sessionId) && SessionGrows(w, w', w.goods.reservations[r].sessionId);
      }
    }
  }

  lemma AttemptsKept(w: World, w': World)
    requires SessionsGood(w) && AttemptsGood(w) && Grows(w, w')
    requires forall key | key in w'.attempts :: key in w.attempts || AttemptGood(w', key)
    ensures AttemptsGood(w')
  {
    forall key | key in w'.attempts ensures AttemptGood(w', key) {
      if key in w.attempts { AttemptStable(w, w', key); }
    }
  }

  lemma CachesKept(w: World, w': World, changed: Option<nat>)
    requires SessionsGood(w) && AttemptsGood(w) && CachesGood(w) && Grows(w, w')
    requires forall a | a in w'.caches && Some(a) != changed :: a in w.caches && w'.caches[a] == w.caches[a]
    requires changed.Some? && changed.value in w'.caches ==> CacheGood(w', w'.caches[changed.value])
    ensures CachesGood(w')
  {
    forall a | a in w'.caches ensures CacheGood(w', w'.caches[a]) {
      if Some(a) != changed { CacheStable(w, w', w.caches[a]); }
    }
  }

  lemma SubmissionsKept(w: World, w': World, changed: Option<nat>)
    requires SubmissionsGood(w) && Grows(w, w')
    requires forall i | 0 <= i < |w'.submissions| && Some(i) != changed :: i < |w.submissions| && w'.submissions[i] == w.submissions[i]
    requires changed.Some? && changed.value < |w'.submissions| ==> SubmissionGood(w', w'.submissions[changed.value])
    ensures SubmissionsGood(w')
  {
    forall i | 0 <= i < |w'.submissions| ensures SubmissionGood(w', w'.submissions[i]) {
      if Some(i) != changed { SubmissionStable(w, w', w.submissions[i]); }
    }
  }

  lemma ProcessesKept(w: World, w': World, acting: Option<nat>, touched: Option<string>)
    requires ProcessesGood(w) && Grows(w, w') && OnlyTouches(w, w', touched) && OnlyActs(w, w', acting)
    requires touched.Some? ==> Unowned(w, acting, touched.value)
    requires acting.Some? && acting.value in w'.processes ==> ProcessGood(w', w'.processes[acting.value])
    ensures ProcessesGood(w')
  {
    forall q | q in w'.processes ensures ProcessGood(w', w'.processes[q]) {
      if Some(q) != acting {
        if Owns(w.processes[q]).Some? { assert Untouched(w, w', Owns(w.processes[q]).value); }
        ProcessStable(w, w', w.processes[q]);
      }
    }
  }

  lemma OwnersKept(w: World, w': World, acting: Option<nat>, touched: Option<string>)
    requires OwnersDistinct(w) && OnlyActs(w, w', acting)
    requires touched.Some? ==> Unowned(w, acting, touched.value)
    requires acting.Some? && acting.value in w'.processes ==> Owns(w'.processes[acting.value]) == None || Owns(w'.processes[acting.value]) == touched
    ensures OwnersDistinct(w')
  {}

  lemma NoncesKept(w: World, w': World)
    requires NoncesGood(w) && Grows(w, w') && w'.nonces == w.nonces && w'.attempts.Keys == w.attempts.Keys
    ensures NoncesGood(w')
  {}

  lemma ExitsKept(w: World, w': World)
    requires ExitsGood(w) && Grows(w, w') && w'.chain == w.chain && w'.settledBy == w.settledBy
    ensures ExitsGood(w')
  {}

  /** A step of process `acting` that writes at most the session `touched`, which nobody else
      owns, and leaves both good. */
  ghost predicate Local(w: World, w': World, acting: Option<nat>, touched: Option<string>) {
    && OnlyTouches(w, w', touched) && OnlyActs(w, w', acting)
    && (touched.Some? ==> Unowned(w, acting, touched.value) && (touched.value in w'.sessions ==> SessionGood(w', touched.value)))
    && (acting.Some? && acting.value in w'.processes ==>
          ProcessGood(w', w'.processes[acting.value])
          && (Owns(w'.processes[acting.value]) == None || Owns(w'.processes[acting.value]) == touched))
  }

  /** The parts that belong to no session. */
  ghost predicate StoresGood(w: World) {
    && P.Good(w.chain) && ReservationsGood(w) && AttemptsGood(w) && NoncesGood(w) && CachesGood(w)
    && SubmissionsGood(w) && ExitsGood(w) && VerifiedKnown(w)
  }

  lemma LocalKeeps(w: World, w': World, acting: Option<nat>, touched: Option<string>)
    requires Inv(w) && Grows(w, w') && Local(w, w', acting, touched) && StoresGood(w')
    ensures Inv(w')
  {
    hide SessionGood, ProcessGood, CacheGood, AttemptGood, SubmissionGood, ReservationGood, NoncesGood, ExitsGood, OwnersDistinct;
    SessionsKept(w, w', touched);
    ProcessesKept(w, w', acting, touched);
    OwnersKept(w, w', acting, touched);
  }

  /** A store that is as before is still good. */
  lemma StoresKept(w: World, w': World)
    requires Inv(w) && Grows(w, w')
    requires (w'.chain == w.chain && w'.settledBy == w.settledBy) || (P.Good(w'.chain) && ExitsGood(w'))
    requires w'.goods.reservations == w.goods.reservations || ReservationsGood(w')
    requires w'.attempts == w.attempts || AttemptsGood(w')
    requires (w'.nonces == w.nonces && w'.attempts.Keys == w.attempts.Keys) || NoncesGood(w')
    requires w'.caches == w.caches || CachesGood(w')
    requires w'.submissions == w.submissions || SubmissionsGood(w')
    requires VerifiedKnown(w')
    ensures StoresGood(w')
  {
    hide SessionGood, ProcessGood, CacheGood, AttemptGood, SubmissionGood, ReservationGood, NoncesGood, ExitsGood, OwnersDistinct;
    if w'.chain == w.chain && w'.settledBy == w.settledBy { ExitsKept(w, w'); }
    if w'.goods.reservations == w.goods.reservations { ReservationsKept(w, w'); }
    if w'.attempts == w.attempts { AttemptsKept(w, w'); }
    if w'.nonces == w.nonces && w'.attempts.Keys == w.attempts.Keys { NoncesKept(w, w'); }
    if w'.caches == w.caches { CachesKept(w, w', None); }
    if w'.submissions == w.submissions { SubmissionsKept(w, w', None); }
  }

  /** Everything but sessions, payments and processes is as before. */
  predicate SameStores(w: World, w': World) {
    && w'.gateway == w.gateway && w'.secret == w.secret && w'.chain == w.chain && w'.settledBy == w.settledBy
    && w'.goods == w.goods && w'.attempts == w.attempts && w'.nonces == w.nonces && w'.caches == w.caches
    && w'.submissions == w.submissions && w'.verified == w.verified
  }

  /** A step on sessions only. */
  lemma SessionStepKeeps(w: World, w': World, acting: Option<nat>, touched: Option<string>)
    requires Inv(w) && Grows(w, w') && SameStores(w, w') && Local(w, w', acting, touched)
    requires touched.Some? && touched.value in w.verified ==> touched.value in w'.sessions
    ensures Inv(w')
  {
    hide SessionGood, ProcessGood, CacheGood, AttemptGood, SubmissionGood, ReservationGood, NoncesGood, ExitsGood, OwnersDistinct;
    forall id | id in w'.verified ensures id in w'.sessions {
      assert Some(id) != touched ==> Untouched(w, w', id);
    }
    StoresKept(w, w');
    LocalKeeps(w, w', acting, touched);
  }

  /** Everything that is stored under sessions is as before. */
  predicate SameSessions(w: World, w': World) {
    && w'.gateway == w.gateway && w'.secret == w.secret
    && w'.sessions == w.sessions && w'.paid == w.paid && w'.verified == w.verified
  }

  /** A step of a process that writes no session. */
  lemma StoreStepKeeps(w: World, w': World, acting: Option<nat>)
    requires Inv(w) && Grows(w, w') && SameSessions(w, w') && OnlyActs(w, w', acting) && StoresGood(w')
    requires acting.Some? && acting.value in w'.processes ==>
      Owns(w'.processes[acting.value]) == None && ProcessGood(w', w'.processes[acting.value])
    ensures Inv(w')
  {
    hide SessionGood, ProcessGood, CacheGood, AttemptGood, SubmissionGood, ReservationGood, NoncesGood, ExitsGood, OwnersDistinct;
    LocalKeeps(w, w', acting, None);
  }

  lemma GrowsIfSameSessions(w: World, w': World)
    requires SameSessions(w, w') && w'.chain == w.chain && w'.submissions == w.submissions
    requires forall key | key in w.attempts :: key in w'.attempts && w'.attempts[key].key == w.attempts[key].key && w'.attempts[key].evidence == w.attempts[key].evidence
    requires forall r | r in w.goods.reservations ::
      r in w'.goods.reservations && w'.goods.reservations[r].sessionId == w.goods.reservations[r].sessionId
      && w'.goods.reservations[r].productId == w.goods.reservations[r].productId
    ensures Grows(w, w')
  {}

  /** A step of a process that only thinks. */
  lemma ProcessStepKeeps(w: World, w': World, p: nat)
    requires Inv(w) && w' == w.(processes := w'.processes) && OnlyActs(w, w', Some(p))
    requires p in w'.processes ==> Owns(w'.processes[p]) == None && ProcessGood(w, w'.processes[p])
    ensures Inv(w') && Grows(w, w')
  {
    hide SessionGood, ProcessGood, CacheGood, AttemptGood, SubmissionGood, ReservationGood, NoncesGood, ExitsGood, OwnersDistinct;
    GrowsIfSameSessions(w, w');
    StoresKept(w, w');
    if p in w'.processes { ProcessStable(w, w', w'.processes[p]); }
    StoreStepKeeps(w, w', Some(p));
  }

  lemma CacheStepKeeps(w: World, w': World, p: nat, a: nat, c: B.Cache)
    requires Inv(w) && w' == w.(caches := w.caches[a := c], processes := w'.processes) && OnlyActs(w, w', Some(p)) && CacheGood(w, c)
    requires p in w'.processes && Owns(w'.processes[p]) == None && ProcessGood(w, w'.processes[p])
    ensures Inv(w') && Grows(w, w')
  {
    hide SessionGood, ProcessGood, CacheGood, AttemptGood, SubmissionGood, ReservationGood, NoncesGood, ExitsGood, OwnersDistinct;
    GrowsIfSameSessions(w, w');
    CacheStable(w, w', c);
    CachesKept(w, w', Some(a));
    StoresKept(w, w');
    ProcessStable(w, w', w'.processes[p]);
    StoreStepKeeps(w, w', Some(p));
  }

  lemma GoodsStepKeeps(w: World, w': World, acting: Option<nat>)
    requires Inv(w) && w' == w.(goods := w'.goods, processes := w'.processes) && OnlyActs(w, w', acting)
    requires forall r | r in w.goods.reservations ::
      r in w'.goods.reservations && w'.goods.reservations[r].sessionId == w.goods.reservations[r].sessionId
      && w'.goods.reservations[r].productId == w.goods.reservations[r].productId
      && w'.goods.reservations[r].reservationId == w.goods.reservations[r].reservationId
    requires forall r | r in w'.goods.reservations && r !in w.goods.reservations :: ReservationGood(w', r)
    requires acting.Some? && acting.value in w'.processes ==>
      Owns(w'.processes[acting.value]) == None && ProcessGood(w', w'.processes[acting.value])
    ensures Inv(w') && Grows(w, w')
  {
    hide SessionGood, ProcessGood, CacheGood, AttemptGood, SubmissionGood, ReservationGood, NoncesGood, ExitsGood, OwnersDistinct;
    GrowsIfSameSessions(w, w');
    ReservationsKept(w, w');
    StoresKept(w, w');
    StoreStepKeeps(w, w', acting);
  }

  /** A step that changes journal entries beside their key and evidence. */
  lemma AttemptStepKeeps(w: World, w': World, p: nat)
    requires Inv(w) && w' == w.(attempts := w'.attempts, processes := w'.processes) && OnlyActs(w, w', Some(p))
    requires w'.attempts.Keys == w.attempts.Keys
    requires forall key | key in w.attempts :: w'.attempts[key].key == w.attempts[key].key && w'.attempts[key].evidence == w.attempts[key].evidence
    requires p in w'.processes && Owns(w'.processes[p]) == None && ProcessGood(w', w'.processes[p])
    ensures Inv(w') && Grows(w, w')
  {
    hide SessionGood, ProcessGood, CacheGood, AttemptGood, SubmissionGood, ReservationGood, NoncesGood, ExitsGood, OwnersDistinct;
    GrowsIfSameSessions(w, w');
    AttemptsKept(w, w');
    StoresKept(w, w');
    StoreStepKeeps(w, w', Some(p));
  }

  lemma GrowsByChain(w: World, w': World)
    requires SameSessions(w, w') && w'.attempts == w.attempts && w'.goods == w.goods && P.Extends(w.chain, w'.chain)
    requires |w'.submissions| == |w.submissions| && forall i | 0 <= i < |w.submissions| :: w'.submissions[i].key == w.submissions[i].key
    ensures Grows(w, w')
  {}

  lemma ChainStepKeeps(w: World, w': World, changed: Option<nat>)
    requires Inv(w) && w' == w.(chain := w'.chain, submissions := w'.submissions, settledBy := w'.settledBy)
    requires P.Extends(w.chain, w'.chain) && P.Good(w'.chain) && ExitsGood(w')
    requires |w'.submissions| == |w.submissions| && forall i | 0 <= i < |w.submissions| :: w'.submissions[i].key == w.submissions[i].key
    requires forall i | 0 <= i < |w.submissions| && Some(i) != changed :: w'.submissions[i] == w.submissions[i]
    requires changed.Some? && changed.value < |w.submissions| ==> SubmissionGood(w', w'.submissions[changed.value])
    ensures Inv(w')
  {
    hide SessionGood, ProcessGood, CacheGood, AttemptGood, SubmissionGood, ReservationGood, NoncesGood, ExitsGood, OwnersDistinct, P.Good;
    GrowsByChain(w, w');
    SubmissionsKept(w, w', changed);
    StoresKept(w, w');
    StoreStepKeeps(w, w', None);
  }

  /** A step that makes sure there is a journal entry. */
  lemma NewAttemptStepKeeps(w: World, w': World, p: nat, key: SettlementKey)
    requires Inv(w) && Grows(w, w') && w' == w.(attempts := w'.attempts, processes := w'.processes) && OnlyActs(w, w', Some(p))
    requires w'.attempts.Keys == w.attempts.Keys + {key}
    requires if key in w.attempts then w'.attempts == w.attempts else AttemptGood(w', key) && NoncesGood(w')
    requires p in w'.processes && Owns(w'.processes[p]) == None && ProcessGood(w', w'.processes[p])
    ensures Inv(w')
  {
    hide SessionGood, ProcessGood, CacheGood, AttemptGood, SubmissionGood, ReservationGood, NoncesGood, ExitsGood, OwnersDistinct, P.Good;
    AttemptsKept(w, w');
    StoresKept(w, w');
    StoreStepKeeps(w, w', Some(p));
  }
}
