/**
 * The settlement-attempt journal: attempts persisted before anything is submitted, merged when
 * concurrent settlers save their outcome, and the claims on evidence nonces
 * (apps/gateway/src/settlement-attempt.ts, apps/gateway/src/repository.ts).
 */
module SettlementJournal {
  import opened Wrappers
  import opened Primitives
  import opened AdapterContract
  import opened SettlementEvidence

  /** Attempt ids, which are also the adapter's idempotency keys. */
  datatype SettlementKey = CloseKey(sessionId: string) | ExpiryKey(sessionId: string, reservationId: string)

  function KeyText(k: SettlementKey): string {
    match k
    case CloseKey(sessionId) => "close:" + sessionId
    case ExpiryKey(sessionId, reservationId) => "expiry:" + sessionId + ":" + reservationId
  }

  /** Session ids never contain a colon, so the text of a key determines the key. */
  lemma {:induction false} KeyTextInjective(j: SettlementKey, k: SettlementKey)
    requires ':' !in j.sessionId && ':' !in k.sessionId && KeyText(j) == KeyText(k)
    ensures j == k
  {
    assert KeyText(j)[0] == KeyText(k)[0];
    if j.CloseKey? {
      assert KeyText(j)[6..] == j.sessionId && KeyText(k)[6..] == k.sessionId;
    } else {
      assert KeyText(j)[7..] == j.sessionId + (":" + j.reservationId) && KeyText(k)[7..] == k.sessionId + (":" + k.reservationId);
      ColonSplits(j.sessionId, j.reservationId, k.sessionId, k.reservationId);
    }
  }

  lemma {:induction false} ColonSplits(a: string, x: string, b: string, y: string)
    requires ':' !in a && ':' !in b && a + (":" + x) == b + (":" + y)
    ensures a == b && x == y
  {
    var u, w := a + (":" + x), b + (":" + y);
    var m := if |a| < |b| then |a| else |b|;
    assert u[m] == w[m];
    assert |a| == |b|;
    assert a == u[..m] && b == w[..m] && x == u[m + 1..] && y == w[m + 1..];
  }

  datatype Attempt = Attempt(
    key: SettlementKey, evidence: Evidence, status: AdapterStatus, retryable: bool,
    providerReference: Option<string>, failureCode: Option<FailureCode>, startedAt: int, updatedAt: int)

  datatype JournalError = EVIDENCE_CONFLICT | PROVIDER_REFERENCE_CONFLICT | ATTEMPT_NOT_FOUND

  function Rank(s: AdapterStatus): nat {
    match s case PENDING => 0 case FAILED => 1 case CONFIRMED => 2
  }

  /** `mergeSettlementAttempt` */
  function Merge(current: Attempt, incoming: Attempt): Result<Attempt, JournalError> {
    if current.evidence.evidenceHash != incoming.evidence.evidenceHash then Err(EVIDENCE_CONFLICT)
    else if current.providerReference.Some? && incoming.providerReference.Some? && current.providerReference != incoming.providerReference then
      Err(PROVIDER_REFERENCE_CONFLICT)
    else if current.status == CONFIRMED then Ok(current)
    else if Rank(incoming.status) < Rank(current.status) then Ok(current)
    else
      Ok(current.(status := incoming.status, retryable := incoming.retryable,
                  providerReference := if current.providerReference.Some? then current.providerReference else incoming.providerReference,
                  failureCode := if incoming.status != CONFIRMED then incoming.failureCode else None,
                  updatedAt := incoming.updatedAt))
  }

  /** `createSettlementAttempt`: the first attempt under a key stays. */
  function Create(attempts: map<SettlementKey, Attempt>, attempt: Attempt): map<SettlementKey, Attempt> {
    if attempt.key in attempts then attempts else attempts[attempt.key := attempt]
  }

  /** `saveSettlementAttempt` */
  function Save(attempts: map<SettlementKey, Attempt>, attempt: Attempt): Result<map<SettlementKey, Attempt>, JournalError> {
    if attempt.key !in attempts then Err(ATTEMPT_NOT_FOUND)
    else
      match Merge(attempts[attempt.key], attempt)
      case Err(e) => Err(e)
      case Ok(merged) => Ok(attempts[attempt.key := merged])
  }

  /** `claimSettlementNonce`: whether the nonce now belongs to the evidence. */
  predicate NonceGranted(claims: map<Nonce, Hash>, nonce: Nonce, evidenceHash: Hash) {
    nonce !in claims || claims[nonce] == evidenceHash
  }

  function ClaimNonce(claims: map<Nonce, Hash>, nonce: Nonce, evidenceHash: Hash): map<Nonce, Hash> {
    if nonce in claims then claims else claims[nonce := evidenceHash]
  }

  /** `updateSettlementAttempt`: the record to save for a result. */
  function WithResult(attempt: Attempt, result: AdapterResult, now: int): Attempt {
    attempt.(status := result.status, retryable := result.retryable,
             providerReference := if result.providerReference.Some? then result.providerReference else attempt.providerReference,
             failureCode := result.failureCode, updatedAt := now)
  }

  function FirstOf(a: Option<string>, b: Option<string>): Option<string> {
    if a.Some? then a else b
  }

  /** `updateSettlementAttempt` and the save behind it, for a result that comes with a process's own
      copy of the attempt: refused exactly for an unknown attempt, other evidence or another
      reference; a stored outcome that ranks higher stays as it is; otherwise the stored attempt
      reports the result, and the first reference ever known. */
  lemma UpdateReports(attempts: map<SettlementKey, Attempt>, own: Attempt, result: AdapterResult, now: int)
    ensures var saved := Save(attempts, WithResult(own, result, now));
      if own.key !in attempts then saved == Err(ATTEMPT_NOT_FOUND)
      else
        var was, reference := attempts[own.key], FirstOf(result.providerReference, own.providerReference);
        if was.evidence.evidenceHash != own.evidence.evidenceHash then saved == Err(EVIDENCE_CONFLICT)
        else if was.providerReference.Some? && reference.Some? && was.providerReference != reference then saved == Err(PROVIDER_REFERENCE_CONFLICT)
        else
          && saved.Ok? && saved.value.Keys == attempts.Keys && (forall key | key in attempts && key != own.key :: saved.value[key] == attempts[key])
          && var stored := saved.value[own.key];
          if was.status == CONFIRMED || (was.status == FAILED && result.status == PENDING) then stored == was
          else
            && (stored.key, stored.evidence, stored.startedAt) == (was.key, was.evidence, was.startedAt)
            && (stored.status, stored.retryable, stored.updatedAt) == (result.status, result.retryable, now)
            && stored.failureCode == (if result.status == CONFIRMED then None else result.failureCode)
            && stored.providerReference == FirstOf(was.providerReference, reference)
  {}

  // ---------------------------------------------------------------------------------
  // Concurrent saves
  // ---------------------------------------------------------------------------------

  /** Saves arriving one after the other; one that throws changes nothing. */
  function SaveAll(current: Attempt, updates: seq<Attempt>): Attempt
    decreases |updates|
  {
    if updates == [] then current
    else
      SaveAll(match Merge(current, updates[0]) case Ok(merged) => merged case Err(_) => current, updates[1..])
  }

  /** Whatever concurrent settlers save, in whatever order: identity, evidence and start time
      stay, a provider reference once set stays, a confirmed attempt never changes again and
      the status never falls back. */
  lemma {:induction false} SavesOnlyAdvance(current: Attempt, updates: seq<Attempt>)
    ensures var final := SaveAll(current, updates);
      && final.key == current.key && final.evidence == current.evidence && final.startedAt == current.startedAt
      && (current.providerReference.Some? ==> final.providerReference == current.providerReference)
      && (current.status == CONFIRMED ==> final == current)
      && Rank(final.status) >= Rank(current.status)
    decreases |updates|
  {
    if updates != [] {
      SavesOnlyAdvance(match Merge(current, updates[0]) case Ok(merged) => merged case Err(_) => current, updates[1..]);
    }
  }

  ghost predicate Compatible(a: Attempt, hash: Hash, reference: string) {
    a.evidence.evidenceHash == hash && (a.providerReference == None || a.providerReference == Some(reference))
  }

  /** Saves that share the evidence and name no two references never fail, and the final status
      is the highest ever reported. */
  lemma {:induction false} FinalStatusIsHighest(current: Attempt, updates: seq<Attempt>, hash: Hash, reference: string)
    requires Compatible(current, hash, reference) && forall u | u in updates :: Compatible(u, hash, reference)
    ensures var final := SaveAll(current, updates);
      && Rank(final.status) >= Rank(current.status)
      && (forall u | u in updates :: Rank(final.status) >= Rank(u.status))
      && (final.status == current.status || exists u | u in updates :: final.status == u.status)
    decreases |updates|
  {
    if updates != [] {
      assert updates[0] in updates;
      var next := Merge(current, updates[0]).value;
      FinalStatusIsHighest(next, updates[1..], hash, reference);
      assert updates == [updates[0]] + updates[1..];
    }
  }

  /** What a save reports of the call: all of it, except that success has no failure code. */
  predicate Reports(final: Attempt, u: Attempt) {
    && final.status == u.status && final.retryable == u.retryable && final.updatedAt == u.updatedAt
    && final.failureCode == if u.status == CONFIRMED then None else u.failureCode
  }

  /** Concurrent saves are never mixed: the final status, retryability, failure code and time
      are those of one and the same save, or the initial ones. */
  lemma {:induction false} FinalReportIsOneSave(current: Attempt, updates: seq<Attempt>)
    ensures var final := SaveAll(current, updates);
      || (final.status, final.retryable, final.failureCode, final.updatedAt) == (current.status, current.retryable, current.failureCode, current.updatedAt)
      || exists u | u in updates :: Reports(final, u)
    decreases |updates|
  {
    if updates != [] {
      var next := match Merge(current, updates[0]) case Ok(merged) => merged case Err(_) => current;
      FinalReportIsOneSave(next, updates[1..]);
      var final := SaveAll(current, updates);
      assert final == SaveAll(next, updates[1..]);
      if u :| u in updates[1..] && Reports(final, u) {
        assert u in updates;
      } else if next != current {
        assert updates[0] in updates && Reports(final, updates[0]);
      }
    }
  }

  /** Hence the order of the saves does not matter to the final status. */
  lemma OrderOfSavesIsIrrelevant(current: Attempt, updates: seq<Attempt>, reordered: seq<Attempt>, hash: Hash, reference: string)
    requires Compatible(current, hash, reference) && forall u | u in updates :: Compatible(u, hash, reference)
    requires multiset(updates) == multiset(reordered)
    ensures SaveAll(current, updates).status == SaveAll(current, reordered).status
  {
    forall u ensures u in updates <==> u in reordered {
      assert u in multiset(updates) <==> u in multiset(reordered);
    }
    FinalStatusIsHighest(current, updates, hash, reference);
    FinalStatusIsHighest(current, reordered, hash, reference);
  }

  /** The reference does depend on the order: a pending save that carries the reference is
      dropped when a failed one without it came first. */
  lemma ReferenceDependsOnOrder(current: Attempt)
    requires current.status == PENDING && current.providerReference == None
    ensures var pending := current.(providerReference := Some("sig"));
      var failed := current.(status := FAILED);
      && SaveAll(current, [pending, failed]).providerReference == Some("sig")
      && SaveAll(current, [failed, pending]).providerReference == None
  {
    var pending := current.(providerReference := Some("sig"));
    var failed := current.(status := FAILED);
    assert [pending, failed][1..] == [failed] && [failed, pending][1..] == [pending] && [failed][1..] == [] && [pending][1..] == [];
    assert Merge(current, failed) == Ok(failed) == Merge(failed, pending);
    assert SaveAll(failed, [pending]) == SaveAll(failed, []);
    assert Merge(current, pending) == Ok(pending);
    assert SaveAll(pending, [failed]) == SaveAll(Merge(pending, failed).value, []);
  }
}
