/**
 * Settlement evidence (packages/payment-client/src/settlement-evidence.ts): a payload, the hash
 * of its canonical JSON, and a keyed signature over that hash.
 */
module SettlementEvidence {
  import opened Wrappers
  import opened Primitives
  import opened CanonicalJson

  datatype Outcome = VALID_CLOSE | EXPIRED_RESERVATION

  /** `close:<session>` and `expiry:<reservation>` */
  datatype Nonce = CloseNonce(sessionId: string) | ExpiryNonce(reservationId: string)

  datatype Payload = Payload(
    sessionId: string, policyHash: Hash, reservationId: Option<string>, outcome: Outcome,
    usageCharged: nat, penalty: nat, bondRefunded: nat, nonce: Nonce, issuedAt: string, authority: string)

  /** HMAC-SHA-256: only who knows the secret can produce the tag of a message. */
  datatype Signature = Hmac(secret: string, message: Hash) | Forged

  datatype Evidence = Evidence(payload: Payload, evidenceHash: Hash, signature: Signature)

  function Decimal(n: nat): (d: string)
    ensures d != "" && forall i | 0 <= i < |d| :: '0' <= d[i] <= '9'
  {
    if n < 10 then ['0' + n as char] else Decimal(n / 10) + ['0' + (n % 10) as char]
  }

  function NonceText(n: Nonce): string {
    match n
    case CloseNonce(sessionId) => "close:" + sessionId
    case ExpiryNonce(reservationId) => "expiry:" + reservationId
  }

  lemma CancelPrefix(p: string, x: string, y: string)
    requires p + x == p + y
    ensures x == y
  {
    assert x == (p + x)[|p|..] && y == (p + y)[|p|..];
  }

  lemma NonceTextInjective(m: Nonce, n: Nonce)
    requires NonceText(m) == NonceText(n)
    ensures m == n
  {
    assert NonceText(m)[0] == NonceText(n)[0];
    if m.CloseNonce? {
      CancelPrefix("close:", m.sessionId, n.sessionId);
    } else {
      CancelPrefix("expiry:", m.reservationId, n.reservationId);
    }
  }

  function OutcomeText(o: Outcome): string {
    match o
    case VALID_CLOSE => "VALID_CLOSE"
    case EXPIRED_RESERVATION => "EXPIRED_RESERVATION"
  }

  /** The payload as the object that is hashed; an absent reservation id is an absent member. */
  function PayloadJson(p: Payload): Value {
    Obj([ Member("version", Str("botbond-settlement-evidence/v1")),
          Member("sessionId", Str(p.sessionId)),
          Member("policyHash", Str(p.policyHash)),
          Member("outcome", Str(OutcomeText(p.outcome))),
          Member("usageChargedAtomic", Str(Decimal(p.usageCharged))),
          Member("penaltyAtomic", Str(Decimal(p.penalty))),
          Member("bondRefundedAtomic", Str(Decimal(p.bondRefunded))),
          Member("nonce", Str(NonceText(p.nonce))),
          Member("issuedAt", Str(p.issuedAt)),
          Member("authority", Str(p.authority)) ]
        + (if p.reservationId.Some? then [Member("reservationId", Str(p.reservationId.value))] else []))
  }

  lemma PayloadWellFormed(p: Payload)
    ensures WellFormed(PayloadJson(p)) && Representable(PayloadJson(p))
  {}

  /** `sha256(canonicalJson(payload))` */
  function EvidenceHash(p: Payload): Hash {
    match Canonicalize(PayloadJson(p))
    case Some(text) => Sha256(text)
    case None => ZERO_HASH
  }

  /** The number a text of decimal digits stands for. */
  function DecimalValue(d: string): int {
    if d == "" then 0 else 10 * DecimalValue(d[..|d| - 1]) + (d[|d| - 1] as int - '0' as int)
  }

  lemma {:induction false} DecimalDenotes(n: nat)
    ensures DecimalValue(Decimal(n)) == n && (n > 0 ==> Decimal(n)[0] != '0')
  {
    var d := Decimal(n);
    if n < 10 {
      assert d[..0] == "";
    } else {
      DecimalDenotes(n / 10);
      assert d[..|d| - 1] == Decimal(n / 10);
    }
  }

  predicate Says(fs: seq<Member<Value>>, name: string, text: string) {
    MemberOf(fs, name) == Some(Str(text))
  }

  predicate SaysAmount(fs: seq<Member<Value>>, name: string, amount: nat) {
    match MemberOf(fs, name) case Some(Str(d)) => DecimalValue(d) == amount && (d == "0" || (d != "" && d[0] != '0')) case _ => false
  }

  /** The object states the payload, member by member, and nothing else. */
  predicate Describes(fs: seq<Member<Value>>, p: Payload) {
    && |fs| == (if p.reservationId.Some? then 11 else 10)
    && Says(fs, "version", "botbond-settlement-evidence/v1")
    && Says(fs, "sessionId", p.sessionId) && Says(fs, "policyHash", p.policyHash)
    && Says(fs, "outcome", if p.outcome == VALID_CLOSE then "VALID_CLOSE" else "EXPIRED_RESERVATION")
    && SaysAmount(fs, "usageChargedAtomic", p.usageCharged) && SaysAmount(fs, "penaltyAtomic", p.penalty)
    && SaysAmount(fs, "bondRefundedAtomic", p.bondRefunded)
    && Says(fs, "nonce", if p.nonce.CloseNonce? then "close:" + p.nonce.sessionId else "expiry:" + p.nonce.reservationId)
    && Says(fs, "issuedAt", p.issuedAt) && Says(fs, "authority", p.authority)
    && (p.reservationId.Some? ==> Says(fs, "reservationId", p.reservationId.value))
  }

  lemma PayloadMembers(p: Payload, fs: seq<Member<Value>>)
    requires DistinctKeys(fs) && |fs| == |PayloadJson(p).fields| && forall m :: m in PayloadJson(p).fields ==> m in fs
    ensures Describes(fs, p)
  {
    var ms := PayloadJson(p).fields;
    forall i | 0 <= i < |ms| ensures MemberOf(fs, ms[i].key) == Some(ms[i].value) {
      MemberIsOf(fs, ms[i]);
    }
    DecimalDenotes(p.usageCharged);
    DecimalDenotes(p.penalty);
    DecimalDenotes(p.bondRefunded);
    hide MemberOf, Decimal, DecimalValue;
    assert ms[0].key == "version" && ms[1].key == "sessionId" && ms[2].key == "policyHash" && ms[3].key == "outcome";
    assert ms[4].key == "usageChargedAtomic" && ms[5].key == "penaltyAtomic" && ms[6].key == "bondRefundedAtomic";
    assert ms[7].key == "nonce" && ms[8].key == "issuedAt" && ms[9].key == "authority";
    assert p.reservationId.Some? ==> ms[10].key == "reservationId";
  }

  /** The hashed text, read as JSON, is an object that states the payload: every member under its
      name, amounts as decimal numbers, an absent reservation id as an absent member. */
  lemma HashedTextDescribes(p: Payload)
    ensures exists text, fs :: EvidenceHash(p) == Sha256(text) && ReadAll(text) == Some(Obj(fs)) && Describes(fs, p)
  {
    PayloadWellFormed(p);
    CanonicalTextReadsBack(PayloadJson(p));
    var fs := Normalize(PayloadJson(p)).fields;
    PayloadSorted(p);
    PayloadMembers(p, fs);
    hide Canonicalize, ReadAll, Describes, PayloadJson, Normalize, Same;
    assert EvidenceHash(p) == Sha256(Canonicalize(PayloadJson(p)).value);
  }

  lemma PayloadNormal(p: Payload)
    ensures NormalizeFields(PayloadJson(p).fields) == PayloadJson(p).fields
  {
    var ms := PayloadJson(p).fields;
    assert forall i | 0 <= i < |ms| :: ms[i].value.Str?;
    hide PayloadJson;
  }

  lemma PayloadSorted(p: Payload)
    ensures var ms, fs := PayloadJson(p).fields, Normalize(PayloadJson(p)).fields;
      |fs| == |ms| && DistinctKeys(fs) && forall m :: m in ms ==> m in fs
  {
    PayloadWellFormed(p);
    PayloadNormal(p);
    assert PayloadJson(p).Obj?;
    hide PayloadJson;
    var ms := PayloadJson(p).fields;
    NormalizeKeeps(PayloadJson(p));
    SortMembersSorts(ms);
    SortStringifies(ms);
  }

  lemma DescribedOnce(fs: seq<Member<Value>>, p: Payload, q: Payload)
    requires Describes(fs, p) && Describes(fs, q)
    ensures p == q
  {
    hide MemberOf, DecimalValue;
    assert NonceText(p.nonce) == NonceText(q.nonce);
    NonceTextInjective(p.nonce, q.nonce);
  }

  /** Different payloads have different evidence hashes: canonical JSON and SHA-256 lose nothing. */
  lemma EvidenceHashInjective(p: Payload, q: Payload)
    ensures EvidenceHash(p) == EvidenceHash(q) <==> p == q
  {
    if EvidenceHash(p) == EvidenceHash(q) {
      HashedTextDescribes(p);
      HashedTextDescribes(q);
      hide EvidenceHash, Describes;
      var text, fs :| EvidenceHash(p) == Sha256(text) && ReadAll(text) == Some(Obj(fs)) && Describes(fs, p);
      var other, gs :| EvidenceHash(q) == Sha256(other) && ReadAll(other) == Some(Obj(gs)) && Describes(gs, q);
      Sha256Injective(text, other);
      DescribedOnce(fs, p, q);
    }
  }

  /** Throws without a secret. */
  function CreateEvidence(p: Payload, secret: string): Option<Evidence> {
    if secret == "" then None
    else Some(Evidence(p, EvidenceHash(p), Hmac(secret, EvidenceHash(p))))
  }

  predicate VerifyEvidence(e: Evidence, secret: string) {
    && e.evidenceHash == EvidenceHash(e.payload)
    && e.signature == Hmac(secret, EvidenceHash(e.payload))
  }

  /** Evidence verifies under a secret iff it is what creating it with that secret yields: no
      field of the payload can be changed and no other secret will do. */
  lemma VerifiesIffCreated(e: Evidence, p: Payload, secret: string, other: string)
    requires secret != "" && other != ""
    requires e.signature == CreateEvidence(p, secret).value.signature
    ensures VerifyEvidence(e, other) <==> other == secret && Some(e) == CreateEvidence(p, secret)
  {
    EvidenceHashInjective(e.payload, p);
  }
}
