/**
 * Idempotency claims (apps/gateway/src/repository.ts) and the requests that take them: session
 * creation and close in apps/gateway/src/app.ts.
 */
module Idempotency {
  import opened Wrappers

  /** A record is in progress until it holds a value. */
  datatype Record = Record(fingerprint: string, completed: Option<string>)

  type Table = map<string, Record>

  datatype ClaimResult = CLAIMED | IN_PROGRESS | COMPLETED(value: string) | CONFLICT

  function RecordId(scope: string, key: string): string {
    scope + ":" + key
  }

  function Claim(table: Table, id: string, fingerprint: string): (ClaimResult, Table) {
    if id !in table then (CLAIMED, table[id := Record(fingerprint, None)])
    else if table[id].fingerprint != fingerprint then (CONFLICT, table)
    else if table[id].completed == None then (IN_PROGRESS, table)
    else (COMPLETED(table[id].completed.value), table)
  }

  /** None is the IDEMPOTENCY_CLAIM_MISSING error. */
  function Complete(table: Table, id: string, fingerprint: string, value: string): Option<Table> {
    if id !in table || table[id].fingerprint != fingerprint then None
    else Some(table[id := Record(fingerprint, Some(value))])
  }

  function Release(table: Table, id: string, fingerprint: string): Table {
    if id in table && table[id] == Record(fingerprint, None) then table - {id} else table
  }

  /** The scopes in use never produce the same record id: "create-session", and "close:" with a
      session id, which has no colon. Keys are arbitrary. */
  lemma ScopesDoNotCollide(s: string, k: string, t: string, l: string)
    requires ':' !in s && ':' !in t
    ensures RecordId("create-session", k) != RecordId("close:" + s, l)
    ensures RecordId("create-session", k) == RecordId("create-session", l) <==> k == l
    ensures RecordId("close:" + s, k) == RecordId("close:" + t, l) <==> s == t && k == l
  {
    assert RecordId("create-session", k)[1] == 'r' && RecordId("close:" + s, l)[1] == 'l';
    assert RecordId("create-session", k)[15..] == k && RecordId("create-session", l)[15..] == l;
    var u, w := RecordId("close:" + s, k), RecordId("close:" + t, l);
    var m := if |s| < |t| then |s| else |t|;
    if u == w {
      assert u[6 + m] == w[6 + m];
      assert |s| == |t|;
      assert s == u[6..6 + m] && t == w[6..6 + m] && k == u[7 + m..] && l == w[7 + m..];
    }
  }

  // ---------------------------------------------------------------------------------
  // Concurrent requests
  // ---------------------------------------------------------------------------------

  /** How a request ends: with a value, turned away because another one is at work or had another
      body, or without an answer (aborted, dead, or its claim gone). */
  datatype End = Answered(value: string) | Busy | Mismatch | Unanswered

  datatype Request =
    | Holding(id: string, fingerprint: string)
    | Over(id: string, fingerprint: string, end: End)

  datatype World = World(table: Table, requests: map<nat, Request>)

  datatype Step =
    | Start(i: nat, id: string, fingerprint: string)
    | Finish(i: nat, value: string)
    | Abort(i: nat)
    | Crash(i: nat)
    | ReleaseAgain(i: nat)

  predicate Enabled(w: World, s: Step) {
    match s
    case Start(i, _, _) => i !in w.requests
    case Finish(i, _) => i in w.requests && w.requests[i].Holding?
    case Abort(i) => i in w.requests && w.requests[i].Holding?
    case Crash(i) => i in w.requests && w.requests[i].Holding?
    case ReleaseAgain(i) => i in w.requests && w.requests[i].Over? && w.requests[i].end == Unanswered
  }

  /** One atomic step. `ReleaseAgain` is a release that is retried because its reply got lost. */
  function Next(w: World, s: Step): World
    requires Enabled(w, s)
  {
    match s
    case Start(i, id, fingerprint) =>
      var (result, table) := Claim(w.table, id, fingerprint);
      World(table, w.requests[i := match result
                                   case CLAIMED => Holding(id, fingerprint)
                                   case COMPLETED(v) => Over(id, fingerprint, Answered(v))
                                   case IN_PROGRESS => Over(id, fingerprint, Busy)
                                   case CONFLICT => Over(id, fingerprint, Mismatch)])
    case Finish(i, value) =>
      var q := w.requests[i];
      (match Complete(w.table, q.id, q.fingerprint, value)
       case Some(table) => World(table, w.requests[i := Over(q.id, q.fingerprint, Answered(value))])
       case None => w.(requests := w.requests[i := Over(q.id, q.fingerprint, Unanswered)]))
    case Abort(i) =>
      var q := w.requests[i];
      World(Release(w.table, q.id, q.fingerprint), w.requests[i := Over(q.id, q.fingerprint, Unanswered)])
    case Crash(i) =>
      w.(requests := w.requests[i := Over(w.requests[i].id, w.requests[i].fingerprint, Unanswered)])
    case ReleaseAgain(i) =>
      w.(table := Release(w.table, w.requests[i].id, w.requests[i].fingerprint))
  }

  /** The holder's record is in progress under its fingerprint, a claim has one holder, and
      whoever was answered got the value now stored. */
  ghost predicate Good(w: World) {
    && (forall i | i in w.requests && w.requests[i].Holding? ::
          w.requests[i].id in w.table && w.table[w.requests[i].id] == Record(w.requests[i].fingerprint, None))
    && (forall i, j | i in w.requests && j in w.requests && i != j && w.requests[i].Holding? && w.requests[j].Holding? ::
          w.requests[i].id != w.requests[j].id)
    && (forall i | i in w.requests && w.requests[i].Over? && w.requests[i].end.Answered? ::
          w.requests[i].id in w.table && w.table[w.requests[i].id] == Record(w.requests[i].fingerprint, Some(w.requests[i].end.value)))
  }

  /** A completed value is never replaced or removed. */
  ghost predicate KeepsCompleted(t: Table, u: Table) {
    forall id | id in t && t[id].completed.Some? :: id in u && u[id] == t[id]
  }

  lemma NextKeepsGood(w: World, s: Step)
    requires Good(w) && Enabled(w, s) && !s.ReleaseAgain?
    ensures Good(Next(w, s)) && KeepsCompleted(w.table, Next(w, s).table)
    ensures s.Finish? ==> Next(w, s).requests[s.i] == Over(w.requests[s.i].id, w.requests[s.i].fingerprint, Answered(s.value))
  {}

  function Run(w: World, steps: seq<Step>): World
    decreases |steps|
  {
    if steps == [] then w else Run(Do(w, steps[0]), steps[1..])
  }

  /** A release that is repeated takes no claim away: by then no request holds the claim with
      the same fingerprint. Steps that are no late release, or not enabled, are harmless. */
  predicate Harmless(w: World, s: Step) {
    s.ReleaseAgain? && Enabled(w, s) ==>
      forall j | j in w.requests && w.requests[j].Holding? ::
        w.requests[j].id == w.requests[s.i].id ==> w.requests[j].fingerprint != w.requests[s.i].fingerprint
  }

  function Do(w: World, s: Step): World {
    if Enabled(w, s) then Next(w, s) else w
  }

  predicate AllHarmless(w: World, steps: seq<Step>)
    decreases |steps|
  {
    steps == [] || (Harmless(w, steps[0]) && AllHarmless(Do(w, steps[0]), steps[1..]))
  }

  /** After every step of the run. */
  ghost predicate AlwaysGood(w: World, steps: seq<Step>)
    decreases |steps|
  {
    Good(w) && (steps == [] || AlwaysGood(Do(w, steps[0]), steps[1..]))
  }

  lemma StepKeepsGoodIff(w: World, s: Step)
    requires Good(w)
    ensures Good(Do(w, s)) <==> Harmless(w, s)
    ensures KeepsCompleted(w.table, Do(w, s).table)
  {
    if s.ReleaseAgain? && Enabled(w, s) { LateReleaseExact(w, s.i); }
  }

  /** Exclusion lasts throughout a run, releases that are repeated after a lost reply included,
      exactly if each of these comes while nobody holds the claim again. */
  lemma {:induction false} ExclusionIffHarmless(w: World, steps: seq<Step>)
    requires Good(w)
    ensures AlwaysGood(w, steps) <==> AllHarmless(w, steps)
    decreases |steps|
  {
    if steps != [] {
      StepKeepsGoodIff(w, steps[0]);
      hide Good, Harmless, Do;
      if Good(Do(w, steps[0])) { ExclusionIffHarmless(Do(w, steps[0]), steps[1..]); }
      else { NotGood(Do(w, steps[0]), steps[1..]); }
    }
  }

  lemma NotGood(w: World, steps: seq<Step>)
    requires !Good(w)
    ensures !AlwaysGood(w, steps)
  {}

  /** For any interleaving of requests, aborts, crashes, retries and harmless late releases: at
      most one request at a time holds the claim on a record, a completed value stays, and all
      answers under one record are the same. */
  lemma {:induction false} ClaimsAreExclusive(w: World, steps: seq<Step>)
    requires Good(w) && AllHarmless(w, steps)
    ensures Good(Run(w, steps)) && KeepsCompleted(w.table, Run(w, steps).table)
    ensures forall i, j | i in Run(w, steps).requests && j in Run(w, steps).requests ::
      AnswersAgree(Run(w, steps).requests[i], Run(w, steps).requests[j])
    decreases |steps|
  {
    if steps != [] {
      StepKeepsGoodIff(w, steps[0]);
      ClaimsAreExclusive(Do(w, steps[0]), steps[1..]);
    }
  }

  predicate AnswersAgree(q: Request, r: Request) {
    q.Over? && r.Over? && q.id == r.id && q.end.Answered? && r.end.Answered? ==> q.end == r.end
  }

  // ---------------------------------------------------------------------------------
  // What a retry is answered
  // ---------------------------------------------------------------------------------

  /** A request finished the record with the value, and nobody is at work on it. */
  ghost predicate Finished(w: World, id: string, fingerprint: string, value: string) {
    && id in w.table && w.table[id].fingerprint == fingerprint && w.table[id].completed == Some(value)
    && forall i | i in w.requests && w.requests[i].Holding? :: w.requests[i].id != id
  }

  lemma {:induction false} FinishedStays(w: World, steps: seq<Step>, id: string, fingerprint: string, value: string)
    requires Finished(w, id, fingerprint, value)
    ensures Finished(Run(w, steps), id, fingerprint, value)
    decreases |steps|
  {
    if steps != [] {
      assert Finished(Do(w, steps[0]), id, fingerprint, value);
      hide Do, Finished;
      FinishedStays(Do(w, steps[0]), steps[1..], id, fingerprint, value);
    }
  }

  /** A request that has finished with a value, and whatever happens then, late releases included:
      every later request with the same key and body is answered with that value, every one with
      another body is turned away as a mismatch, and neither gets to work. */
  lemma FinishedIsAnswered(w: World, i: nat, value: string, between: seq<Step>, j: nat, fingerprint: string)
    requires Good(w) && Enabled(w, Finish(i, value))
    requires Enabled(Run(Next(w, Finish(i, value)), between), Start(j, w.requests[i].id, fingerprint))
    ensures var q, later := w.requests[i], Next(Run(Next(w, Finish(i, value)), between), Start(j, w.requests[i].id, fingerprint));
      && Next(w, Finish(i, value)).requests[i] == Over(q.id, q.fingerprint, Answered(value))
      && j in later.requests
      && later.requests[j] == Over(q.id, fingerprint, if fingerprint == q.fingerprint then Answered(value) else Mismatch)
  {
    var q, w1 := w.requests[i], Next(w, Finish(i, value));
    NextKeepsGood(w, Finish(i, value));
    assert Finished(w1, q.id, q.fingerprint, value);
    FinishedStays(w1, between, q.id, q.fingerprint, value);
  }

  /** While a request is at work: another one with its body is told so, one with another body is
      turned away; the work goes on undisturbed. A record nobody has taken is taken. */
  lemma StartMeetsHolder(w: World, i: nat, j: nat, fingerprint: string)
    requires Good(w) && i in w.requests && w.requests[i].Holding? && Enabled(w, Start(j, w.requests[i].id, fingerprint))
    ensures var q, w' := w.requests[i], Next(w, Start(j, w.requests[i].id, fingerprint));
      && w'.table == w.table && i in w'.requests && w'.requests[i] == q && j in w'.requests
      && w'.requests[j] == Over(q.id, fingerprint, if fingerprint == q.fingerprint then Busy else Mismatch)
  {}

  /** A request gets to work exactly if nobody has taken the record; then it can always finish. */
  lemma StartTakesFreeRecord(w: World, j: nat, id: string, fingerprint: string, value: string)
    requires Good(w) && Enabled(w, Start(j, id, fingerprint))
    ensures var w' := Next(w, Start(j, id, fingerprint));
      && j in w'.requests && (w'.requests[j] == Holding(id, fingerprint) <==> id !in w.table)
      && (id !in w.table ==> Next(w', Finish(j, value)).requests[j] == Over(id, fingerprint, Answered(value)))
  {
    var w' := Next(w, Start(j, id, fingerprint));
    NextKeepsGood(w, Start(j, id, fingerprint));
    if id !in w.table { NextKeepsGood(w', Finish(j, value)); }
  }

  /** An aborted request leaves the record free. */
  lemma AbortFrees(w: World, i: nat)
    requires Good(w) && i in w.requests && w.requests[i].Holding?
    ensures var w' := Next(w, Abort(i));
      w'.table == w.table - {w.requests[i].id} && w'.requests[i] == Over(w.requests[i].id, w.requests[i].fingerprint, Unanswered)
  {}

  /** A release that is repeated is harmless exactly as long as no later request has taken the
      claim with the same fingerprint: otherwise it takes that request's claim away. */
  lemma LateReleaseExact(w: World, i: nat)
    requires Good(w) && Enabled(w, ReleaseAgain(i))
    ensures Good(Next(w, ReleaseAgain(i))) <==> Harmless(w, ReleaseAgain(i))
  {
    var q := w.requests[i];
    var w' := Next(w, ReleaseAgain(i));
    if exists j | j in w.requests :: w.requests[j] == Holding(q.id, q.fingerprint) {
      var j :| j in w.requests && w.requests[j] == Holding(q.id, q.fingerprint);
      assert q.id !in w'.table && w'.requests[j].Holding?;
    }
  }

  /** So exclusion does fail when the reply to a release is lost: two requests end up holding. */
  lemma LateReleaseBreaksExclusion()
    ensures var w := Run(World(map[], map[]), [Start(1, "r", "f"), Abort(1), Start(2, "r", "f"), ReleaseAgain(1), Start(3, "r", "f")]);
      2 in w.requests && 3 in w.requests && w.requests[2] == w.requests[3] == Holding("r", "f")
  {
    var w0 := World(map[], map[]);
    var w1 := Next(w0, Start(1, "r", "f"));
    var w2 := Next(w1, Abort(1));
    var w3 := Next(w2, Start(2, "r", "f"));
    var w4 := Next(w3, ReleaseAgain(1));
    var w5 := Next(w4, Start(3, "r", "f"));
    var s := [Start(1, "r", "f"), Abort(1), Start(2, "r", "f"), ReleaseAgain(1), Start(3, "r", "f")];
    assert s[1..][0] == s[1] && s[1..][1..] == s[2..] && s[2..][1..] == s[3..] && s[3..][1..] == s[4..] && s[4..][1..] == [];
    assert Run(w0, s) == Run(w1, s[1..]);
    assert Run(w1, s[1..]) == Run(w2, s[2..]);
    assert Run(w2, s[2..]) == Run(w3, s[3..]);
    assert Run(w3, s[3..]) == Run(w4, s[4..]);
    assert Run(w4, s[4..]) == Run(w5, []);
  }
}
