/**
 * The events route (apps/gateway/src/app.ts) while events keep being emitted: an emit appends to
 * the session's log and publishes to the hub later; a connection reads the log, subscribes,
 * replays, reads the log again to catch up, and writes what was buffered meanwhile before it
 * goes live. Only the two reads wait; everything between them happens at once.
 */
module EventRoute {
  import opened Wrappers
  import opened SessionEvents

  datatype Phase = OPENING | SNAPSHOT | REPLAYING | CAUGHT_UP | LIVE

  /** `fetched` is the result of the last read. */
  datatype Connection = Connection(
    lastEventId: Option<string>, phase: Phase, fetched: seq<Event>,
    sent: set<string>, buffered: seq<Event>, written: seq<Event>)

  /** `published` holds the ids this process's hub has published, `readAt` the length of the log
      at the catch-up read. */
  datatype State = State(log: seq<Event>, published: set<string>, connection: Connection, readAt: nat)

  datatype Step =
    | Append(event: Event)
    | Publish(event: Event)
    | ReadLog
    | Replay
    | ReadAgain
    | GoLive(order: seq<Event>)

  /** `write` */
  function Write(c: Connection, e: Event): Connection {
    if e.eventId in c.sent then c else c.(sent := c.sent + {e.eventId}, written := c.written + [e])
  }

  function WriteAll(c: Connection, events: seq<Event>): Connection
    decreases |events|
  {
    if events == [] then c else WriteAll(Write(c, events[0]), events[1..])
  }

  /** The first loop takes each event out of `sent` before it writes it. */
  function ReplayAll(c: Connection, events: seq<Event>): Connection
    decreases |events|
  {
    if events == [] then c else ReplayAll(Write(c.(sent := c.sent - {events[0].eventId}), events[0]), events[1..])
  }

  /** The hub's listener. */
  function Receive(c: Connection, e: Event): Connection {
    if c.phase == REPLAYING || c.phase == CAUGHT_UP then c.(buffered := c.buffered + [e])
    else if c.phase == LIVE then Write(c, e)
    else c
  }

  function Ids(events: seq<Event>): set<string> {
    set i | 0 <= i < |events| :: events[i].eventId
  }

  /** None: not enabled. An event id is fresh (a random UUID); an event is published at most
      once, by the process that appended it. `order` is what sorting makes of the buffer. */
  function Next(s: State, step: Step): Option<State> {
    var c := s.connection;
    match step
    case Append(e) => if HasId(s.log, e.eventId) then None else Some(s.(log := s.log + [e]))
    case Publish(e) =>
      if e !in s.log || e.eventId in s.published then None
      else Some(s.(published := s.published + {e.eventId}, connection := Receive(c, e)))
    case ReadLog =>
      if c.phase != OPENING then None
      else Some(s.(connection := c.(phase := SNAPSHOT, fetched := EventsAfterLastId(s.log, c.lastEventId))))
    case Replay =>
      if c.phase != SNAPSHOT then None
      else Some(s.(connection := ReplayAll(c.(sent := Ids(c.fetched)), c.fetched).(phase := REPLAYING)))
    case ReadAgain =>
      if c.phase != REPLAYING then None
      else Some(s.(connection := c.(phase := CAUGHT_UP, fetched := EventsAfterLastId(s.log, c.lastEventId)), readAt := |s.log|))
    case GoLive(order) =>
      if c.phase != CAUGHT_UP || multiset(order) != multiset(c.buffered) then None
      else Some(s.(connection := WriteAll(WriteAll(c, c.fetched), order).(phase := LIVE, buffered := order)))
  }

  function Run(s: State, steps: seq<Step>): State
    decreases |steps|
  {
    if steps == [] then s
    else Run(match Next(s, steps[0]) case Some(s') => s' case None => s, steps[1..])
  }

  /** A connection that has just been opened while the log already holds something. */
  ghost predicate Initial(s: State) {
    && UniqueIds(s.log) && s.published <= Ids(s.log) && s.readAt == 0
    && s.connection == Connection(s.connection.lastEventId, OPENING, [], {}, [], [])
  }

  // ---------------------------------------------------------------------------------
  // Writing
  // ---------------------------------------------------------------------------------

  /** `sent` is exactly what has been written, nothing twice. */
  ghost predicate Consistent(c: Connection) {
    UniqueIds(c.written) && c.sent == Ids(c.written)
  }

  ghost predicate Within(events: seq<Event>, log: seq<Event>) {
    forall e | e in events :: e in log
  }

  lemma WriteConsistent(c: Connection, e: Event)
    requires Consistent(c)
    ensures Consistent(Write(c, e)) && Write(c, e).sent == c.sent + {e.eventId}
    ensures forall log | Within(c.written, log) && e in log :: Within(Write(c, e).written, log)
  {
    if e.eventId !in c.sent {
      var written := c.written + [e];
      assert forall i | 0 <= i < |c.written| :: c.written[i].eventId in Ids(c.written);
      assert Ids(written) == Ids(c.written) + {e.eventId} by {
        assert forall i | 0 <= i < |c.written| :: written[i] == c.written[i];
        assert written[|c.written|] == e;
      }
    } else {
      assert c.sent + {e.eventId} == c.sent;
    }
  }

  lemma {:induction false} WriteAllConsistent(c: Connection, events: seq<Event>, log: seq<Event>)
    requires Consistent(c) && Within(c.written, log) && Within(events, log)
    ensures var d := WriteAll(c, events);
      && Consistent(d) && Within(d.written, log) && d.sent == c.sent + Ids(events)
      && d == c.(sent := d.sent, written := d.written)
    decreases |events|
  {
    if events == [] {
      assert Ids([]) == {};
    } else {
      WriteConsistent(c, events[0]);
      assert Within(events[1..], log);
      WriteAllConsistent(Write(c, events[0]), events[1..], log);
      assert Ids(events) == {events[0].eventId} + Ids(events[1..]) by { IdsSplit(events); }
    }
  }

  lemma IdsSplit(events: seq<Event>)
    requires events != []
    ensures Ids(events) == {events[0].eventId} + Ids(events[1..])
  {
    forall id | id in Ids(events) ensures id in {events[0].eventId} + Ids(events[1..]) {
      var i :| 0 <= i < |events| && events[i].eventId == id;
      if i > 0 { assert events[1..][i - 1] == events[i]; }
    }
    forall id | id in Ids(events[1..]) ensures id in Ids(events) {
      var i :| 0 <= i < |events[1..]| && events[1..][i].eventId == id;
      assert events[i + 1] == events[1..][i];
    }
  }

  /** While the first loop runs, `sent` also holds the ids still to come; with unique ids it
      writes the snapshot, all of it, in order. */
  lemma {:induction false} ReplayWrites(c: Connection, events: seq<Event>)
    requires UniqueIds(c.written + events) && c.sent == Ids(c.written + events)
    ensures ReplayAll(c, events) == c.(written := c.written + events)
    decreases |events|
  {
    if events == [] {
      assert c.written + events == c.written;
    } else {
      var e := events[0];
      var all := c.written + events;
      assert all[|c.written|] == e;
      assert e.eventId in Ids(all);
      var next := Write(c.(sent := c.sent - {e.eventId}), e);
      assert next == c.(written := c.written + [e]);
      assert (c.written + [e]) + events[1..] == all;
      ReplayWrites(next, events[1..]);
    }
  }

  // ---------------------------------------------------------------------------------
  // Every run
  // ---------------------------------------------------------------------------------

  /** Where the events that follow the last event id begin. */
  function Start(log: seq<Event>, lastEventId: Option<string>): (n: nat)
    ensures n <= |log| && EventsAfterLastId(log, lastEventId) == log[n..]
  {
    |log| - |EventsAfterLastId(log, lastEventId)|
  }

  lemma {:induction false} FindInPrefix(log: seq<Event>, id: string, n: nat)
    requires n <= |log|
    ensures FindEvent(log[..n], id).Some? ==> FindEvent(log, id) == FindEvent(log[..n], id)
  {
    if n > 0 {
      assert log[..n][0] == log[0] && log[..n][1..] == log[1..][..n - 1];
      FindInPrefix(log[1..], id, n - 1);
    }
  }

  lemma StartStable(log: seq<Event>, lastEventId: Option<string>, n: nat)
    requires n <= |log|
    ensures Start(log[..n], lastEventId) <= Start(log, lastEventId)
  {
    if lastEventId.Some? { FindInPrefix(log, lastEventId.value, n); }
  }

  ghost predicate Good(s: State) {
    var c := s.connection;
    && UniqueIds(s.log) && s.published <= Ids(s.log) && s.readAt <= |s.log|
    && Consistent(c) && Within(c.written, s.log) && Within(c.buffered, s.log)
    && (c.phase == OPENING || c.phase == SNAPSHOT ==> c.written == [] && c.buffered == [])
    && (c.phase == SNAPSHOT ==> UniqueIds(c.fetched) && Within(c.fetched, s.log))
    && (c.phase == CAUGHT_UP ==> c.fetched == EventsAfterLastId(s.log[..s.readAt], c.lastEventId) && Buffers(s))
    && (c.phase == LIVE ==> Complete(s))
  }

  /** What was published since the catch-up read is in the buffer. */
  ghost predicate Buffers(s: State)
    requires s.readAt <= |s.log|
  {
    forall i | s.readAt <= i < |s.log| && s.log[i].eventId in s.published :: s.log[i] in s.connection.buffered
  }

  /** Everything that follows the last event id and was either in the log at the catch-up read
      or has been published by now has been written. */
  ghost predicate Complete(s: State) {
    forall i | Start(s.log, s.connection.lastEventId) <= i < |s.log| && (i < s.readAt || s.log[i].eventId in s.published) ::
      s.log[i].eventId in s.connection.sent
  }

  lemma AppendKeeps(s: State, e: Event)
    requires Good(s) && !HasId(s.log, e.eventId)
    ensures Good(s.(log := s.log + [e]))
  {
    var t := s.(log := s.log + [e]);
    assert UniqueIds(t.log);
    assert Ids(s.log) <= Ids(t.log) by {
      forall id | id in Ids(s.log) ensures id in Ids(t.log) {
        var i :| 0 <= i < |s.log| && s.log[i].eventId == id;
        assert t.log[i] == s.log[i];
      }
    }
    assert e.eventId !in s.published;
    assert t.log[..s.readAt] == s.log[..s.readAt];
    assert t.log[..|s.log|] == s.log;
    StartStable(t.log, s.connection.lastEventId, |s.log|);
    hide FindEvent, EventsAfterLastId;
  }

  lemma SameId(log: seq<Event>, e: Event)
    requires UniqueIds(log) && e in log
    ensures e.eventId in Ids(log) && forall i | 0 <= i < |log| && log[i].eventId == e.eventId :: log[i] == e
  {}

  lemma PublishKeeps(s: State, e: Event)
    requires Good(s) && e in s.log && e.eventId !in s.published
    ensures Good(s.(published := s.published + {e.eventId}, connection := Receive(s.connection, e)))
  {
    var c := s.connection;
    var t := s.(published := s.published + {e.eventId}, connection := Receive(c, e));
    WriteConsistent(c, e);
    SameId(s.log, e);
    hide EventsAfterLastId, Consistent, UniqueIds, Ids;
    if c.phase == LIVE {
      assert Complete(t);
    } else if c.phase == CAUGHT_UP {
      assert Buffers(t);
    }
    hide Complete, Buffers;
  }

  lemma SliceUnique(log: seq<Event>, n: nat)
    requires UniqueIds(log) && n <= |log|
    ensures UniqueIds(log[n..]) && Within(log[n..], log)
  {
    assert forall i | 0 <= i < |log[n..]| :: log[n..][i] == log[n + i];
  }

  lemma ReplayKeeps(s: State)
    requires Good(s) && s.connection.phase == SNAPSHOT
    ensures Good(Next(s, Replay).value) && Next(s, Replay).value.connection.written == s.connection.fetched
  {
    var c := s.connection;
    assert [] + c.fetched == c.fetched;
    ReplayWrites(c.(sent := Ids(c.fetched)), c.fetched);
  }

  lemma WritesBoth(c: Connection, order: seq<Event>, log: seq<Event>)
    requires Consistent(c) && Within(c.written, log) && Within(c.fetched, log) && Within(c.buffered, log)
    requires multiset(order) == multiset(c.buffered)
    ensures var d := WriteAll(WriteAll(c, c.fetched), order);
      && Consistent(d) && Within(d.written, log) && d == c.(sent := d.sent, written := d.written)
      && (forall e | e in c.fetched || e in c.buffered :: e.eventId in d.sent)
      && Within(order, log)
  {
    assert Within(order, log) by { assert forall e | e in order :: e in multiset(order); }
    WriteAllConsistent(c, c.fetched, log);
    WriteAllConsistent(WriteAll(c, c.fetched), order, log);
    hide Consistent, WriteAll;
    forall e | e in c.fetched || e in c.buffered ensures e.eventId in Ids(c.fetched) + Ids(order) {
      if e in c.buffered { assert e in multiset(order); }
    }
  }

  /** Of the events that follow, those in the log at the catch-up read have been fetched. */
  lemma FetchedFollows(s: State)
    requires s.readAt <= |s.log| && s.connection.fetched == EventsAfterLastId(s.log[..s.readAt], s.connection.lastEventId)
    ensures forall i | Start(s.log, s.connection.lastEventId) <= i < s.readAt :: s.log[i] in s.connection.fetched
    ensures Within(s.connection.fetched, s.log)
  {
    var start := Start(s.log[..s.readAt], s.connection.lastEventId);
    StartStable(s.log, s.connection.lastEventId, s.readAt);
    SliceOfPrefix(s.log, start, s.readAt);
    hide EventsAfterLastId, Start;
  }

  lemma SliceOfPrefix(log: seq<Event>, start: nat, n: nat)
    requires start <= n <= |log|
    ensures forall i | start <= i < n :: log[i] in log[..n][start..]
    ensures Within(log[..n][start..], log)
  {
    var slice := log[..n][start..];
    forall i | start <= i < n ensures log[i] in slice {
      assert slice[i - start] == log[i];
    }
  }

  /** What is known of the connection `d` that has written both. */
  lemma LiveIsGood(s: State, d: Connection, order: seq<Event>)
    requires Good(s) && s.connection.phase == CAUGHT_UP && Within(order, s.log)
    requires Consistent(d) && Within(d.written, s.log) && d == s.connection.(sent := d.sent, written := d.written)
    requires forall e | e in s.connection.fetched || e in s.connection.buffered :: e.eventId in d.sent
    requires forall i | Start(s.log, s.connection.lastEventId) <= i < s.readAt :: s.log[i] in s.connection.fetched
    ensures Good(s.(connection := d.(phase := LIVE, buffered := order)))
  {
    hide EventsAfterLastId, UniqueIds, Ids, Start;
    assert Complete(s.(connection := d.(phase := LIVE, buffered := order)));
    hide Complete, Buffers;
  }

  lemma GoLiveEffect(s: State, order: seq<Event>)
    requires s.connection.phase == CAUGHT_UP && multiset(order) == multiset(s.connection.buffered)
    ensures Next(s, GoLive(order)) ==
      Some(s.(connection := WriteAll(WriteAll(s.connection, s.connection.fetched), order).(phase := LIVE, buffered := order)))
  {
    hide WriteAll;
  }

  lemma GoLiveKeeps(s: State, order: seq<Event>)
    requires Good(s) && s.connection.phase == CAUGHT_UP && multiset(order) == multiset(s.connection.buffered)
    ensures Good(Next(s, GoLive(order)).value)
  {
    FetchedFollows(s);
    WritesBoth(s.connection, order, s.log);
    GoLiveEffect(s, order);
    hide Next, EventsAfterLastId, Start, UniqueIds, Ids, Consistent, Within, Good, WriteAll;
    LiveIsGood(s, WriteAll(WriteAll(s.connection, s.connection.fetched), order), order);
  }

  lemma StepKeepsGood(s: State, step: Step)
    requires Good(s) && Next(s, step).Some?
    ensures Good(Next(s, step).value)
  {
    match step {
      case Append(e) => AppendKeeps(s, e);
      case Publish(e) => PublishKeeps(s, e);
      case ReadLog => SliceUnique(s.log, Start(s.log, s.connection.lastEventId));
      case Replay => ReplayKeeps(s);
      case ReadAgain => assert s.log[..|s.log|] == s.log;
      case GoLive(order) => GoLiveKeeps(s, order);
    }
  }

  lemma {:induction false} RunKeepsGood(s: State, steps: seq<Step>)
    requires Good(s)
    ensures Good(Run(s, steps))
    decreases |steps|
  {
    if steps != [] {
      if Next(s, steps[0]).Some? { StepKeepsGood(s, steps[0]); }
      hide Good;
      RunKeepsGood(match Next(s, steps[0]) case Some(s') => s' case None => s, steps[1..]);
    }
  }

  /** However emits interleave with the phases of the route: a connection never writes an event
      id twice, writes nothing but events of the log, and once live has written every event that
      follows the last event id and is published (or was in the log when it caught up). */
  lemma EveryEventOnce(start: State, steps: seq<Step>)
    requires Initial(start)
    ensures var s := Run(start, steps);
      && UniqueIds(s.connection.written) && Within(s.connection.written, s.log)
      && (s.connection.phase == LIVE ==>
            forall i | Start(s.log, s.connection.lastEventId) <= i < |s.log| && (i < s.readAt || s.log[i].eventId in s.published) ::
              HasId(s.connection.written, s.log[i].eventId))
  {
    RunKeepsGood(start, steps);
    var s := Run(start, steps);
    if s.connection.phase == LIVE {
      forall i | Start(s.log, s.connection.lastEventId) <= i < |s.log| && (i < s.readAt || s.log[i].eventId in s.published)
        ensures HasId(s.connection.written, s.log[i].eventId)
      {
        assert s.log[i].eventId in Ids(s.connection.written);
      }
    }
  }

  /** An event appended by another process after the catch-up read is never published here, and
      a live connection stays without it: the gap the client's poll closes. */
  lemma OtherProcessesAreMissed(e: Event)
    ensures var start := State([], {}, Connection(None, OPENING, [], {}, [], []), 0);
      var s := Run(start, [ReadLog, Replay, ReadAgain, GoLive([]), Append(e)]);
      s.connection.phase == LIVE && s.log == [e] && s.connection.written == []
  {
    var c := Connection(None, OPENING, [], {}, [], []);
    var s0 := State([], {}, c, 0);
    var steps := [ReadLog, Replay, ReadAgain, GoLive([]), Append(e)];
    var s1 := s0.(connection := c.(phase := SNAPSHOT));
    var s2 := s0.(connection := c.(phase := REPLAYING));
    var s3 := s0.(connection := c.(phase := CAUGHT_UP));
    var s4 := s0.(connection := c.(phase := LIVE));
    assert Ids([]) == {} && [] + [e] == [e];
    assert Next(s0, ReadLog) == Some(s1) && Next(s1, Replay) == Some(s2) && Next(s2, ReadAgain) == Some(s3);
    assert Next(s3, GoLive([])) == Some(s4) && Next(s4, Append(e)) == Some(s4.(log := [e]));
    assert steps[1..] == [Replay, ReadAgain, GoLive([]), Append(e)] && steps[1..][1..] == [ReadAgain, GoLive([]), Append(e)];
    assert steps[1..][1..][1..] == [GoLive([]), Append(e)] && steps[1..][1..][1..][1..] == [Append(e)];
    RunStep(s0, steps);
    RunStep(s1, steps[1..]);
    RunStep(s2, steps[1..][1..]);
    RunStep(s3, steps[1..][1..][1..]);
    RunStep(s4, steps[1..][1..][1..][1..]);
  }

  lemma RunStep(s: State, steps: seq<Step>)
    requires steps != [] && Next(s, steps[0]).Some?
    ensures Run(s, steps) == Run(Next(s, steps[0]).value, steps[1..])
  {}

  // ---------------------------------------------------------------------------------
  // The route's own state
  // ---------------------------------------------------------------------------------

  /** The variables of an open connection; `written` is what has gone to the socket. */
  class OpenStream {
    const lastEventId: Option<string>
    var sent: set<string>
    var buffered: seq<Event>
    var replaying: bool
    var written: seq<Event>

    ghost function View(phase: Phase, fetched: seq<Event>): Connection
      reads this
    {
      Connection(lastEventId, phase, fetched, sent, buffered, written)
    }

    constructor (lastEventId: Option<string>, events: seq<Event>)
      ensures replaying && View(SNAPSHOT, events) == Connection(lastEventId, SNAPSHOT, events, Ids(events), [], [])
    {
      this.lastEventId := lastEventId;
      sent := set i | 0 <= i < |events| :: events[i].eventId;
      buffered, replaying, written := [], true, [];
    }

    method WriteEvent(e: Event)
      modifies this`sent, this`written
      ensures forall phase, fetched :: View(phase, fetched) == Write(old(View(phase, fetched)), e)
    {
      if e.eventId in sent { return; }
      sent := sent + {e.eventId};
      written := written + [e];
    }

    /** The subscription. */
    method OnEvent(e: Event)
      modifies this
      ensures replaying == old(replaying)
      ensures View(if replaying then REPLAYING else LIVE, []) == Receive(old(View(if replaying then REPLAYING else LIVE, [])), e)
    {
      if replaying { buffered := buffered + [e]; } else { WriteEvent(e); }
    }

    method ReplayEvents(events: seq<Event>)
      modifies this`sent, this`written
      ensures View(SNAPSHOT, events) == ReplayAll(old(View(SNAPSHOT, events)), events)
    {
      for i := 0 to |events|
        invariant ReplayAll(old(View(SNAPSHOT, events)), events) == ReplayAll(View(SNAPSHOT, events), events[i..])
      {
        assert events[i..][1..] == events[i + 1..];
        ghost var before := View(SNAPSHOT, events);
        sent := sent - {events[i].eventId};
        WriteEvent(events[i]);
        assert View(SNAPSHOT, events) == Write(before.(sent := before.sent - {events[i].eventId}), events[i]);
      }
    }

    /** `order` is the sorted buffer. */
    method CatchUp(catchUp: seq<Event>, order: seq<Event>)
      requires multiset(order) == multiset(buffered)
      modifies this
      ensures !replaying
      ensures View(LIVE, catchUp) == WriteAll(WriteAll(old(View(CAUGHT_UP, catchUp)), catchUp), order).(phase := LIVE, buffered := order)
    {
      WriteEach(catchUp, CAUGHT_UP, catchUp);
      buffered := order;
      WriteEach(order, CAUGHT_UP, catchUp);
      SortedBuffer(WriteAll(old(View(CAUGHT_UP, catchUp)), catchUp), order, order);
      replaying := false;
    }

    method WriteEach(events: seq<Event>, ghost phase: Phase, ghost fetched: seq<Event>)
      modifies this`sent, this`written
      ensures View(phase, fetched) == WriteAll(old(View(phase, fetched)), events)
    {
      for i := 0 to |events|
        invariant WriteAll(old(View(phase, fetched)), events) == WriteAll(View(phase, fetched), events[i..])
      {
        assert events[i..][1..] == events[i + 1..];
        WriteEvent(events[i]);
      }
    }
  }

  /** Sorting the buffer does not affect what is written. */
  lemma {:induction false} SortedBuffer(c: Connection, order: seq<Event>, events: seq<Event>)
    ensures WriteAll(c.(buffered := order), events) == WriteAll(c, events).(buffered := order)
    decreases |events|
  {
    if events != [] { SortedBuffer(Write(c, events[0]), order, events[1..]); }
  }
}
