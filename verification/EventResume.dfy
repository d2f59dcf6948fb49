/**
 * Connections that break: what the events route has written (apps/gateway/src/app.ts), what the
 * client has read of it and remembers (apps/web/lib/usePlayer.ts), and what the route sends
 * after the remembered id when the client connects again.
 */
module EventResume {
  import opened Wrappers
  import opened SessionEvents
  import opened EventRoute
  import opened EventStreamClient
  import opened EventStreamRoundTrip

  /** A client that has seen the events in `have` and remembers the id misses nothing when it
      connects again. */
  ghost predicate ResumesWithoutLoss(log: seq<Event>, have: seq<Event>, lastEventId: Option<string>) {
    forall e | e in log :: e in have || e in EventsAfterLastId(log, lastEventId)
  }

  /** No id, an empty one, or that of an event in the log. */
  predicate Known(log: seq<Event>, lastEventId: Option<string>) {
    lastEventId.Some? && lastEventId.value != "" ==> HasId(log, lastEventId.value)
  }

  /** While the log grows from `was` to `log`, no event with a foreign id turns up. */
  predicate Steady(was: seq<Event>, log: seq<Event>, lastEventId: Option<string>) {
    Known(was, lastEventId) || !HasId(log, lastEventId.value)
  }

  ghost predicate NamedEvents(log: seq<Event>) {
    UniqueIds(log) && forall i | 0 <= i < |log| :: log[i].eventId != ""
  }

  /** The events at the positions between are in `seen`. */
  ghost predicate AllIn(log: seq<Event>, from: nat, to: nat, seen: seq<Event>) {
    forall i | from <= i < to && i < |log| :: log[i] in seen
  }

  // ---------------------------------------------------------------------------------
  // Positions in the log
  // ---------------------------------------------------------------------------------

  lemma FoundAt(log: seq<Event>, i: nat)
    requires i < |log| && UniqueIds(log)
    ensures FindEvent(log, log[i].eventId) == Some(i)
  {
    var found := FindEvent(log, log[i].eventId);
    if found.Some? { assert !(found.value < i) && !(i < found.value); }
  }

  lemma StartAfter(log: seq<Event>, i: nat)
    requires i < |log| && NamedEvents(log)
    ensures Start(log, Some(log[i].eventId)) == i + 1
  {
    FoundAt(log, i);
    hide FindEvent, UniqueIds;
  }

  lemma FoundInGrown(log: seq<Event>, more: seq<Event>, id: string)
    requires HasId(log, id)
    ensures FindEvent(log + more, id) == FindEvent(log, id) && FindEvent(log, id).Some? && HasId(log + more, id)
  {
    assert (log + more)[..|log|] == log;
    FindInPrefix(log + more, id, |log|);
    var i :| 0 <= i < |log| && log[i].eventId == id;
    assert (log + more)[i] == log[i];
  }

  lemma NotInPart(log: seq<Event>, more: seq<Event>, id: string)
    requires !HasId(log + more, id)
    ensures !HasId(log, id) && FindEvent(log, id) == None && FindEvent(log + more, id) == None
  {
    assert forall i | 0 <= i < |log| :: (log + more)[i] == log[i];
    assert forall i | 0 <= i < |log + more| :: (log + more)[i].eventId != id;
  }

  /** The log grows, the position of an id does not change. */
  lemma StartKept(log: seq<Event>, more: seq<Event>, lastEventId: Option<string>)
    requires Steady(log, log + more, lastEventId)
    ensures Start(log + more, lastEventId) == Start(log, lastEventId)
    ensures Known(log, lastEventId) ==> Known(log + more, lastEventId)
  {
    if lastEventId.Some? && lastEventId.value != "" {
      if HasId(log, lastEventId.value) { FoundInGrown(log, more, lastEventId.value); } else { NotInPart(log, more, lastEventId.value); }
    }
    hide FindEvent, HasId;
  }

  lemma InTail(log: seq<Event>, n: nat, e: Event)
    requires n <= |log| && UniqueIds(log)
    ensures e in log[n..] <==> exists i :: n <= i < |log| && log[i] == e
  {
    if e in log[n..] {
      var i :| 0 <= i < |log[n..]| && log[n..][i] == e;
      assert log[n + i] == e;
    }
    if exists i :: n <= i < |log| && log[i] == e {
      var i :| n <= i < |log| && log[i] == e;
      assert log[n..][i - n] == e;
    }
  }

  /** Without loss, by position: everything up to where the log is resumed has been seen. */
  lemma LossByPosition(log: seq<Event>, have: seq<Event>, lastEventId: Option<string>)
    requires UniqueIds(log)
    ensures ResumesWithoutLoss(log, have, lastEventId) <==> AllIn(log, 0, Start(log, lastEventId), have)
  {
    var n := Start(log, lastEventId);
    forall e ensures e in EventsAfterLastId(log, lastEventId) <==> exists i :: n <= i < |log| && log[i] == e {
      InTail(log, n, e);
    }
    hide Start, EventsAfterLastId;
    if ResumesWithoutLoss(log, have, lastEventId) {
      forall i | 0 <= i < n ensures log[i] in have {
        assert log[i] in log;
        assert forall k | n <= k < |log| :: log[i].eventId != log[k].eventId;
      }
    }
  }

  lemma LatestKnown(log: seq<Event>, lastEventId: Option<string>, w: seq<Event>)
    requires Within(w, log) && (w != [] || Known(log, lastEventId))
    ensures Known(log, Latest(lastEventId, w))
  {
    if w != [] {
      assert w[|w| - 1] in log;
      var i :| 0 <= i < |log| && log[i] == w[|w| - 1];
    }
  }

  /** The client has got `more` and remembers another id. It resumes without loss exactly if it has
      seen everything between the two. */
  lemma ResumesIff(log: seq<Event>, have: seq<Event>, lastEventId: Option<string>, more: seq<Event>, latest: Option<string>)
    requires UniqueIds(log) && ResumesWithoutLoss(log, have, lastEventId)
    ensures ResumesWithoutLoss(log, have + more, latest) <==> AllIn(log, Start(log, lastEventId), Start(log, latest), have + more)
  {
    LossByPosition(log, have, lastEventId);
    LossByPosition(log, have + more, latest);
    hide ResumesWithoutLoss, Start, UniqueIds;
    assert AllIn(log, 0, Start(log, lastEventId), have + more);
  }

  /** What is appended between the break and the next connection does not matter. */
  lemma GrowthIsHarmless(log: seq<Event>, more: seq<Event>, have: seq<Event>, lastEventId: Option<string>)
    requires UniqueIds(log + more) && Steady(log, log + more, lastEventId)
    ensures ResumesWithoutLoss(log, have, lastEventId) <==> ResumesWithoutLoss(log + more, have, lastEventId)
  {
    assert UniqueIds(log) by {
      forall i, j | 0 <= i < j < |log| ensures log[i].eventId != log[j].eventId {
        assert (log + more)[i] == log[i] && (log + more)[j] == log[j];
      }
    }
    StartKept(log, more, lastEventId);
    LossByPosition(log, have, lastEventId);
    LossByPosition(log + more, have, lastEventId);
    hide ResumesWithoutLoss, Start, UniqueIds, Steady;
    assert forall i | 0 <= i < |log| :: (log + more)[i] == log[i];
  }

  /** A client that has received the log in order is sent exactly the rest of it. */
  lemma InOrderResumesExactly(log: seq<Event>, seen: seq<Event>)
    requires NamedEvents(log) && seen <= log
    ensures seen + EventsAfterLastId(log, Latest(None, seen)) == log
  {
    var n := |seen|;
    assert seen == log[..n];
    if n > 0 {
      assert Latest(None, seen) == Some(log[n - 1].eventId);
      hide FindEvent, UniqueIds, EventsAfterLastId, Latest, NamedEvents;
      StartAfter(log, n - 1);
      TailFrom(log, Some(log[n - 1].eventId), n);
    }
  }

  lemma TailFrom(log: seq<Event>, lastEventId: Option<string>, n: nat)
    requires Start(log, lastEventId) == n
    ensures n <= |log| && EventsAfterLastId(log, lastEventId) == log[n..]
  {}

  /** A poll brings the whole log; whatever was missed before, nothing is missed afterwards. */
  lemma PollRestores(log: seq<Event>, have: seq<Event>, lastEventId: Option<string>)
    ensures forall e | e in log :: e in have + log
    ensures ResumesWithoutLoss(log, have + log, Latest(lastEventId, log))
  {}

  // ---------------------------------------------------------------------------------
  // The order in which a connection writes
  // ---------------------------------------------------------------------------------

  /** If `e` stands in the log, up to `bound`, all that precede it from `start` on are in `seen`,
      and so is `e`. */
  ghost predicate InOrderAt(log: seq<Event>, start: nat, bound: nat, e: Event, seen: seq<Event>) {
    forall k | start <= k < bound && k < |log| && log[k] == e :: AllIn(log, start, k + 1, seen)
  }

  /** Every event is written after those that precede it. */
  ghost predicate InOrder(log: seq<Event>, start: nat, bound: nat, written: seq<Event>) {
    forall j | 0 <= j < |written| :: InOrderAt(log, start, bound, written[j], written[..j + 1])
  }

  lemma MoreIn(log: seq<Event>, from: nat, to: nat, seen: seq<Event>, from': nat, to': nat, more: seq<Event>)
    requires AllIn(log, from, to, seen) && from <= from' && to' <= to && forall e | e in seen :: e in more
    ensures AllIn(log, from', to', more)
  {}

  lemma InOrderLater(log: seq<Event>, start: nat, bound: nat, written: seq<Event>, start': nat, bound': nat)
    requires InOrder(log, start, bound, written) && start <= start' && bound' <= bound
    ensures InOrder(log, start', bound', written)
  {
    forall j | 0 <= j < |written| ensures InOrderAt(log, start', bound', written[j], written[..j + 1]) {
      assert InOrderAt(log, start, bound, written[j], written[..j + 1]);
    }
  }

  lemma InOrderSnoc(log: seq<Event>, start: nat, bound: nat, written: seq<Event>, e: Event)
    requires InOrder(log, start, bound, written) && InOrderAt(log, start, bound, e, written + [e])
    ensures InOrder(log, start, bound, written + [e])
  {
    var more := written + [e];
    hide InOrderAt;
    forall j | 0 <= j < |more| ensures InOrderAt(log, start, bound, more[j], more[..j + 1]) {
      if j < |written| {
        assert more[..j + 1] == written[..j + 1] && more[j] == written[j];
      } else {
        assert more[..j + 1] == more && more[j] == e;
      }
    }
  }

  lemma InOrderWrite(c: Connection, log: seq<Event>, start: nat, bound: nat, e: Event)
    requires InOrder(log, start, bound, c.written) && (e.eventId !in c.sent ==> InOrderAt(log, start, bound, e, c.written + [e]))
    ensures InOrder(log, start, bound, Write(c, e).written)
  {
    hide InOrder, InOrderAt;
    if e.eventId !in c.sent { InOrderSnoc(log, start, bound, c.written, e); }
  }

  lemma OnlyAt(log: seq<Event>, m: nat)
    requires UniqueIds(log) && m < |log|
    ensures forall k | 0 <= k < |log| && log[k] == log[m] :: k == m
  {}

  /** The event that comes next. */
  lemma NextInOrder(log: seq<Event>, start: nat, bound: nat, m: nat, seen: seq<Event>, e: Event)
    requires UniqueIds(log) && m < |log| && log[m] == e && AllIn(log, start, m, seen)
    ensures InOrderAt(log, start, bound, e, seen + [e])
  {
    OnlyAt(log, m);
    hide UniqueIds;
    assert AllIn(log, start, m + 1, seen + [e]);
  }

  /** An event of the part that is complete, or one that comes after it. */
  lemma AnyInOrder(log: seq<Event>, start: nat, bound: nat, seen: seq<Event>, e: Event)
    requires AllIn(log, start, bound, seen)
    ensures InOrderAt(log, start, bound, e, seen + [e])
  {
    forall k | start <= k < bound && k < |log| && log[k] == e ensures AllIn(log, start, k + 1, seen + [e]) {
      MoreIn(log, start, bound, seen, start, k + 1, seen + [e]);
    }
  }

  lemma WrittenIsSent(c: Connection, log: seq<Event>, i: nat)
    requires Consistent(c) && UniqueIds(log) && Within(c.written, log) && i < |log| && log[i].eventId in c.sent
    ensures log[i] in c.written
  {
    var j :| 0 <= j < |c.written| && c.written[j].eventId == log[i].eventId;
    assert c.written[j] in log;
    var k :| 0 <= k < |log| && log[k] == c.written[j];
    assert k == i;
  }

  lemma WriteAdds(c: Connection, e: Event, log: seq<Event>)
    requires Consistent(c) && Within(c.written, log) && e in log && UniqueIds(log)
    ensures Consistent(Write(c, e)) && Within(Write(c, e).written, log) && e in Write(c, e).written
    ensures forall f | f in c.written :: f in Write(c, e).written
  {
    WriteConsistent(c, e);
    var i :| 0 <= i < |log| && log[i] == e;
    if e.eventId in c.sent { WrittenIsSent(c, log, i); }
  }

  /** Catching up writes a stretch of the log in order. */
  lemma {:induction false} CatchUpInOrder(c: Connection, log: seq<Event>, start: nat, m: nat, bound: nat)
    requires Consistent(c) && UniqueIds(log) && Within(c.written, log) && InOrder(log, start, bound, c.written)
    requires start <= m <= bound <= |log| && AllIn(log, start, m, c.written)
    ensures var d := WriteAll(c, log[m..bound]);
      InOrder(log, start, bound, d.written) && AllIn(log, start, bound, d.written)
    decreases bound - m
  {
    hide InOrder, InOrderAt, Consistent, UniqueIds, Within;
    if m < bound {
      var rest := log[m..bound];
      assert rest[0] == log[m] && rest[1..] == log[m + 1..bound];
      WriteAdds(c, log[m], log);
      NextInOrder(log, start, bound, m, c.written, log[m]);
      InOrderWrite(c, log, start, bound, log[m]);
      hide Write;
      CatchUpInOrder(Write(c, log[m]), log, start, m + 1, bound);
    } else {
      assert log[m..bound] == [];
    }
  }

  lemma WrittenUpTo(c: Connection, log: seq<Event>, start: nat, bound: nat, e: Event)
    requires Consistent(c) && UniqueIds(log) && Within(c.written, log) && InOrder(log, start, bound, c.written) && e in log
    requires AllIn(log, start, bound, c.written)
    ensures Consistent(Write(c, e)) && Within(Write(c, e).written, log) && InOrder(log, start, bound, Write(c, e).written)
    ensures AllIn(log, start, bound, Write(c, e).written)
  {
    hide InOrder, InOrderAt, Consistent, UniqueIds, Within, AllIn, Write;
    WriteAdds(c, e, log);
    AnyInOrder(log, start, bound, c.written, e);
    InOrderWrite(c, log, start, bound, e);
    MoreIn(log, start, bound, c.written, start, bound, Write(c, e).written);
  }

  /** Once the stretch is complete, further events cannot disturb its order. */
  lemma {:induction false} LateEventsInOrder(c: Connection, log: seq<Event>, start: nat, bound: nat, events: seq<Event>)
    requires Consistent(c) && UniqueIds(log) && Within(c.written, log) && InOrder(log, start, bound, c.written) && Within(events, log)
    requires AllIn(log, start, bound, c.written)
    ensures var d := WriteAll(c, events);
      InOrder(log, start, bound, d.written) && AllIn(log, start, bound, d.written)
    decreases |events|
  {
    if events != [] {
      WrittenUpTo(c, log, start, bound, events[0]);
      assert Within(events[1..], log);
      hide InOrder, Consistent, UniqueIds, Write, Within;
      LateEventsInOrder(Write(c, events[0]), log, start, bound, events[1..]);
    }
  }

  // ---------------------------------------------------------------------------------
  // Every run of the route
  // ---------------------------------------------------------------------------------

  /** How far the order of writing is that of the log: once live, to the catch-up read. */
  function OrderedTo(s: State): nat {
    if s.connection.phase == LIVE then s.readAt else |s.log|
  }

  ghost predicate Slice(events: seq<Event>, log: seq<Event>, start: nat) {
    exists a, b :: 0 <= a <= b <= |log| && a <= start && events == log[a..b]
  }

  /** Everything up to the catch-up read was written before anything else. */
  ghost predicate Split(log: seq<Event>, start: nat, bound: nat, written: seq<Event>) {
    bound <= |log| && exists n | 0 <= n <= |written| :: AllIn(log, start, bound, written[..n]) && Within(written[..n], log[..bound])
  }

  lemma SplitAll(log: seq<Event>, start: nat, bound: nat, written: seq<Event>)
    requires Split(log, start, bound, written)
    ensures AllIn(log, start, bound, written)
  {
    var n :| 0 <= n <= |written| && AllIn(log, start, bound, written[..n]) && Within(written[..n], log[..bound]);
    MoreIn(log, start, bound, written[..n], start, bound, written);
  }

  lemma SplitMore(log: seq<Event>, start: nat, bound: nat, written: seq<Event>, more: seq<Event>)
    requires Split(log, start, bound, written) && written <= more
    ensures Split(log, start, bound, more)
  {
    var n :| 0 <= n <= |written| && AllIn(log, start, bound, written[..n]) && Within(written[..n], log[..bound]);
    assert more[..n] == written[..n];
  }

  lemma SplitAppend(log: seq<Event>, e: Event, start: nat, start': nat, bound: nat, written: seq<Event>)
    requires Split(log, start, bound, written) && start <= start'
    ensures Split(log + [e], start', bound, written)
  {
    var n :| 0 <= n <= |written| && AllIn(log, start, bound, written[..n]) && Within(written[..n], log[..bound]);
    AllInAppend(log, e, start, start', bound, written[..n]);
    assert (log + [e])[..bound] == log[..bound];
  }

  lemma {:induction false} WriteAllExtends(c: Connection, events: seq<Event>)
    ensures c.written <= WriteAll(c, events).written
    decreases |events|
  {
    if events != [] { WriteAllExtends(Write(c, events[0]), events[1..]); }
  }

  ghost predicate Ordered(s: State) {
    var c := s.connection;
    var start := Start(s.log, c.lastEventId);
    && Good(s)
    && (c.phase == SNAPSHOT ==> Slice(c.fetched, s.log, start))
    && InOrder(s.log, start, OrderedTo(s), c.written)
    && (c.phase == CAUGHT_UP ==> Within(c.written, s.log[..s.readAt]))
    && (c.phase == LIVE ==> Split(s.log, start, s.readAt, c.written))
  }

  lemma InOrderAppend(log: seq<Event>, e: Event, start: nat, start': nat, bound: nat, bound': nat, written: seq<Event>)
    requires InOrder(log, start, bound, written) && start <= start' && Within(written, log) && !HasId(log, e.eventId)
    requires bound' == bound <= |log| || (bound == |log| && bound' == |log| + 1)
    ensures InOrder(log + [e], start', bound', written)
  {
    var log' := log + [e];
    forall j | 0 <= j < |written| ensures InOrderAt(log', start', bound', written[j], written[..j + 1]) {
      assert InOrderAt(log, start, bound, written[j], written[..j + 1]) && written[j] in log;
      NotInLog(log, e);
      hide HasId;
      forall k | start' <= k < bound' && k < |log'| && log'[k] == written[j] ensures AllIn(log', start', k + 1, written[..j + 1]) {
        assert k < |log| && log[k] == written[j];
        assert AllIn(log, start, k + 1, written[..j + 1]);
        AllInAppend(log, e, start, start', k + 1, written[..j + 1]);
      }
    }
  }

  lemma NotInLog(log: seq<Event>, e: Event)
    requires !HasId(log, e.eventId)
    ensures e !in log
  {
    assert forall m | 0 <= m < |log| :: log[m].eventId != e.eventId;
  }

  lemma AllInAppend(log: seq<Event>, e: Event, from: nat, from': nat, to: nat, seen: seq<Event>)
    requires AllIn(log, from, to, seen) && from <= from' && to <= |log|
    ensures AllIn(log + [e], from', to, seen)
  {
    assert forall i | 0 <= i < |log| :: (log + [e])[i] == log[i];
  }

  lemma SliceAppend(log: seq<Event>, e: Event, start: nat, start': nat, events: seq<Event>)
    requires Slice(events, log, start) && start <= start'
    ensures Slice(events, log + [e], start')
  {
    var a, b :| 0 <= a <= b <= |log| && a <= start && events == log[a..b];
    assert (log + [e])[a..b] == log[a..b];
  }

  lemma OrderedAppend(s: State, e: Event)
    requires Ordered(s) && !HasId(s.log, e.eventId)
    ensures Ordered(s.(log := s.log + [e]))
  {
    var t := s.(log := s.log + [e]);
    var c := s.connection;
    AppendKeeps(s, e);
    assert t.log[..|s.log|] == s.log;
    StartStable(t.log, c.lastEventId, |s.log|);
    var start, start' := Start(s.log, c.lastEventId), Start(t.log, c.lastEventId);
    InOrderAppend(s.log, e, start, start', OrderedTo(s), OrderedTo(t), c.written);
    if c.phase == SNAPSHOT { SliceAppend(s.log, e, start, start', c.fetched); }
    if c.phase == LIVE { SplitAppend(s.log, e, start, start', s.readAt, c.written); }
    assert t.log[..s.readAt] == s.log[..s.readAt];
    hide Split, Start, EventsAfterLastId, FindEvent, InOrder, Slice, UniqueIds, Consistent, Within, Complete, Buffers, HasId, Ids;
  }

  lemma OrderedPublish(s: State, e: Event)
    requires Ordered(s) && e in s.log && e.eventId !in s.published
    ensures Ordered(s.(published := s.published + {e.eventId}, connection := Receive(s.connection, e)))
  {
    PublishKeeps(s, e);
    var c, start := s.connection, Start(s.log, s.connection.lastEventId);
    if c.phase == LIVE {
      SplitAll(s.log, start, s.readAt, c.written);
      WrittenUpTo(c, s.log, start, s.readAt, e);
      SplitMore(s.log, start, s.readAt, c.written, Write(c, e).written);
    }
    hide Split, Start, EventsAfterLastId, InOrder;
  }

  lemma SliceInOrder(log: seq<Event>, start: nat, bound: nat, events: seq<Event>)
    requires UniqueIds(log) && Slice(events, log, start)
    ensures InOrder(log, start, bound, events)
  {
    var a, b :| 0 <= a <= b <= |log| && a <= start && events == log[a..b];
    forall j | 0 <= j < |events| ensures InOrderAt(log, start, bound, events[j], events[..j + 1]) {
      assert events[j] == log[a + j];
      OnlyAt(log, a + j);
      hide UniqueIds;
      SliceAllIn(log, a, b, start, a + j);
    }
  }

  lemma SliceAllIn(log: seq<Event>, a: nat, b: nat, start: nat, k: nat)
    requires a <= k < b <= |log| && a <= start
    ensures AllIn(log, start, k + 1, log[a..b][..k - a + 1])
  {
    var seen := log[a..b][..k - a + 1];
    forall i | start <= i < k + 1 ensures log[i] in seen {
      assert seen[i - a] == log[i];
    }
  }

  lemma OrderedReplay(s: State)
    requires Ordered(s) && s.connection.phase == SNAPSHOT
    ensures Ordered(Next(s, Replay).value)
  {
    ReplayKeeps(s);
    SliceInOrder(s.log, Start(s.log, s.connection.lastEventId), |s.log|, s.connection.fetched);
    ReplayOnlyWrites(s);
    hide Start, EventsAfterLastId, InOrder, Slice, Good, ReplayAll;
  }

  lemma ReplayOnlyWrites(s: State)
    requires Good(s) && s.connection.phase == SNAPSHOT
    ensures var t := Next(s, Replay).value;
      t == s.(connection := s.connection.(sent := t.connection.sent, written := t.connection.written, phase := REPLAYING))
  {
    var c := s.connection;
    assert [] + c.fetched == c.fetched;
    ReplayWrites(c.(sent := Ids(c.fetched)), c.fetched);
  }

  lemma OrderedReadLog(s: State)
    requires Ordered(s) && s.connection.phase == OPENING
    ensures Ordered(Next(s, ReadLog).value)
  {
    var start := Start(s.log, s.connection.lastEventId);
    SliceUnique(s.log, start);
    assert s.log[start..] == s.log[start..|s.log|];
    hide EventsAfterLastId, Start, FindEvent;
    assert Slice(s.log[start..], s.log, start);
  }

  lemma OrderedReadAgain(s: State)
    requires Ordered(s) && s.connection.phase == REPLAYING
    ensures Ordered(Next(s, ReadAgain).value)
  {
    assert s.log[..|s.log|] == s.log;
  }

  lemma OrderedCatchUp(s: State) returns (d: Connection)
    requires Ordered(s) && s.connection.phase == CAUGHT_UP
    ensures d == WriteAll(s.connection, s.connection.fetched) && Consistent(d) && Within(d.written, s.log)
    ensures var start := Start(s.log, s.connection.lastEventId);
      InOrder(s.log, start, s.readAt, d.written) && AllIn(s.log, start, s.readAt, d.written) && Split(s.log, start, s.readAt, d.written)
  {
    var c := s.connection;
    var start, a := Start(s.log, c.lastEventId), Start(s.log[..s.readAt], c.lastEventId);
    StartStable(s.log, c.lastEventId, s.readAt);
    assert c.fetched == s.log[..s.readAt][a..] == s.log[a..s.readAt];
    d := WriteAll(c, c.fetched);
    hide Start, EventsAfterLastId, FindEvent, Complete, Buffers;
    WriteAllConsistent(c, c.fetched, s.log) by { FetchedWithin(s.log, a, s.readAt); }
    FromTheMiddle(c, s.log, start, a, s.readAt);
    WriteAllConsistent(c, c.fetched, s.log[..s.readAt]) by { FetchedWithinPart(s.log, a, s.readAt); }
    AllSplit(s.log, start, s.readAt, d.written);
  }

  lemma FetchedWithinPart(log: seq<Event>, a: nat, bound: nat)
    requires a <= bound <= |log|
    ensures Within(log[a..bound], log[..bound])
  {
    assert log[a..bound] == log[..bound][a..];
  }

  lemma AllSplit(log: seq<Event>, start: nat, bound: nat, written: seq<Event>)
    requires bound <= |log| && AllIn(log, start, bound, written) && Within(written, log[..bound])
    ensures Split(log, start, bound, written)
  {
    assert written[..|written|] == written;
  }

  lemma FetchedWithin(log: seq<Event>, a: nat, bound: nat)
    requires a <= bound <= |log|
    ensures Within(log[a..bound], log)
  {}

  /** A stretch that begins before `start` does as well. */
  lemma {:induction false} FromTheMiddle(c: Connection, log: seq<Event>, start: nat, a: nat, bound: nat)
    requires Consistent(c) && UniqueIds(log) && Within(c.written, log) && InOrder(log, start, |log|, c.written)
    requires a <= start && a <= bound <= |log|
    ensures var d := WriteAll(c, log[a..bound]);
      InOrder(log, start, bound, d.written) && AllIn(log, start, bound, d.written)
    decreases start - a
  {
    hide InOrder, Consistent, UniqueIds, Within;
    if a == start {
      InOrderLater(log, start, |log|, c.written, start, bound);
      CatchUpInOrder(c, log, start, a, bound);
    } else if a < bound {
      assert log[a..bound][0] == log[a] && log[a..bound][1..] == log[a + 1..bound];
      WriteAdds(c, log[a], log);
      OnlyAt(log, a);
      InOrderWrite(c, log, start, |log|, log[a]);
      hide Write, InOrderAt;
      FromTheMiddle(Write(c, log[a]), log, start, a + 1, bound);
    } else {
      assert log[a..bound] == [];
      InOrderLater(log, start, |log|, c.written, start, bound);
    }
  }

  lemma LiveOrdered(s: State, d: Connection, order: seq<Event>)
    requires Good(s.(connection := d.(phase := LIVE, buffered := order)))
    requires InOrder(s.log, Start(s.log, d.lastEventId), s.readAt, d.written)
    requires Split(s.log, Start(s.log, d.lastEventId), s.readAt, d.written)
    ensures Ordered(s.(connection := d.(phase := LIVE, buffered := order)))
  {
    hide Start, InOrder, Split;
  }

  lemma GoLiveFrame(s: State, order: seq<Event>)
    requires Ordered(s) && s.connection.phase == CAUGHT_UP && multiset(order) == multiset(s.connection.buffered)
    ensures Within(order, s.log) && UniqueIds(s.log)
    ensures WriteAll(WriteAll(s.connection, s.connection.fetched), order).lastEventId == s.connection.lastEventId
  {
    FetchedFollows(s);
    SameWithin(order, s.connection.buffered, s.log);
    WritesBoth(s.connection, order, s.log);
  }

  lemma OrderedGoLive(s: State, order: seq<Event>)
    requires Ordered(s) && s.connection.phase == CAUGHT_UP && multiset(order) == multiset(s.connection.buffered)
    ensures Ordered(Next(s, GoLive(order)).value)
  {
    GoLiveKeeps(s, order);
    GoLiveFrame(s, order);
    GoLiveEffect(s, order);
    hide Next, Start, EventsAfterLastId, FindEvent, Good, Ordered, Within, Ids, Consistent, UniqueIds, InOrder, WriteAll, Split;
    var d := OrderedCatchUp(s);
    LateEventsInOrder(d, s.log, Start(s.log, s.connection.lastEventId), s.readAt, order);
    WriteAllExtends(d, order);
    SplitMore(s.log, Start(s.log, s.connection.lastEventId), s.readAt, d.written, WriteAll(d, order).written);
    LiveOrdered(s, WriteAll(d, order), order);
  }

  lemma SameWithin(order: seq<Event>, events: seq<Event>, log: seq<Event>)
    requires multiset(order) == multiset(events) && Within(events, log)
    ensures Within(order, log)
  {
    assert forall e | e in order :: e in multiset(order);
  }

  lemma OrderedStep(s: State, step: Step)
    requires Ordered(s) && Next(s, step).Some?
    ensures Ordered(Next(s, step).value)
  {
    hide Ordered, Receive, ReplayAll, WriteAll;
    match step {
      case Append(e) => OrderedAppend(s, e);
      case Publish(e) => OrderedPublish(s, e);
      case ReadLog => OrderedReadLog(s);
      case Replay => OrderedReplay(s);
      case ReadAgain => OrderedReadAgain(s);
      case GoLive(order) => OrderedGoLive(s, order);
    }
  }

  lemma {:induction false} OrderedRun(s: State, steps: seq<Step>)
    requires Ordered(s)
    ensures Ordered(Run(s, steps)) && Run(s, steps).connection.lastEventId == s.connection.lastEventId
    ensures s.log <= Run(s, steps).log
    decreases |steps|
  {
    if steps != [] {
      var next := match Next(s, steps[0]) case Some(s') => s' case None => s;
      if Next(s, steps[0]).Some? {
        OrderedStep(s, steps[0]);
        StepKeepsRequest(s, steps[0]);
      }
      hide Ordered, Next;
      OrderedRun(next, steps[1..]);
    }
  }

  lemma StepKeepsRequest(s: State, step: Step)
    requires Ordered(s) && Next(s, step).Some?
    ensures Next(s, step).value.connection.lastEventId == s.connection.lastEventId && s.log <= Next(s, step).value.log
  {
    match step {
      case Replay => ReplayOnlyWrites(s);
      case GoLive(order) =>
        FetchedFollows(s);
        SameWithin(order, s.connection.buffered, s.log);
        WritesBoth(s.connection, order, s.log);
      case _ =>
    }
  }

  lemma InitialIsOrdered(s: State)
    requires EventRoute.Initial(s)
    ensures Ordered(s)
  {}

  // ---------------------------------------------------------------------------------
  // Breaking and connecting again
  // ---------------------------------------------------------------------------------

  /** The end of a prefix of what was written that is still in the order of the log. */
  lemma PrefixInOrder(log: seq<Event>, lastEventId: Option<string>, bound: nat, written: seq<Event>, w: seq<Event>)
    requires NamedEvents(log) && InOrder(log, Start(log, lastEventId), bound, written) && Within(written, log) && w <= written
    requires w != [] ==> Start(log, Latest(lastEventId, w)) <= bound
    ensures AllIn(log, Start(log, lastEventId), Start(log, Latest(lastEventId, w)), w)
  {
    hide Start, UniqueIds, NamedEvents;
    if w != [] {
      var j, start := |w| - 1, Start(log, lastEventId);
      var k := Position(log, written[j]);
      StartAfter(log, k);
      assert InOrderAt(log, start, bound, written[j], written[..j + 1]);
      assert written[..j + 1] == w;
      hide InOrder;
    }
  }

  lemma WithinPrefix(w: seq<Event>, written: seq<Event>, log: seq<Event>)
    requires w <= written && Within(written, log)
    ensures Within(w, log)
  {}

  lemma RunIsOrdered(start: State, steps: seq<Step>)
    requires EventRoute.Initial(start)
    ensures var s := Run(start, steps);
      var from := Start(s.log, start.connection.lastEventId);
      && start.log <= s.log && UniqueIds(s.log) && Within(s.connection.written, s.log) && UniqueIds(s.connection.written)
      && InOrder(s.log, from, OrderedTo(s), s.connection.written)
      && (s.connection.phase == LIVE ==> Split(s.log, from, s.readAt, s.connection.written))
  {
    InitialIsOrdered(start);
    OrderedRun(start, steps);
    hide Run, InOrder, Start, Within, Split, Slice;
  }

  /** From the opening of the connection to the break. */
  lemma StillWithoutLoss(was: seq<Event>, log: seq<Event>, have: seq<Event>, lastEventId: Option<string>)
    requires was <= log && UniqueIds(log) && Steady(was, log, lastEventId) && ResumesWithoutLoss(was, have, lastEventId)
    ensures ResumesWithoutLoss(log, have, lastEventId)
  {
    assert was + log[|was|..] == log;
    hide ResumesWithoutLoss, Steady, UniqueIds;
    GrowthIsHarmless(was, log[|was|..], have, lastEventId);
  }

  /** A client connects with any Last-Event-ID with which it resumes without loss, the
      connection breaks anywhere, and the client has received `w`. It resumes without loss
      again exactly if it has seen every event of the log from where the connection started to
      the last event received; so it always does if the connection was not live yet, or if that
      event was in the log at the catch-up read. The conclusion is what the next connection
      starts from. */
  lemma BreakResumesIff(start: State, steps: seq<Step>, have: seq<Event>, w: seq<Event>)
    requires EventRoute.Initial(start) && NamedEvents(Run(start, steps).log) && w <= Run(start, steps).connection.written
    requires Steady(start.log, Run(start, steps).log, start.connection.lastEventId)
    requires ResumesWithoutLoss(start.log, have, start.connection.lastEventId)
    ensures var s, lastEventId := Run(start, steps), start.connection.lastEventId;
      var latest := Latest(lastEventId, w);
      && (w != [] ==> Known(s.log, latest))
      && (ResumesWithoutLoss(s.log, have + w, latest) <==>
          AllIn(s.log, Start(s.log, lastEventId), Start(s.log, latest), have + w))
      && (s.connection.phase != LIVE || Start(s.log, latest) <= s.readAt ==> ResumesWithoutLoss(s.log, have + w, latest))
  {
    RunIsOrdered(start, steps);
    var s, lastEventId := Run(start, steps), start.connection.lastEventId;
    var latest := Latest(lastEventId, w);
    hide Run, EventRoute.Initial, Ordered, Start, ResumesWithoutLoss, InOrder, Known, Within, Steady, Split;
    StillWithoutLoss(start.log, s.log, have, lastEventId);
    WithinPrefix(w, s.connection.written, s.log);
    if w != [] { LatestKnown(s.log, lastEventId, w); }
    hide UniqueIds;
    ResumesIff(s.log, have, lastEventId, w, latest);
    if s.connection.phase != LIVE || Start(s.log, latest) <= s.readAt {
      PrefixInOrder(s.log, lastEventId, OrderedTo(s), s.connection.written, w);
      MoreIn(s.log, Start(s.log, lastEventId), Start(s.log, latest), w, Start(s.log, lastEventId), Start(s.log, latest), have + w);
    }
  }

  /** The same from the text on the wire: whatever part of it arrived, in whatever chunks and
      with whatever heartbeats. */
  lemma ReconnectResumes(start: State, steps: seq<Step>, have: seq<Event>, items: seq<Item>, text: string, parse: Parser)
    requires EventRoute.Initial(start) && NamedEvents(Run(start, steps).log)
    requires Steady(start.log, Run(start, steps).log, start.connection.lastEventId)
    requires ResumesWithoutLoss(start.log, have, start.connection.lastEventId)
    requires AllSendable(items) && InvertsPrinter(parse) && Events(items) == Run(start, steps).connection.written && text <= Wire(items)
    ensures var s, r, lastEventId := Run(start, steps), Received(text, start.connection.lastEventId, parse), start.connection.lastEventId;
      && (r.events != [] ==> Known(s.log, r.latestId))
      && (ResumesWithoutLoss(s.log, have + r.events, r.latestId) <==>
          AllIn(s.log, Start(s.log, lastEventId), Start(s.log, r.latestId), have + r.events))
      && (s.connection.phase != LIVE || Start(s.log, r.latestId) <= s.readAt ==> ResumesWithoutLoss(s.log, have + r.events, r.latestId))
  {
    hide Received, InvertsPrinter, AllSendable, UniqueIds, Run, EventRoute.Initial, Known, Steady, ResumesWithoutLoss, Start, Wire;
    BrokenStreamIsPrefix(items, text, start.connection.lastEventId, parse);
    BreakResumesIff(start, steps, have, Received(text, start.connection.lastEventId, parse).events);
  }

  // ---------------------------------------------------------------------------------
  // When no break of a live connection can lose anything
  // ---------------------------------------------------------------------------------

  predicate StandsFrom(log: seq<Event>, from: nat, e: Event) {
    exists k | 0 <= k < |log| :: from <= k && log[k] == e
  }

  /** The events that stand in the log at or after a position, in the order given. */
  function LaterOf(log: seq<Event>, from: nat, events: seq<Event>): seq<Event> {
    if events == [] then []
    else
      var last := events[|events| - 1];
      LaterOf(log, from, events[..|events| - 1]) + (if StandsFrom(log, from, last) then [last] else [])
  }

  lemma {:induction false} LaterMembers(log: seq<Event>, from: nat, events: seq<Event>)
    ensures forall e :: e in LaterOf(log, from, events) <==> e in events && StandsFrom(log, from, e)
    decreases |events|
  {
    hide StandsFrom;
    if events != [] {
      var front, last := events[..|events| - 1], events[|events| - 1];
      assert events == front + [last];
      LaterMembers(log, from, front);
    }
  }

  /** The next event of the stretch. */
  lemma NextOfStretch(log: seq<Event>, from: nat, seen: seq<Event>, e: Event, k: nat, n: nat)
    requires UniqueIds(log) && from <= k < |log| && log[k] == e && e !in seen && from + n <= |log|
    requires forall i | from <= i < |log| :: log[i] in seen <==> i < from + n
    ensures AllIn(log, from, k + 1, seen + [e]) <==> k == from + n
  {
    OnlyAt(log, k);
    hide UniqueIds;
    if k > from + n {
      assert log[from + n] !in seen && log[from + n] != e;
    }
  }

  /** Written in order means: what stands from there on is an initial stretch of the log. */
  lemma {:induction false} InOrderIsStretch(log: seq<Event>, from: nat, written: seq<Event>)
    requires UniqueIds(log) && UniqueIds(written) && Within(written, log) && from <= |log|
    ensures InOrder(log, from, |log|, written) <==> LaterOf(log, from, written) <= log[from..]
    decreases |written|
  {
    if written != [] {
      var front, e := written[..|written| - 1], written[|written| - 1];
      assert written == front + [e];
      UniqueFront(written);
      WithinPrefix(front, written, log);
      InOrderIsStretch(log, from, front);
      InOrderFront(log, from, front, e);
      var k := Position(log, e);
      StandsAt(log, from, k);
      if k >= from && LaterOf(log, from, front) <= log[from..] {
        StretchHas(log, from, front);
        assert e !in front by { LastIsNew(written); }
        NextOfStretch(log, from, front, e, k, |LaterOf(log, from, front)|);
        StretchSnoc(log, from, LaterOf(log, from, front), k);
        OneInOrder(log, from, e, k, written);
      } else if k < from {
        NothingInOrder(log, from, e, k, written);
      }
    }
  }

  function Position(log: seq<Event>, e: Event): (k: nat)
    requires e in log
    ensures k < |log| && log[k] == e
  {
    if log[0] == e then 0 else Position(log[1..], e) + 1
  }

  lemma UniqueFront(written: seq<Event>)
    requires UniqueIds(written) && written != []
    ensures UniqueIds(written[..|written| - 1])
  {}

  lemma LastIsNew(written: seq<Event>)
    requires UniqueIds(written) && written != []
    ensures written[|written| - 1] !in written[..|written| - 1]
  {
    assert forall i | 0 <= i < |written| - 1 :: written[i].eventId != written[|written| - 1].eventId;
  }

  lemma StandsAt(log: seq<Event>, from: nat, k: nat)
    requires UniqueIds(log) && k < |log|
    ensures StandsFrom(log, from, log[k]) <==> k >= from
  {
    OnlyAt(log, k);
    hide UniqueIds;
  }

  lemma InOrderFront(log: seq<Event>, from: nat, front: seq<Event>, e: Event)
    ensures InOrder(log, from, |log|, front + [e]) <==> InOrder(log, from, |log|, front) && InOrderAt(log, from, |log|, e, front + [e])
  {
    var written := front + [e];
    hide InOrderAt;
    if InOrder(log, from, |log|, front) && InOrderAt(log, from, |log|, e, written) { InOrderSnoc(log, from, |log|, front, e); }
    if InOrder(log, from, |log|, written) {
      assert written[|front|] == e && written[..|front| + 1] == written;
      forall j | 0 <= j < |front| ensures InOrderAt(log, from, |log|, front[j], front[..j + 1]) {
        assert written[j] == front[j] && written[..j + 1] == front[..j + 1];
      }
    }
  }

  lemma OneInOrder(log: seq<Event>, from: nat, e: Event, k: nat, seen: seq<Event>)
    requires UniqueIds(log) && from <= k < |log| && log[k] == e
    ensures InOrderAt(log, from, |log|, e, seen) <==> AllIn(log, from, k + 1, seen)
  {
    OnlyAt(log, k);
    hide UniqueIds, AllIn;
  }

  lemma NothingInOrder(log: seq<Event>, from: nat, e: Event, k: nat, seen: seq<Event>)
    requires UniqueIds(log) && k < from && k < |log| && log[k] == e
    ensures InOrderAt(log, from, |log|, e, seen)
  {
    OnlyAt(log, k);
    hide UniqueIds, AllIn;
  }

  lemma StretchHas(log: seq<Event>, from: nat, events: seq<Event>)
    requires UniqueIds(log) && from <= |log| && LaterOf(log, from, events) <= log[from..]
    ensures from + |LaterOf(log, from, events)| <= |log|
    ensures forall i | from <= i < |log| :: log[i] in events <==> i < from + |LaterOf(log, from, events)|
  {
    var later := LaterOf(log, from, events);
    LaterMembers(log, from, events);
    assert forall j | 0 <= j < |later| :: later[j] == log[from..][j] == log[from + j];
    forall i | from <= i < |log| ensures log[i] in events <==> i < from + |later| {
      StandsAt(log, from, i);
      if i < from + |later| {
        assert later[i - from] == log[i];
      } else {
        assert forall m | from <= m < from + |later| :: log[m].eventId != log[i].eventId;
      }
    }
  }

  lemma StretchSnoc(log: seq<Event>, from: nat, later: seq<Event>, k: nat)
    requires UniqueIds(log) && from <= k < |log| && later <= log[from..]
    ensures later + [log[k]] <= log[from..] <==> k == from + |later|
  {
    OnlyAt(log, k);
    if k == from + |later| {
      assert log[from..][..|later| + 1] == later + [log[k]];
    } else {
      assert |later| < |log[from..]| ==> (later + [log[k]])[|later|] == log[k] && log[from..][|later|] == log[from + |later|];
    }
  }

  /** Every break of the connection so far is harmless. */
  ghost predicate EveryBreakHarmless(log: seq<Event>, have: seq<Event>, lastEventId: Option<string>, written: seq<Event>) {
    forall n | 0 <= n <= |written| :: ResumesWithoutLoss(log, have + written[..n], Latest(lastEventId, written[..n]))
  }

  /** Where the log goes on after what a live connection has caught up with. */
  function LiveFrom(start: nat, readAt: nat): nat {
    if start > readAt then start else readAt
  }

  /** The same by position. */
  lemma LiveBreakEarly(log: seq<Event>, have: seq<Event>, start: nat, readAt: nat, written: seq<Event>, n: nat, k: nat)
    requires UniqueIds(log) && 0 < n <= |written| && k < |log| && log[k] == written[n - 1] && k < LiveFrom(start, readAt)
    requires InOrder(log, start, readAt, written)
    ensures AllIn(log, start, k + 1, have + written[..n]) && InOrderAt(log, LiveFrom(start, readAt), |log|, written[n - 1], written[..n])
  {
    NothingInOrder(log, LiveFrom(start, readAt), written[n - 1], k, written[..n]);
    hide UniqueIds;
    if start <= k {
      assert InOrderAt(log, start, readAt, written[n - 1], written[..n - 1 + 1]);
      hide InOrder;
      assert AllIn(log, start, k + 1, written[..n]);
      MoreIn(log, start, k + 1, written[..n], start, k + 1, have + written[..n]);
    }
  }

  lemma LiveBreakLate(log: seq<Event>, have: seq<Event>, start: nat, readAt: nat, written: seq<Event>, n: nat, k: nat)
    requires UniqueIds(log) && 0 < n <= |written| && LiveFrom(start, readAt) <= k < |log| && log[k] == written[n - 1]
    requires Split(log, start, readAt, written) && forall i | LiveFrom(start, readAt) <= i < |log| :: log[i] !in have
    ensures AllIn(log, start, k + 1, have + written[..n]) <==> InOrderAt(log, LiveFrom(start, readAt), |log|, written[n - 1], written[..n])
  {
    var from, w := LiveFrom(start, readAt), written[..n];
    OneInOrder(log, from, written[n - 1], k, w);
    SplitAfter(log, start, readAt, written, n, k);
    hide UniqueIds, Split, InOrderAt;
    AfterCaughtUp(log, have, start, readAt, w, k);
  }

  lemma AfterCaughtUp(log: seq<Event>, have: seq<Event>, start: nat, readAt: nat, w: seq<Event>, k: nat)
    requires AllIn(log, start, readAt, w) && LiveFrom(start, readAt) <= k < |log| && forall i | LiveFrom(start, readAt) <= i < |log| :: log[i] !in have
    ensures AllIn(log, start, k + 1, have + w) <==> AllIn(log, LiveFrom(start, readAt), k + 1, w)
  {}

  /** One break of a live connection. */
  lemma LiveBreak(log: seq<Event>, have: seq<Event>, lastEventId: Option<string>, readAt: nat, written: seq<Event>, n: nat)
    requires NamedEvents(log) && ResumesWithoutLoss(log, have, lastEventId) && readAt <= |log| && 0 < n <= |written|
    requires Within(written, log) && Split(log, Start(log, lastEventId), readAt, written) && InOrder(log, Start(log, lastEventId), readAt, written)
    requires forall i | LiveFrom(Start(log, lastEventId), readAt) <= i < |log| :: log[i] !in have
    ensures ResumesWithoutLoss(log, have + written[..n], Latest(lastEventId, written[..n])) <==>
            InOrderAt(log, LiveFrom(Start(log, lastEventId), readAt), |log|, written[n - 1], written[..n])
  {
    hide ResumesWithoutLoss, Start, NamedEvents, FindEvent, EventsAfterLastId, InOrder, InOrderAt, Split, UniqueIds, AllIn, Latest, LiveFrom;
    var start, w := Start(log, lastEventId), written[..n];
    var k := Position(log, written[n - 1]);
    hide Within, Position;
    StartAfter(log, k);
    NamedAreUnique(log);
    LatestOfPrefix(lastEventId, written, n);
    ResumesIff(log, have, lastEventId, w, Latest(lastEventId, w));
    if k < LiveFrom(start, readAt) {
      LiveBreakEarly(log, have, start, readAt, written, n, k);
    } else {
      LiveBreakLate(log, have, start, readAt, written, n, k);
    }
  }

  lemma LatestOfPrefix(lastEventId: Option<string>, written: seq<Event>, n: nat)
    requires 0 < n <= |written|
    ensures Latest(lastEventId, written[..n]) == Some(written[n - 1].eventId)
  {}

  lemma NamedAreUnique(log: seq<Event>)
    requires NamedEvents(log)
    ensures UniqueIds(log)
  {}

  lemma SplitAfter(log: seq<Event>, start: nat, readAt: nat, written: seq<Event>, n: nat, k: nat)
    requires UniqueIds(log) && Split(log, start, readAt, written) && 0 < n <= |written| && readAt <= k < |log| && written[n - 1] == log[k]
    ensures AllIn(log, start, readAt, written[..n])
  {
    var m :| 0 <= m <= |written| && AllIn(log, start, readAt, written[..m]) && Within(written[..m], log[..readAt]);
    OnlyAt(log, k);
    assert log[k] !in log[..readAt];
    assert forall j | 0 <= j < m :: written[..m][j] == written[j] && written[j] in log[..readAt];
    assert m < n;
    assert written[..n][..m] == written[..m];
    MoreIn(log, start, readAt, written[..m], start, readAt, written[..n]);
  }

  /** A client that has nothing yet of what follows: every break of its live connection is harmless
      exactly if the connection has written, of what stands in the log after the catch-up read,
      an initial stretch in the order of the log. */
  lemma LiveBreaksHarmlessIff(start: State, steps: seq<Step>, have: seq<Event>)
    requires EventRoute.Initial(start) && NamedEvents(Run(start, steps).log) && Run(start, steps).connection.phase == LIVE
    requires Steady(start.log, Run(start, steps).log, start.connection.lastEventId)
    requires ResumesWithoutLoss(start.log, have, start.connection.lastEventId)
    requires var s := Run(start, steps);
      forall i | LiveFrom(Start(s.log, start.connection.lastEventId), s.readAt) <= i < |s.log| :: s.log[i] !in have
    ensures var s, lastEventId := Run(start, steps), start.connection.lastEventId;
      var from := LiveFrom(Start(s.log, lastEventId), s.readAt);
      && from <= |s.log|
      && (EveryBreakHarmless(s.log, have, lastEventId, s.connection.written) <==> LaterOf(s.log, from, s.connection.written) <= s.log[from..])
  {
    RunIsOrdered(start, steps);
    var s, lastEventId := Run(start, steps), start.connection.lastEventId;
    var from, written := LiveFrom(Start(s.log, lastEventId), s.readAt), s.connection.written;
    hide Run, EventRoute.Initial, Start, ResumesWithoutLoss, InOrder, Within, Steady, LaterOf, FindEvent, EventsAfterLastId;
    StillWithoutLoss(start.log, s.log, have, lastEventId);
    hide UniqueIds, NamedEvents;
    InOrderIsStretch(s.log, from, written);
    forall n | 0 < n <= |written|
      ensures ResumesWithoutLoss(s.log, have + written[..n], Latest(lastEventId, written[..n])) <==> InOrderAt(s.log, from, |s.log|, written[n - 1], written[..n])
    {
      LiveBreak(s.log, have, lastEventId, s.readAt, written, n);
    }
    hide Split;
    AllBreaks(s.log, have, lastEventId, from, written);
  }

  lemma AllBreaks(log: seq<Event>, have: seq<Event>, lastEventId: Option<string>, from: nat, written: seq<Event>)
    requires ResumesWithoutLoss(log, have, lastEventId)
    requires forall n | 0 < n <= |written| ::
      ResumesWithoutLoss(log, have + written[..n], Latest(lastEventId, written[..n])) <==> InOrderAt(log, from, |log|, written[n - 1], written[..n])
    ensures EveryBreakHarmless(log, have, lastEventId, written) <==> InOrder(log, from, |log|, written)
  {
    hide InOrderAt, ResumesWithoutLoss;
    assert have + written[..0] == have && Latest(lastEventId, written[..0]) == lastEventId;
    if InOrder(log, from, |log|, written) {
      forall n | 0 <= n <= |written| ensures ResumesWithoutLoss(log, have + written[..n], Latest(lastEventId, written[..n])) {
        if n > 0 { assert InOrderAt(log, from, |log|, written[n - 1], written[..n - 1 + 1]); }
      }
    }
    if EveryBreakHarmless(log, have, lastEventId, written) {
      forall j | 0 <= j < |written| ensures InOrderAt(log, from, |log|, written[j], written[..j + 1]) {
        assert ResumesWithoutLoss(log, have + written[..j + 1], Latest(lastEventId, written[..j + 1]));
        assert written[(j + 1) - 1] == written[j];
      }
    }
  }

  // ---------------------------------------------------------------------------------
  // Any number of connections, and polls before, during and after them
  // ---------------------------------------------------------------------------------

  /** What reaches the client while a connection is open: an event of the stream, or the whole log
      as it stands, by a poll. */
  datatype Arrival = Streamed(event: Event) | Polled(log: seq<Event>)

  function Stream(arrivals: seq<Arrival>): seq<Event> {
    if arrivals == [] then []
    else (if arrivals[0].Streamed? then [arrivals[0].event] else []) + Stream(arrivals[1..])
  }

  function Brought(arrivals: seq<Arrival>): seq<Event> {
    if arrivals == [] then []
    else (if arrivals[0].Streamed? then [arrivals[0].event] else arrivals[0].log) + Brought(arrivals[1..])
  }

  /** One connection, from its opening to the break, what arrived meanwhile, whether the stream
      ended cleanly, and the polls between the break and the next opening; `log` is the log when
      the last of them is answered. */
  datatype Visit = Visit(start: State, steps: seq<Step>, arrivals: seq<Arrival>, clean: bool, polls: seq<Arrival>, log: seq<Event>)

  function End(v: Visit): State {
    Run(v.start, v.steps)
  }

  function Gained(v: Visit): seq<Event> {
    Brought(v.arrivals) + Brought(v.polls)
  }

  /** A stream that ends cleanly leaves its own last id, one that fails the last id of any arrival;
      a poll leaves the id of the last event of the log. */
  function Remembered(v: Visit, lastEventId: Option<string>): Option<string> {
    Latest(if v.clean then Latest(lastEventId, Stream(v.arrivals)) else Latest(lastEventId, Brought(v.arrivals)), Brought(v.polls))
  }

  /** The connection is opened some time after the log was `log`, with the remembered id. */
  ghost predicate Continues(v: Visit, log: seq<Event>, lastEventId: Option<string>) {
    && EventRoute.Initial(v.start) && log <= v.start.log && v.start.connection.lastEventId == lastEventId
    && Stream(v.arrivals) <= End(v).connection.written && End(v).log <= v.log && NamedEvents(v.log)
    && (forall i | 0 <= i < |v.arrivals| && v.arrivals[i].Polled? :: v.arrivals[i].log <= End(v).log)
    && (forall i | 0 <= i < |v.polls| :: v.polls[i].Polled? && v.polls[i].log <= v.log)
    && Steady(log, v.log, lastEventId)
  }

  ghost predicate Visits(vs: seq<Visit>, log: seq<Event>, lastEventId: Option<string>)
    decreases |vs|
  {
    vs == [] || (Continues(vs[0], log, lastEventId) && Visits(vs[1..], vs[0].log, Remembered(vs[0], lastEventId)))
  }

  /** The client has got everything between where the connection started and what it remembers
      before the next. */
  ghost predicate SkipsNothing(v: Visit, have: seq<Event>, lastEventId: Option<string>) {
    AllIn(v.log, Start(v.log, lastEventId), Start(v.log, Remembered(v, lastEventId)), have + Gained(v))
  }

  ghost predicate NeverSkips(vs: seq<Visit>, have: seq<Event>, lastEventId: Option<string>)
    decreases |vs|
  {
    vs == [] || (SkipsNothing(vs[0], have, lastEventId) && NeverSkips(vs[1..], have + Gained(vs[0]), Remembered(vs[0], lastEventId)))
  }

  /** Before every next opening the client resumes without loss. */
  ghost predicate AlwaysResumes(vs: seq<Visit>, have: seq<Event>, lastEventId: Option<string>)
    decreases |vs|
  {
    vs == [] ||
      (ResumesWithoutLoss(vs[0].log, have + Gained(vs[0]), Remembered(vs[0], lastEventId))
       && AlwaysResumes(vs[1..], have + Gained(vs[0]), Remembered(vs[0], lastEventId)))
  }

  lemma VisitLog(v: Visit, log: seq<Event>, lastEventId: Option<string>)
    requires Continues(v, log, lastEventId)
    ensures log <= v.log && UniqueIds(v.log) && Steady(log, v.log, lastEventId)
  {
    RunIsOrdered(v.start, v.steps);
    hide Run, EventRoute.Initial, InOrder, Split, Start, Within;
  }

  /** However often the client connects again and polls: it misses nothing exactly if no
      connection together with its polls skips an event. */
  lemma {:induction false} ReconnectsLoseNothingIff(vs: seq<Visit>, log: seq<Event>, have: seq<Event>, lastEventId: Option<string>)
    requires ResumesWithoutLoss(log, have, lastEventId) && Visits(vs, log, lastEventId)
    ensures AlwaysResumes(vs, have, lastEventId) <==> NeverSkips(vs, have, lastEventId)
    decreases |vs|
  {
    hide ResumesWithoutLoss, Continues, Start, AllIn, Steady, Gained, Remembered;
    if vs != [] {
      var v := vs[0];
      var latest := Remembered(v, lastEventId);
      VisitLog(v, log, lastEventId);
      StillWithoutLoss(log, v.log, have, lastEventId);
      ResumesIff(v.log, have, lastEventId, Gained(v), latest);
      if ResumesWithoutLoss(v.log, have + Gained(v), latest) {
        ReconnectsLoseNothingIff(vs[1..], v.log, have + Gained(v), latest);
      }
    }
  }

  /** A poll that is answered after the break makes good whatever the connection skipped. */
  lemma PolledVisitSkipsNothing(v: Visit, have: seq<Event>, lastEventId: Option<string>, log: seq<Event>)
    requires Continues(v, log, lastEventId) && Polled(v.log) in v.polls
    ensures SkipsNothing(v, have, lastEventId)
  {
    BroughtHas(v.polls, v.log);
    hide Continues, Remembered, Start;
  }

  lemma {:induction false} BroughtHas(arrivals: seq<Arrival>, log: seq<Event>)
    requires Polled(log) in arrivals
    ensures forall e | e in log :: e in Brought(arrivals)
    decreases |arrivals|
  {
    if arrivals[0] != Polled(log) { BroughtHas(arrivals[1..], log); }
  }

  lemma LosesFirst(a: Event, b: Event)
    requires a.eventId != b.eventId && b.eventId != ""
    ensures EventsAfterLastId([a, b], Some(b.eventId)) == [] && !ResumesWithoutLoss([a, b], [b], Some(b.eventId))
  {
    FoundAt([a, b], 1);
    hide FindEvent;
    assert [a, b][2..] == [];
    assert a in [a, b] && a !in [b];
  }

  lemma LiveRun(a: Event, b: Event)
    requires a.eventId != b.eventId
    ensures var c := Connection(None, LIVE, [], {}, [], []);
      Run(State([], {}, c, 0), [Append(a), Append(b), Publish(b)]) == State([a, b], {b.eventId}, c.(sent := {b.eventId}, written := [b]), 0)
  {
    var s4 := State([], {}, Connection(None, LIVE, [], {}, [], []), 0);
    var s7 := State([a, b], {b.eventId}, s4.connection.(sent := {b.eventId}, written := [b]), 0);
    var tail := [Append(a), Append(b), Publish(b)];
    assert [] + [a] == [a] && [a] + [b] == [a, b] && [] + [b] == [b] && {} + {b.eventId} == {b.eventId};
    assert Next(s4, Append(a)) == Some(s4.(log := [a]));
    assert Next(s4.(log := [a]), Append(b)) == Some(s4.(log := [a, b]));
    assert b in [a, b] && Next(s4.(log := [a, b]), Publish(b)) == Some(s7);
    assert tail[1..] == [Append(b), Publish(b)] && tail[1..][1..] == [Publish(b)] && tail[1..][1..][1..] == [];
    hide Next;
    RunStep(s4, tail);
    RunStep(s4.(log := [a]), tail[1..]);
    RunStep(s4.(log := [a, b]), tail[1..][1..]);
  }

  /** A live connection can lose an event for good: `a` and `b` are appended, `b` is published
      first, the connection breaks, and `a` is neither among what was received nor among what
      the client will be sent. The poll closes this gap. */
  lemma LiveBreakCanLose(a: Event, b: Event)
    requires a.eventId != b.eventId && a.eventId != "" && b.eventId != ""
    ensures var start := State([], {}, Connection(None, OPENING, [], {}, [], []), 0);
      var s := Run(start, [ReadLog, Replay, ReadAgain, GoLive([]), Append(a), Append(b), Publish(b)]);
      && EventRoute.Initial(start) && s.connection.phase == LIVE && s.log == [a, b] && s.connection.written == [b]
      && EventsAfterLastId(s.log, Some(b.eventId)) == [] && !ResumesWithoutLoss(s.log, [b], Some(b.eventId))
  {
    hide Run, Next, EventsAfterLastId, ResumesWithoutLoss;
    var tail := [Append(a), Append(b), Publish(b)];
    OpensEmpty(tail);
    LiveRun(a, b);
    LosesFirst(a, b);
    assert [ReadLog, Replay, ReadAgain, GoLive([])] + tail == [ReadLog, Replay, ReadAgain, GoLive([]), Append(a), Append(b), Publish(b)];
  }

  /** A connection to an empty log goes live with nothing written. */
  lemma OpensEmpty(tail: seq<Step>)
    ensures var c := Connection(None, OPENING, [], {}, [], []);
      var steps: seq<Step> := [ReadLog, Replay, ReadAgain, GoLive([])];
      && Run(State([], {}, c, 0), steps + tail) == Run(State([], {}, c.(phase := LIVE), 0), tail)
      && EventRoute.Initial(State([], {}, c, 0))
  {
    var c := Connection(None, OPENING, [], {}, [], []);
    var s0 := State([], {}, c, 0);
    var s1 := s0.(connection := c.(phase := SNAPSHOT));
    var s2 := s0.(connection := c.(phase := REPLAYING));
    var s3 := s0.(connection := c.(phase := CAUGHT_UP));
    var s4 := s0.(connection := c.(phase := LIVE));
    assert Ids([]) == {};
    assert Next(s0, ReadLog) == Some(s1) && Next(s1, Replay) == Some(s2) && Next(s2, ReadAgain) == Some(s3) && Next(s3, GoLive([])) == Some(s4);
    var steps: seq<Step> := [ReadLog, Replay, ReadAgain, GoLive([])];
    assert (steps + tail)[1..] == [Replay, ReadAgain, GoLive([])] + tail;
    assert ([Replay, ReadAgain, GoLive([])] + tail)[1..] == [ReadAgain, GoLive([])] + tail;
    assert ([ReadAgain, GoLive([])] + tail)[1..] == [GoLive([])] + tail;
    assert ([GoLive([])] + tail)[1..] == tail;
    RunStep(s0, steps + tail);
    RunStep(s1, [Replay, ReadAgain, GoLive([])] + tail);
    RunStep(s2, [ReadAgain, GoLive([])] + tail);
    RunStep(s3, [GoLive([])] + tail);
  }
}
