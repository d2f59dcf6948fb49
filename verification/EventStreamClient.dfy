/**
 * The browser's event-stream client (apps/web/lib/usePlayer.ts): an incremental parser of the
 * format of section 9.2.5 of the WHATWG HTML Standard that sees the text in arbitrary chunks,
 * and the list of live events it feeds.
 */
module EventStreamClient {
  import opened Wrappers
  import opened SessionEvents

  // ---------------------------------------------------------------------------------
  // Line ends
  // ---------------------------------------------------------------------------------

  /** `replace(/\r\n/g, "\n")` */
  function ReplaceCrLf(s: string): string {
    if |s| < 2 then s
    else if s[0] == '\r' && s[1] == '\n' then "\n" + ReplaceCrLf(s[2..])
    else [s[0]] + ReplaceCrLf(s[1..])
  }

  /** `replace(/\r/g, to)` */
  function ReplaceCr(s: string, to: string): string {
    if s == "" then "" else (if s[0] == '\r' then to else [s[0]]) + ReplaceCr(s[1..], to)
  }

  /** The stream with every line end, CRLF, CR or LF, as one LF. */
  function NormalizeLines(s: string): string {
    if s == "" then ""
    else if s[0] != '\r' then [s[0]] + NormalizeLines(s[1..])
    else if |s| >= 2 && s[1] == '\n' then "\n" + NormalizeLines(s[2..])
    else "\n" + NormalizeLines(s[1..])
  }

  /** The client's two passes are the one pass. */
  lemma {:induction false} TwoPassesNormalize(s: string)
    ensures ReplaceCr(ReplaceCrLf(s), "\n") == NormalizeLines(s)
  {
    if |s| == 1 {
      assert s[1..] == "" && ReplaceCrLf(s)[1..] == "";
    } else if |s| >= 2 {
      if s[0] == '\r' && s[1] == '\n' {
        TwoPassesNormalize(s[2..]);
        assert ReplaceCrLf(s)[1..] == ReplaceCrLf(s[2..]);
      } else {
        TwoPassesNormalize(s[1..]);
        assert ReplaceCrLf(s)[1..] == ReplaceCrLf(s[1..]);
      }
    }
  }

  predicate EndsWithCr(s: string) {
    s != "" && s[|s| - 1] == '\r'
  }

  /** How many characters the first line end or other character takes. */
  function HeadLength(s: string): (n: nat)
    requires s != ""
    ensures n <= |s|
  {
    if s[0] == '\r' && |s| >= 2 && s[1] == '\n' then 2 else 1
  }

  lemma NormalizeHead(s: string)
    requires s != ""
    ensures NormalizeLines(s) == [if s[0] == '\r' then '\n' else s[0]] + NormalizeLines(s[HeadLength(s)..])
  {}

  lemma HeadOfAppend(a: string, b: string)
    requires a != "" && !(EndsWithCr(a) && b != "" && b[0] == '\n')
    ensures HeadLength(a + b) == HeadLength(a) && (a + b)[0] == a[0]
    ensures (a + b)[HeadLength(a)..] == a[HeadLength(a)..] + b
    ensures !(EndsWithCr(a[HeadLength(a)..]) && b != "" && b[0] == '\n')
  {
    assert |a| >= 2 ==> (a + b)[1] == a[1];
  }

  /** Text may be cut anywhere but inside a CRLF. */
  lemma {:induction false} NormalizeAppend(a: string, b: string)
    requires !(EndsWithCr(a) && b != "" && b[0] == '\n')
    ensures NormalizeLines(a + b) == NormalizeLines(a) + NormalizeLines(b)
  {
    if a == "" {
      assert a + b == b;
    } else {
      HeadOfAppend(a, b);
      NormalizeHead(a);
      NormalizeHead(a + b);
      hide NormalizeLines, EndsWithCr;
      NormalizeAppend(a[HeadLength(a)..], b);
      Prepend(if a[0] == '\r' then '\n' else a[0], NormalizeLines(a[HeadLength(a)..]), NormalizeLines(b));
    }
  }

  lemma Prepend(c: char, x: string, y: string)
    ensures [c] + (x + y) == [c] + x + y
  {}

  // ---------------------------------------------------------------------------------
  // Blocks
  // ---------------------------------------------------------------------------------

  predicate BoundaryAt(s: string, i: int) {
    0 <= i < |s| - 1 && s[i] == '\n' && s[i + 1] == '\n'
  }

  /** `indexOf("\n\n")`, None for -1 */
  function Boundary(s: string): (r: Option<nat>)
    ensures r.Some? ==> BoundaryAt(s, r.value) && forall i | 0 <= i < r.value :: !BoundaryAt(s, i)
    ensures r == None ==> forall i :: !BoundaryAt(s, i)
  {
    if |s| < 2 then None
    else if s[0] == '\n' && s[1] == '\n' then Some(0)
    else
      match Boundary(s[1..])
      case None => assert forall i :: BoundaryAt(s, i) ==> i == 0 || BoundaryAt(s[1..], i - 1); None
      case Some(i) =>
        assert forall j | 0 < j :: BoundaryAt(s, j) ==> BoundaryAt(s[1..], j - 1);
        Some(i + 1)
  }

  /** The blocks a blank line terminates, in order. */
  function Blocks(s: string): seq<string>
    decreases |s|
  {
    match Boundary(s)
    case None => []
    case Some(i) => [s[..i]] + Blocks(s[i + 2..])
  }

  /** What is left when they are taken. */
  function Rest(s: string): string
    decreases |s|
  {
    match Boundary(s)
    case None => s
    case Some(i) => Rest(s[i + 2..])
  }

  function Terminated(blocks: seq<string>): string {
    if blocks == [] then "" else blocks[0] + "\n\n" + Terminated(blocks[1..])
  }

  ghost predicate NoBoundary(s: string) {
    forall i :: !BoundaryAt(s, i)
  }

  /** No block hides a blank line, not even with the line end that follows it. */
  ghost predicate Clean(blocks: seq<string>) {
    forall k | 0 <= k < |blocks| :: NoBoundary(blocks[k] + "\n")
  }

  lemma BoundaryUnique(s: string, i: nat)
    requires BoundaryAt(s, i) && forall j | 0 <= j < i :: !BoundaryAt(s, j)
    ensures Boundary(s) == Some(i)
  {}

  lemma BoundaryStays(a: string, b: string)
    requires Boundary(a).Some?
    ensures Boundary(a + b) == Boundary(a)
    ensures (a + b)[..Boundary(a).value] == a[..Boundary(a).value]
    ensures (a + b)[Boundary(a).value + 2..] == a[Boundary(a).value + 2..] + b
  {
    var i := Boundary(a).value;
    assert forall j | 0 <= j <= i :: BoundaryAt(a + b, j) <==> BoundaryAt(a, j);
    BoundaryUnique(a + b, i);
  }

  lemma BlocksStep(s: string)
    requires Boundary(s).Some?
    ensures var i := Boundary(s).value; Blocks(s) == [s[..i]] + Blocks(s[i + 2..]) && Rest(s) == Rest(s[i + 2..])
  {}

  lemma PrependBlock(block: string, a: seq<string>, b: seq<string>)
    ensures [block] + (a + b) == [block] + a + b
  {}

  /** More text adds blocks and leaves the complete ones alone. */
  lemma {:induction false} BlocksAppend(a: string, b: string)
    ensures Blocks(a + b) == Blocks(a) + Blocks(Rest(a) + b)
    ensures Rest(a + b) == Rest(Rest(a) + b)
    decreases |a|
  {
    if Boundary(a).Some? {
      var i := Boundary(a).value;
      BoundaryStays(a, b);
      BlocksStep(a);
      BlocksStep(a + b);
      hide Blocks, Rest, BoundaryAt;
      BlocksAppend(a[i + 2..], b);
      PrependBlock(a[..i], Blocks(a[i + 2..]), Blocks(Rest(a) + b));
    }
  }

  lemma FirstBlock(block: string, tail: string)
    requires NoBoundary(block + "\n")
    ensures var s := block + "\n\n" + tail; Boundary(s) == Some(|block|) && s[..|block|] == block && s[|block| + 2..] == tail
  {
    var s := block + "\n\n" + tail;
    assert forall j | 0 <= j < |block| :: BoundaryAt(s, j) ==> BoundaryAt(block + "\n", j);
    BoundaryUnique(s, |block|);
  }

  lemma TerminatedStep(blocks: seq<string>, rest: string)
    requires blocks != []
    ensures Terminated(blocks) + rest == blocks[0] + "\n\n" + (Terminated(blocks[1..]) + rest)
  {}

  /** Text that consists of clean blocks and a rest is cut up into just those. */
  lemma {:induction false} BlocksOfTerminated(blocks: seq<string>, rest: string)
    requires Clean(blocks) && NoBoundary(rest)
    ensures Blocks(Terminated(blocks) + rest) == blocks && Rest(Terminated(blocks) + rest) == rest
  {
    if blocks == [] {
      assert Terminated(blocks) + rest == rest;
    } else {
      TerminatedStep(blocks, rest);
      assert NoBoundary(blocks[0] + "\n");
      FirstBlock(blocks[0], Terminated(blocks[1..]) + rest);
      assert forall k | 0 <= k < |blocks[1..]| :: blocks[1..][k] == blocks[k + 1];
      BlocksOfTerminated(blocks[1..], rest);
    }
  }

  lemma SplitAt(s: string, i: nat)
    requires BoundaryAt(s, i)
    ensures s == s[..i] + "\n\n" + s[i + 2..]
  {}

  lemma {:induction false} BlocksRejoin(s: string)
    ensures s == Terminated(Blocks(s)) + Rest(s) && NoBoundary(Rest(s)) && Clean(Blocks(s))
    decreases |s|
  {
    match Boundary(s) {
      case None => EmptyFront(s);
      case Some(i) =>
        var tail := s[i + 2..];
        BlocksRejoin(tail);
        SplitAt(s, i);
        assert Blocks(s)[1..] == Blocks(tail);
        TerminatedStep(Blocks(s), Rest(s));
        CleanStep(s[..i], Blocks(tail), s, i);
    }
  }

  lemma EmptyFront(s: string)
    ensures Terminated([]) + s == s
  {}

  lemma CleanStep(block: string, blocks: seq<string>, s: string, i: nat)
    requires Clean(blocks) && Boundary(s) == Some(i) && block == s[..i]
    ensures Clean([block] + blocks)
  {
    assert NoBoundary(block + "\n") by {
      assert forall j :: BoundaryAt(block + "\n", j) ==> j < i && BoundaryAt(s, j);
    }
    forall k | 0 <= k < |[block] + blocks| ensures NoBoundary(([block] + blocks)[k] + "\n") {
      if k > 0 { assert ([block] + blocks)[k] == blocks[k - 1]; }
    }
  }

  /** The blocks and the rest are the text again, no rest or block hides a blank line, and
      there is no other way to cut the text up like that. */
  lemma BlocksExact(s: string, blocks: seq<string>, rest: string)
    ensures blocks == Blocks(s) && rest == Rest(s) <==> s == Terminated(blocks) + rest && NoBoundary(rest) && Clean(blocks)
  {
    BlocksRejoin(s);
    if s == Terminated(blocks) + rest && NoBoundary(rest) && Clean(blocks) { BlocksOfTerminated(blocks, rest); }
  }

  // ---------------------------------------------------------------------------------
  // One block
  // ---------------------------------------------------------------------------------

  function LineEnd(s: string): (n: nat)
    ensures n <= |s| && (forall i | 0 <= i < n :: s[i] != '\n') && (n < |s| ==> s[n] == '\n')
  {
    if s == "" || s[0] == '\n' then 0 else 1 + LineEnd(s[1..])
  }

  /** `split("\n")` */
  function Lines(s: string): seq<string>
    decreases |s|
  {
    if LineEnd(s) == |s| then [s] else [s[..LineEnd(s)]] + Lines(s[LineEnd(s) + 1..])
  }

  /** What `trimStart` removes. */
  predicate IsBlank(c: char) {
    var n := c as int;
    9 <= n <= 13 || n == 32 || n == 0xA0 || n == 0x1680 || 0x2000 <= n <= 0x200A || n == 0x2028 || n == 0x2029
    || n == 0x202F || n == 0x205F || n == 0x3000 || n == 0xFEFF
  }

  function TrimStart(s: string): string {
    if s != "" && IsBlank(s[0]) then TrimStart(s[1..]) else s
  }

  function JoinLines(lines: seq<string>): string {
    if |lines| == 0 then "" else if |lines| == 1 then lines[0] else lines[0] + "\n" + JoinLines(lines[1..])
  }

  datatype Parsed = Parsed(id: Option<string>, data: Option<string>)

  /** The last `id:` line counts, and all `data:` lines do. */
  function LastId(lines: seq<string>): Option<string> {
    if lines == [] then None
    else if "id:" <= lines[|lines| - 1] then Some(TrimStart(lines[|lines| - 1][3..]))
    else LastId(lines[..|lines| - 1])
  }

  function DataLines(lines: seq<string>): seq<string> {
    if lines == [] then []
    else
      var front := DataLines(lines[..|lines| - 1]);
      if "data:" <= lines[|lines| - 1] then front + [TrimStart(lines[|lines| - 1][5..])] else front
  }

  function ParseBlock(block: string): Parsed {
    var lines := Lines(ReplaceCr(block, ""));
    Parsed(LastId(lines), if DataLines(lines) == [] then None else Some(JoinLines(DataLines(lines))))
  }

  method ParseSseBlock(block: string) returns (parsed: Parsed)
    ensures parsed == ParseBlock(block)
  {
    var lines := Lines(ReplaceCr(block, ""));
    var id: Option<string> := None;
    var data: seq<string> := [];
    for i := 0 to |lines|
      invariant id == LastId(lines[..i]) && data == DataLines(lines[..i])
    {
      assert lines[..i + 1][..i] == lines[..i];
      if "id:" <= lines[i] { id := Some(TrimStart(lines[i][3..])); }
      if "data:" <= lines[i] { data := data + [TrimStart(lines[i][5..])]; }
    }
    assert lines[..|lines|] == lines;
    parsed := Parsed(id, if |data| > 0 then Some(JoinLines(data)) else None);
  }

  // ---------------------------------------------------------------------------------
  // The stream
  // ---------------------------------------------------------------------------------

  /** The events handed on so far and the last event id; failed once `JSON.parse` has thrown. */
  datatype Reading = Reading(events: seq<Event>, latestId: Option<string>, failed: bool)

  type Parser = string -> Option<Event>

  function Deliver(r: Reading, block: string, parse: Parser): Reading {
    var parsed := ParseBlock(block);
    if r.failed || parsed.data == None || parsed.data == Some("") then r
    else
      match parse(parsed.data.value)
      case None => r.(failed := true)
      case Some(e) => Reading(r.events + [e], Some(if parsed.id.Some? then parsed.id.value else e.eventId), false)
  }

  function DeliverAll(r: Reading, blocks: seq<string>, parse: Parser): Reading
    decreases |blocks|
  {
    if blocks == [] then r else DeliverAll(Deliver(r, blocks[0], parse), blocks[1..], parse)
  }

  lemma {:induction false} DeliverAppend(r: Reading, a: seq<string>, b: seq<string>, parse: Parser)
    ensures DeliverAll(r, a + b, parse) == DeliverAll(DeliverAll(r, a, parse), b, parse)
    decreases |a|
  {
    if a == [] {
      assert a + b == b;
    } else {
      assert (a + b)[1..] == a[1..] + b;
      DeliverAppend(Deliver(r, a[0], parse), a[1..], b, parse);
    }
  }

  lemma {:induction false} FailureIsFinal(r: Reading, blocks: seq<string>, parse: Parser)
    requires r.failed
    ensures DeliverAll(r, blocks, parse) == r
  {
    if blocks != [] { FailureIsFinal(r, blocks[1..], parse); }
  }

  function DropCr(s: string): string {
    if EndsWithCr(s) then s[..|s| - 1] else s
  }

  /** What a text means, however it arrives. */
  function Received(text: string, lastEventId: Option<string>, parse: Parser): Reading {
    DeliverAll(Reading([], lastEventId, false), Blocks(NormalizeLines(DropCr(text))), parse)
  }

  function Flatten(chunks: seq<string>): string {
    if chunks == [] then "" else Flatten(chunks[..|chunks| - 1]) + chunks[|chunks| - 1]
  }

  lemma {:induction false} FlattenAppend(a: seq<string>, b: seq<string>)
    ensures Flatten(a + b) == Flatten(a) + Flatten(b)
  {
    if b == [] {
      assert a + b == a;
    } else {
      assert (a + b)[..|a + b| - 1] == a + b[..|b| - 1];
      FlattenAppend(a, b[..|b| - 1]);
    }
  }

  /** Reading on: what is delivered already stays, and the rest is parsed with what follows. */
  lemma ReadOn(text: string, more: string, lastEventId: Option<string>, parse: Parser)
    ensures var blocks := Blocks(Rest(NormalizeLines(DropCr(text))) + NormalizeLines(DropCr((if EndsWithCr(text) then "\r" else "") + more)));
      && Received(text + more, lastEventId, parse) == DeliverAll(Received(text, lastEventId, parse), blocks, parse)
      && Rest(NormalizeLines(DropCr(text + more))) == Rest(Rest(NormalizeLines(DropCr(text))) + NormalizeLines(DropCr((if EndsWithCr(text) then "\r" else "") + more)))
  {
    var body := DropCr(text);
    var chunk := (if EndsWithCr(text) then "\r" else "") + more;
    DroppedAppend(text, more);
    NormalizeAppend(body, DropCr(chunk));
    BlocksAppend(NormalizeLines(body), NormalizeLines(DropCr(chunk)));
    DeliverAppend(Reading([], lastEventId, false), Blocks(NormalizeLines(body)), Blocks(Rest(NormalizeLines(body)) + NormalizeLines(DropCr(chunk))), parse);
  }

  lemma DroppedAppend(text: string, more: string)
    ensures var chunk := (if EndsWithCr(text) then "\r" else "") + more;
      && DropCr(text + more) == DropCr(text) + DropCr(chunk)
      && (EndsWithCr(text + more) <==> EndsWithCr(chunk))
      && !(EndsWithCr(DropCr(text)) && DropCr(chunk) != "" && DropCr(chunk)[0] == '\n')
  {
    var chunk := (if EndsWithCr(text) then "\r" else "") + more;
    assert text + more == DropCr(text) + chunk;
    if more == "" {
      assert text + more == text;
    }
  }

  lemma TakeBlock(r: Reading, buffer: string, parse: Parser)
    requires Boundary(buffer).Some?
    ensures var i := Boundary(buffer).value;
      && DeliverAll(r, Blocks(buffer), parse) == DeliverAll(Deliver(r, buffer[..i], parse), Blocks(buffer[i + 2..]), parse)
      && Rest(buffer) == Rest(buffer[i + 2..])
  {
    var i := Boundary(buffer).value;
    assert Blocks(buffer)[0] == buffer[..i] && Blocks(buffer)[1..] == Blocks(buffer[i + 2..]);
  }

  lemma NothingToTake(r: Reading, buffer: string, parse: Parser)
    requires Boundary(buffer) == None
    ensures DeliverAll(r, Blocks(buffer), parse) == r && Rest(buffer) == buffer
  {}

  lemma NothingRead(chunks: seq<string>, lastEventId: Option<string>, parse: Parser)
    ensures Flatten(chunks[..0]) == "" && Received("", lastEventId, parse) == Reading([], lastEventId, false)
    ensures Rest(NormalizeLines(DropCr(""))) == "" && !EndsWithCr("") && chunks[..|chunks|] == chunks
  {}

  lemma FlattenNext(chunks: seq<string>, k: nat)
    requires k < |chunks|
    ensures Flatten(chunks[..k + 1]) == Flatten(chunks[..k]) + chunks[k]
  {
    assert chunks[..k + 1][..k] == chunks[..k];
  }

  /** A carriage return at the end of a chunk waits for the next one. */
  method AppendChunk(buffer: string, trailingCarriageReturn: bool, incoming: string) returns (extended: string, trailing: bool)
    ensures var chunk := (if trailingCarriageReturn then "\r" else "") + incoming;
      extended == buffer + NormalizeLines(DropCr(chunk)) && trailing == EndsWithCr(chunk)
  {
    var chunk := incoming;
    assert "" + incoming == incoming;
    trailing := false;
    if trailingCarriageReturn { chunk := "\r" + chunk; }
    if EndsWithCr(chunk) {
      chunk := chunk[..|chunk| - 1];
      trailing := true;
    }
    TwoPassesNormalize(chunk);
    extended := buffer + ReplaceCr(ReplaceCrLf(chunk), "\n");
  }

  /** The inner loop: hands on the complete blocks, up to one that cannot be parsed. */
  method DeliverBlocks(text: string, reading: Reading, parse: Parser) returns (buffer: string, r: Reading)
    requires !reading.failed
    ensures r == DeliverAll(reading, Blocks(text), parse)
    ensures !r.failed ==> buffer == Rest(text)
  {
    hide Rest, Blocks, DeliverAll, ParseBlock;
    buffer, r := text, reading;
    var boundary := Boundary(buffer);
    while boundary.Some?
      invariant boundary == Boundary(buffer) && !r.failed && Rest(buffer) == Rest(text)
      invariant DeliverAll(r, Blocks(buffer), parse) == DeliverAll(reading, Blocks(text), parse)
      decreases |buffer|
    {
      TakeBlock(r, buffer, parse);
      var block := buffer[..boundary.value];
      buffer := buffer[boundary.value + 2..];
      var parsed := ParseSseBlock(block);
      if parsed.data.Some? && parsed.data.value != "" {
        var event := parse(parsed.data.value);
        if event == None {
          r := r.(failed := true);
          FailureIsFinal(r, Blocks(buffer), parse);
          return;
        }
        r := Reading(r.events + [event.value], Some(if parsed.id.Some? then parsed.id.value else event.value.eventId), false);
      }
      boundary := Boundary(buffer);
    }
    NothingToTake(r, buffer, parse);
  }

  /** `consumeEventStream` on the chunks that arrive until the stream ends or is aborted. Chunks
      may be empty and may cut anything in two; only the whole text matters. */
  method ConsumeEventStream(chunks: seq<string>, lastEventId: Option<string>, parse: Parser) returns (r: Reading)
    ensures r == Received(Flatten(chunks), lastEventId, parse)
  {
    var buffer := "";
    var trailingCarriageReturn := false;
    r := Reading([], lastEventId, false);
    NothingRead(chunks, lastEventId, parse);
    hide Flatten, Rest, Blocks, DeliverAll, Received, NormalizeLines, DropCr, EndsWithCr;
    for k := 0 to |chunks|
      invariant trailingCarriageReturn == EndsWithCr(Flatten(chunks[..k]))
      invariant buffer == Rest(NormalizeLines(DropCr(Flatten(chunks[..k]))))
      invariant r == Received(Flatten(chunks[..k]), lastEventId, parse) && !r.failed
    {
      FlattenNext(chunks, k);
      ReadOn(Flatten(chunks[..k]), chunks[k], lastEventId, parse);
      DroppedAppend(Flatten(chunks[..k]), chunks[k]);
      buffer, trailingCarriageReturn := AppendChunk(buffer, trailingCarriageReturn, chunks[k]);
      buffer, r := DeliverBlocks(buffer, r, parse);
      if r.failed {
        NothingAfterFailure(chunks, k + 1, lastEventId, parse);
        return;
      }
    }
  }

  lemma NothingAfterFailure(chunks: seq<string>, k: nat, lastEventId: Option<string>, parse: Parser)
    requires k <= |chunks| && Received(Flatten(chunks[..k]), lastEventId, parse).failed
    ensures Received(Flatten(chunks), lastEventId, parse) == Received(Flatten(chunks[..k]), lastEventId, parse)
  {
    assert chunks == chunks[..k] + chunks[k..];
    FlattenAppend(chunks[..k], chunks[k..]);
    var text, more := Flatten(chunks[..k]), Flatten(chunks[k..]);
    ReadOn(text, more, lastEventId, parse);
    FailureIsFinal(Received(text, lastEventId, parse), Blocks(Rest(NormalizeLines(DropCr(text))) + NormalizeLines(DropCr((if EndsWithCr(text) then "\r" else "") + more))), parse);
  }

  // ---------------------------------------------------------------------------------
  // The list of live events
  // ---------------------------------------------------------------------------------

  /** Of each id the first arrival, in order of arrival. */
  function FirstArrivals(arrivals: seq<Event>): seq<Event> {
    if arrivals == [] then []
    else
      var front := FirstArrivals(arrivals[..|arrivals| - 1]);
      var last := arrivals[|arrivals| - 1];
      if HasId(front, last.eventId) then front else front + [last]
  }

  /** However often reconnects and polls bring an event, it is listed once, and none is lost. */
  lemma {:induction false} FirstArrivalsAreUnique(arrivals: seq<Event>)
    ensures UniqueIds(FirstArrivals(arrivals))
    ensures forall id :: HasId(FirstArrivals(arrivals), id) <==> HasId(arrivals, id)
  {
    if arrivals != [] {
      var n := |arrivals| - 1;
      FirstArrivalsAreUnique(arrivals[..n]);
      var front := FirstArrivals(arrivals[..n]);
      forall id ensures HasId(FirstArrivals(arrivals), id) <==> HasId(arrivals, id) {
        Extended(arrivals[..n], arrivals[n], id);
        Extended(front, arrivals[n], id);
        assert arrivals == arrivals[..n] + [arrivals[n]];
      }
    }
  }

  lemma Extended(events: seq<Event>, e: Event, id: string)
    ensures HasId(events + [e], id) <==> HasId(events, id) || e.eventId == id
  {
    assert (events + [e])[|events|] == e;
    if HasId(events, id) {
      var i :| 0 <= i < |events| && events[i].eventId == id;
      assert (events + [e])[i] == events[i];
    }
  }

  lemma TakeNext(events: seq<Event>, i: nat)
    requires i < |events|
    ensures events[..i + 1] == events[..i] + [events[i]]
  {}

  /** The state the effect of `usePlayer` closes over. */
  class LiveEvents {
    var lastEventId: Option<string>
    var seen: set<string>
    var liveEvents: seq<Event>
    ghost var arrivals: seq<Event>

    ghost predicate Valid()
      reads this
    {
      && liveEvents == FirstArrivals(arrivals)
      && (forall id :: id in seen <==> HasId(liveEvents, id))
    }

    constructor ()
      ensures Valid() && arrivals == [] && liveEvents == [] && lastEventId == None
    {
      lastEventId, seen, liveEvents, arrivals := None, {}, [], [];
    }

    /** `append`, called by the stream reader and by the poll. */
    method Append(event: Event)
      requires Valid()
      modifies this
      ensures Valid() && arrivals == old(arrivals) + [event]
      ensures liveEvents == if HasId(old(liveEvents), event.eventId) then old(liveEvents) else old(liveEvents) + [event]
      ensures lastEventId == Some(event.eventId)
    {
      lastEventId := Some(event.eventId);
      ghost var before := arrivals;
      arrivals := arrivals + [event];
      assert arrivals[..|arrivals| - 1] == before;
      if event.eventId in seen { return; }
      forall id ensures HasId(liveEvents + [event], id) <==> HasId(liveEvents, id) || event.eventId == id {
        Extended(liveEvents, event, id);
      }
      seen := seen + {event.eventId};
      liveEvents := liveEvents + [event];
    }

    /** One successful poll. */
    method Poll(events: seq<Event>)
      requires Valid()
      modifies this
      ensures Valid() && arrivals == old(arrivals) + events
      ensures UniqueIds(liveEvents) && forall id :: HasId(liveEvents, id) <==> HasId(old(arrivals) + events, id)
      ensures lastEventId == if events == [] then old(lastEventId) else Some(events[|events| - 1].eventId)
    {
      hide FirstArrivals, HasId, UniqueIds;
      for i := 0 to |events|
        invariant Valid() && arrivals == old(arrivals) + events[..i]
        invariant lastEventId == if i == 0 then old(lastEventId) else Some(events[i - 1].eventId)
      {
        Append(events[i]);
        TakeNext(events, i);
      }
      assert events[..|events|] == events;
      FirstArrivalsAreUnique(arrivals);
    }

    /** A stream that ended cleanly: what it remembers replaces what a poll may have set
        meanwhile. After an error the id of the last arrival stays. */
    method StreamEnded(latestId: Option<string>)
      requires Valid()
      modifies this`lastEventId
      ensures Valid() && lastEventId == latestId && arrivals == old(arrivals)
    {
      lastEventId := latestId;
    }
  }
}
