/** What the gateway writes to an event stream is what the client reads from it. */
module EventStreamRoundTrip {
  import opened Wrappers
  import opened CanonicalJson
  import opened SessionEvents
  import opened EventStreamClient

  predicate OneLine(s: string) {
    '\r' !in s && '\n' !in s
  }

  // ---------------------------------------------------------------------------------
  // JSON text has no line ends
  // ---------------------------------------------------------------------------------

  lemma {:induction false} EscapeOneLine(s: string)
    ensures OneLine(Escape(s))
  {
    if s != "" {
      EscapeOneLine(s[1..]);
      EscapeCharOneLine(s[0]);
    }
  }

  lemma EscapeCharOneLine(c: char)
    ensures OneLine(EscapeChar(c))
  {
    var n := c as int;
    if n < 32 {
      assert HexDigit(n / 16) >= '0' && HexDigit(n % 16) >= '0';
    }
    assert n == 10 ==> c == '\n';
    assert n == 13 ==> c == '\r';
  }

  lemma {:induction false} JoinOneLine(texts: seq<string>)
    requires forall i | 0 <= i < |texts| :: OneLine(texts[i])
    ensures OneLine(Join(texts))
  {
    if |texts| > 1 { JoinOneLine(texts[1..]); }
  }

  lemma {:induction false} RenderOneLine(ms: seq<Member<string>>)
    requires forall i | 0 <= i < |ms| :: OneLine(ms[i].value)
    ensures forall i | 0 <= i < |Render(ms)| :: OneLine(Render(ms)[i])
  {
    if ms != [] {
      EscapeOneLine(ms[0].key);
      RenderOneLine(ms[1..]);
      assert OneLine(Quote(ms[0].key) + ":" + ms[0].value);
    }
  }

  lemma {:induction false} ItemsOneLine(items: seq<Value>)
    requires forall i | 0 <= i < |items| :: WellFormed(items[i]) && Representable(items[i])
    ensures forall i | 0 <= i < |StringifyItems(items)| :: OneLine(StringifyItems(items)[i])
    decreases items
  {
    if items != [] {
      StringifyOneLine(items[0]);
      ItemsOneLine(items[1..]);
    }
  }

  lemma {:induction false} FieldsOneLine(fields: seq<Member<Value>>)
    requires forall i | 0 <= i < |fields| :: WellFormed(fields[i].value) && Representable(fields[i].value)
    ensures forall i | 0 <= i < |StringifyFields(fields)| :: OneLine(StringifyFields(fields)[i].value)
    decreases fields
  {
    if fields != [] {
      StringifyOneLine(fields[0].value);
      FieldsOneLine(fields[1..]);
    }
  }

  /** JSON text stays on one line, whatever it holds. */
  lemma {:induction false} StringifyOneLine(v: Value)
    requires WellFormed(v) && Representable(v)
    ensures OneLine(Stringify(v))
    decreases v
  {
    match v {
      case Str(s) => EscapeOneLine(s);
      case Arr(items) =>
        ItemsOneLine(items);
        JoinOneLine(StringifyItems(items));
      case Obj(fields) =>
        FieldsOneLine(fields);
        RenderOneLine(StringifyFields(fields));
        JoinOneLine(Render(StringifyFields(fields)));
      case Number(t) =>
        assert forall i | 0 <= i < |t| :: IsNumberChar(t[i]);
      case _ =>
    }
  }

  // ---------------------------------------------------------------------------------
  // What is written
  // ---------------------------------------------------------------------------------

  datatype Item = Sent(event: Event) | Heartbeat

  const HEARTBEAT := ": keep-alive"

  /** Event ids carry no line end and do not begin with a blank; types are constants. */
  ghost predicate Sendable(e: Event) {
    Printable(e) && OneLine(e.eventId) && OneLine(e.kind) && (e.eventId != "" ==> !IsBlank(e.eventId[0]))
  }

  ghost predicate AllSendable(items: seq<Item>) {
    forall i | 0 <= i < |items| :: items[i].Sent? ==> Sendable(items[i].event)
  }

  ghost function Wire(items: seq<Item>): string
    requires AllSendable(items)
  {
    if items == [] then ""
    else (if items[0].Sent? then SerializeSse(items[0].event) else HEARTBEAT + "\n\n") + Wire(items[1..])
  }

  function Events(items: seq<Item>): seq<Event> {
    if items == [] then [] else (if items[0].Sent? then [items[0].event] else []) + Events(items[1..])
  }

  function Latest(lastEventId: Option<string>, events: seq<Event>): Option<string> {
    if events == [] then lastEventId else Some(events[|events| - 1].eventId)
  }

  function EventBlock(e: Event): string
    requires Representable(e.data)
  {
    "id: " + e.eventId + "\n" + ("event: " + e.kind) + "\n" + ("data: " + EventText(e))
  }

  ghost function ItemBlocks(items: seq<Item>): (blocks: seq<string>)
    requires AllSendable(items)
    ensures |blocks| == |items|
  {
    if items == [] then []
    else [if items[0].Sent? then EventBlock(items[0].event) else HEARTBEAT] + ItemBlocks(items[1..])
  }

  lemma Regroup(id: string, kind: string, text: string)
    ensures "id: " + id + "\nevent: " + kind + "\ndata: " + text + "\n\n" ==
            "id: " + id + "\n" + ("event: " + kind) + "\n" + ("data: " + text) + "\n\n"
  {
    assert "\nevent: " == "\n" + "event: " && "\ndata: " == "\n" + "data: ";
  }

  lemma {:induction false} WireIsBlocks(items: seq<Item>)
    requires AllSendable(items)
    ensures Wire(items) == Terminated(ItemBlocks(items))
  {
    if items != [] {
      WireIsBlocks(items[1..]);
      if items[0].Sent? {
        var e := items[0].event;
        Regroup(e.eventId, e.kind, EventText(e));
      }
    }
  }

  lemma {:induction false} NoCrToReplace(s: string, to: string)
    requires '\r' !in s
    ensures ReplaceCr(s, to) == s && NormalizeLines(s) == s
  {
    if s != "" { NoCrToReplace(s[1..], to); }
  }

  function Ended(lines: seq<string>, ends: seq<string>): string
    requires |lines| == |ends|
  {
    if lines == [] then "" else lines[0] + (ends[0] + Ended(lines[1..], ends[1..]))
  }

  predicate IsLineEnd(e: string) {
    e == "\r\n" || e == "\r" || e == "\n"
  }

  function Feeds(n: nat): seq<string> {
    seq(n, i => "\n")
  }

  /** A carriage return before an empty line that ends in a line feed would be one line end. */
  predicate EndsApart(lines: seq<string>, ends: seq<string>)
    requires |lines| == |ends|
  {
    forall i | 0 <= i < |lines| - 1 && ends[i] == "\r" :: lines[i + 1] != "" || ends[i + 1] != "\n"
  }

  /** Every line end, whichever of the three it is, becomes one line feed; the lines stay. */
  lemma {:induction false} LineEndsNormalize(lines: seq<string>, ends: seq<string>)
    requires |lines| == |ends| && (forall i | 0 <= i < |lines| :: OneLine(lines[i]) && IsLineEnd(ends[i])) && EndsApart(lines, ends)
    ensures NormalizeLines(Ended(lines, ends)) == Ended(lines, Feeds(|lines|))
  {
    if lines != [] {
      var tail := Ended(lines[1..], ends[1..]);
      LineEndsNormalize(lines[1..], ends[1..]);
      assert Feeds(|lines|)[1..] == Feeds(|lines[1..]|);
      NormalizeAppend(lines[0], ends[0] + tail);
      NoCrToReplace(lines[0], "");
      if |lines| > 1 { assert tail == lines[1] + (ends[1] + Ended(lines[1..][1..], ends[1..][1..])); }
      OneLineEnd(ends[0], tail);
    }
  }

  lemma OneLineEnd(end: string, tail: string)
    requires IsLineEnd(end) && (end == "\r" ==> tail == "" || tail[0] != '\n')
    ensures NormalizeLines(end + tail) == "\n" + NormalizeLines(tail)
  {
    assert (end + tail)[|end|..] == tail;
    assert |end| == 2 ==> (end + tail)[1] == '\n';
  }

  lemma TrimOneBlank(s: string)
    requires s == "" || !IsBlank(s[0])
    ensures TrimStart(" " + s) == s
  {
    assert (" " + s)[1..] == s;
  }

  lemma EventTextShape(e: Event)
    requires Printable(e)
    ensures OneLine(EventText(e)) && EventText(e) != "" && EventText(e)[0] == '{'
  {
    PrintableJson(e);
    StringifyOneLine(EventJson(e));
    StringifyHead(EventJson(e));
  }

  /** A line of a block. */
  datatype Field = IdField(value: string) | DataField(value: string) | OtherLine(text: string)

  function FieldText(f: Field): string {
    match f
    case IdField(v) => "id: " + v
    case DataField(v) => "data: " + v
    case OtherLine(t) => t
  }

  predicate Plain(f: Field) {
    if f.OtherLine? then OneLine(f.text) && !("id:" <= f.text) && !("data:" <= f.text)
    else OneLine(f.value) && (f.value == "" || !IsBlank(f.value[0]))
  }

  function Texts(fs: seq<Field>): seq<string> {
    seq(|fs|, i requires 0 <= i < |fs| => FieldText(fs[i]))
  }

  /** The texts, with a line feed between each two. */
  function Joined(texts: seq<string>): string
    requires texts != []
  {
    var n := |texts| - 1;
    if n == 0 then texts[0] else Joined(texts[..n]) + "\n" + texts[n]
  }

  /** The last id field, if there is one. */
  ghost predicate IdIs(fs: seq<Field>, id: Option<string>) {
    match id
    case None => forall i | 0 <= i < |fs| :: !fs[i].IdField?
    case Some(x) => exists i | 0 <= i < |fs| :: fs[i] == IdField(x) && forall j | i < j < |fs| :: !fs[j].IdField?
  }

  /** All data fields, in order. */
  function DataValues(fs: seq<Field>): seq<string> {
    if fs == [] then []
    else DataValues(fs[..|fs| - 1]) + if fs[|fs| - 1].DataField? then [fs[|fs| - 1].value] else []
  }

  lemma {:induction false} JoinedFront(texts: seq<string>)
    requires |texts| > 1
    ensures Joined(texts) == texts[0] + "\n" + Joined(texts[1..])
  {
    var n := |texts| - 1;
    if n > 1 {
      JoinedFront(texts[..n]);
      assert texts[..n][1..] == texts[1..][..n - 1] && texts[1..][n - 1] == texts[n] && texts[..n][0] == texts[0];
    } else {
      assert texts[..n] == [texts[0]] && texts[1..] == [texts[1]];
    }
  }

  lemma {:induction false} JoinIsJoined(texts: seq<string>)
    requires texts != []
    ensures JoinLines(texts) == Joined(texts)
  {
    if |texts| > 1 {
      JoinIsJoined(texts[1..]);
      JoinedFront(texts);
    }
  }

  lemma FirstLine(line: string, rest: string)
    requires OneLine(line)
    ensures Lines(line) == [line] && Lines(line + "\n" + rest) == [line] + Lines(rest)
  {
    var s := line + "\n" + rest;
    assert LineEnd(s) == |line| by { assert s[|line|] == '\n'; }
    assert s[..|line|] == line && s[|line| + 1..] == rest;
    assert line[..|line|] == line;
  }

  lemma {:induction false} LinesOfJoined(texts: seq<string>)
    requires texts != [] && forall i | 0 <= i < |texts| :: OneLine(texts[i])
    ensures Lines(Joined(texts)) == texts && '\r' !in Joined(texts)
  {
    if |texts| == 1 {
      FirstLine(texts[0], "");
    } else {
      LinesOfJoined(texts[1..]);
      JoinedFront(texts);
      FirstLine(texts[0], Joined(texts[1..]));
    }
  }

  lemma FieldParses(f: Field)
    requires Plain(f)
    ensures var t := FieldText(f);
      && OneLine(t) && ("id:" <= t <==> f.IdField?) && ("data:" <= t <==> f.DataField?)
      && (f.IdField? ==> TrimStart(t[3..]) == f.value) && (f.DataField? ==> TrimStart(t[5..]) == f.value)
  {
    var t := FieldText(f);
    if f.IdField? {
      assert t[0] == 'i' && t[3..] == " " + f.value && t[..3] == "id:";
      TrimOneBlank(f.value);
    } else if f.DataField? {
      assert t[0] == 'd' && t[5..] == " " + f.value && t[..5] == "data:";
      TrimOneBlank(f.value);
    }
  }

  lemma {:induction false} FieldsParse(fs: seq<Field>)
    requires forall i | 0 <= i < |fs| :: Plain(fs[i])
    ensures IdIs(fs, LastId(Texts(fs))) && DataLines(Texts(fs)) == DataValues(fs)
  {
    if fs != [] {
      var n := |fs| - 1;
      FieldsParse(fs[..n]);
      assert Texts(fs)[..n] == Texts(fs[..n]) && Texts(fs)[n] == FieldText(fs[n]);
      FieldParses(fs[n]);
      hide Plain, FieldText;
      if !fs[n].IdField? {
        IdStays(fs, LastId(Texts(fs[..n])));
      }
    }
  }

  lemma IdStays(fs: seq<Field>, id: Option<string>)
    requires fs != [] && !fs[|fs| - 1].IdField? && IdIs(fs[..|fs| - 1], id)
    ensures IdIs(fs, id)
  {
    if id.Some? {
      var front := fs[..|fs| - 1];
      var i :| 0 <= i < |front| && front[i] == IdField(id.value) && forall j | i < j < |front| :: !front[j].IdField?;
      assert fs[i] == front[i] && forall j | i < j < |front| :: fs[j] == front[j];
    }
  }

  /** Whatever fields a block has, in whatever order: it is read as the last id and all the data,
      one line of data a field. */
  lemma BlockParses(fs: seq<Field>)
    requires fs != [] && forall i | 0 <= i < |fs| :: Plain(fs[i])
    ensures var parsed := ParseBlock(Joined(Texts(fs)));
      IdIs(fs, parsed.id) && parsed.data == if DataValues(fs) == [] then None else Some(Joined(DataValues(fs)))
  {
    forall i | 0 <= i < |fs| ensures OneLine(Texts(fs)[i]) {
      FieldParses(fs[i]);
    }
    LinesOfJoined(Texts(fs));
    NoCrToReplace(Joined(Texts(fs)), "");
    FieldsParse(fs);
    if DataValues(fs) != [] { JoinIsJoined(DataValues(fs)); }
    hide Plain, Joined, JoinLines, Lines, LastId, DataLines, IdIs, Texts;
  }

  /** What the client makes of a block: nothing without data; a failure if the data is no event;
      else the event, and it remembers the last id of the block, or the event's if there is none. */
  lemma BlockDelivers(r: Reading, fs: seq<Field>, parse: Parser)
    requires fs != [] && (forall i | 0 <= i < |fs| :: Plain(fs[i])) && !r.failed
    ensures var r' := Deliver(r, Joined(Texts(fs)), parse);
      if DataValues(fs) == [] || Joined(DataValues(fs)) == "" then r' == r
      else
        match parse(Joined(DataValues(fs)))
        case None => r' == Reading(r.events, r.latestId, true)
        case Some(e) => r'.events == r.events + [e] && !r'.failed && r'.latestId.Some? && forall id :: IdIs(fs, id) ==> r'.latestId.value == if id.Some? then id.value else e.eventId
  {
    BlockParses(fs);
    forall a, b | IdIs(fs, a) && IdIs(fs, b) ensures a == b {
      OneLastId(fs, a, b);
    }
    hide Plain, Joined, ParseBlock, IdIs, Texts;
  }

  lemma OneLastId(fs: seq<Field>, a: Option<string>, b: Option<string>)
    requires IdIs(fs, a) && IdIs(fs, b)
    ensures a == b
  {}

  /** The client's parser undoes the gateway's printer. */
  lemma ParsesBack(e: Event)
    requires Sendable(e)
    ensures ParseBlock(EventBlock(e)) == Parsed(Some(e.eventId), Some(EventText(e)))
  {
    EventTextShape(e);
    var fs := [IdField(e.eventId), OtherLine("event: " + e.kind), DataField(EventText(e))];
    assert fs[1].text[0] == 'e';
    BlockParses(fs);
    EventFields(fs);
    hide ParseBlock, Stringify;
  }

  lemma EventFields(fs: seq<Field>)
    requires |fs| == 3 && fs[0].IdField? && fs[1].OtherLine? && fs[2].DataField?
    ensures Joined(Texts(fs)) == FieldText(fs[0]) + "\n" + FieldText(fs[1]) + "\n" + FieldText(fs[2])
    ensures DataValues(fs) == [fs[2].value] && forall id :: IdIs(fs, id) ==> id == Some(fs[0].value)
  {
    assert Texts(fs)[..2] == [FieldText(fs[0]), FieldText(fs[1])] && Texts(fs)[..2][..1] == [FieldText(fs[0])];
    assert fs[..2] == [fs[0], fs[1]] && fs[..2][..1] == [fs[0]] && fs[..2][..1][..0] == [];
    assert DataValues(fs[..2][..1]) == DataValues(fs[..2][..1][..0]) == [];
    assert Joined([FieldText(fs[0])]) == FieldText(fs[0]);
  }

  lemma HeartbeatIsSilent()
    ensures ParseBlock(HEARTBEAT) == Parsed(None, None)
  {
    HeartbeatShape();
    hide HEARTBEAT;
    var fs := [OtherLine(HEARTBEAT)];
    BlockParses(fs);
    assert Texts(fs) == [HEARTBEAT] && fs[..0] == [];
    hide ParseBlock;
  }

  lemma HeartbeatShape()
    ensures OneLine(HEARTBEAT) && HEARTBEAT != "" && HEARTBEAT[0] == ':'
  {}

  // ---------------------------------------------------------------------------------
  // The round trip
  // ---------------------------------------------------------------------------------

  lemma {:induction false} CleanItems(items: seq<Item>)
    requires AllSendable(items)
    ensures Clean(ItemBlocks(items))
  {
    if items != [] {
      CleanItems(items[1..]);
      var blocks := ItemBlocks(items);
      if items[0].Sent? { CleanEvent(items[0].event); } else { CleanHeartbeat(); }
      forall k | 0 <= k < |blocks| ensures NoBoundary(blocks[k] + "\n") {
        if k > 0 { assert blocks[k] == ItemBlocks(items[1..])[k - 1]; }
      }
    }
  }

  lemma CleanHeartbeat()
    ensures NoBoundary(HEARTBEAT + "\n")
  {
    HeartbeatShape();
    hide HEARTBEAT;
  }

  lemma CleanLines(a: string, b: string, c: string)
    requires OneLine(a) && OneLine(b) && OneLine(c) && a != "" && b != "" && c != ""
    ensures NoBoundary(a + "\n" + b + "\n" + c + "\n")
  {
    var s := a + "\n" + b + "\n" + c + "\n";
    assert s[|a| + 1] == b[0] && s[|a| + 1 + |b| + 1] == c[0];
  }

  lemma CleanEvent(e: Event)
    requires Sendable(e)
    ensures NoBoundary(EventBlock(e) + "\n")
  {
    EventTextShape(e);
    CleanLines("id: " + e.eventId, "event: " + e.kind, "data: " + EventText(e));
  }

  /** `JSON.parse` undoes `JSON.stringify`. */
  ghost predicate InvertsPrinter(parse: Parser) {
    forall e: Event | Printable(e) :: parse(EventText(e)) == Some(e)
  }

  function TextOf(fields: seq<Member<Value>>, name: string): Option<string> {
    match MemberOf(fields, name) case Some(Str(s)) => Some(s) case _ => None
  }

  /** The event a JSON text describes: five texts and the data. */
  function ParseEvent(text: string): Option<Event> {
    match ReadAll(text)
    case Some(Obj(fs)) =>
      (match (TextOf(fs, "eventId"), TextOf(fs, "sessionId"), TextOf(fs, "occurredAt"), TextOf(fs, "type"), MemberOf(fs, "data"), TextOf(fs, "traceId"))
       case (Some(id), Some(session), Some(at), Some(kind), Some(data), Some(trace)) => Some(Event(id, session, at, kind, data, trace))
       case _ => None)
    case _ => None
  }

  /** Such a parser exists: one that reads JSON as RFC 8259 has it and takes the members by name. */
  lemma ParseEventInverts()
    ensures InvertsPrinter(ParseEvent)
  {
    forall e: Event | Printable(e) ensures ParseEvent(EventText(e)) == Some(e) {
      EventReadsBack(e);
    }
  }

  lemma EventReadsBack(e: Event)
    requires Printable(e)
    ensures ParseEvent(EventText(e)) == Some(e)
  {
    PrintableJson(e);
    ReadsBack(EventJson(e), "");
    assert EventText(e) + "" == EventText(e);
    var fs := EventJson(e).fields;
    forall i | 0 <= i < |fs| ensures MemberOf(fs, fs[i].key) == Some(fs[i].value) {
      MemberIsOf(fs, fs[i]);
    }
    hide Stringify, ReadValue, MemberOf;
    assert fs[0].key == "eventId" && fs[1].key == "sessionId" && fs[2].key == "occurredAt";
    assert fs[3].key == "type" && fs[4].key == "data" && fs[5].key == "traceId";
  }

  /** No parser is asked for the impossible: different events have different text. */
  lemma EventTextUnique(e: Event, f: Event)
    requires Printable(e) && Printable(f)
    ensures EventText(e) == EventText(f) <==> e == f
  {
    EventReadsBack(e);
    EventReadsBack(f);
  }

  lemma DeliversOne(r: Reading, item: Item, parse: Parser)
    requires (item.Sent? ==> Sendable(item.event)) && InvertsPrinter(parse) && !r.failed
    ensures Deliver(r, if item.Sent? then EventBlock(item.event) else HEARTBEAT, parse) ==
            if item.Sent? then Reading(r.events + [item.event], Some(item.event.eventId), false) else r
  {
    if item.Sent? {
      ParsesBack(item.event);
      EventTextShape(item.event);
    } else {
      HeartbeatIsSilent();
    }
  }

  lemma AppendEvent(events: seq<Event>, e: Event, more: seq<Event>)
    ensures events + [e] + more == events + ([e] + more)
  {}

  lemma {:induction false} DeliversItems(r: Reading, items: seq<Item>, parse: Parser)
    requires AllSendable(items) && InvertsPrinter(parse) && !r.failed
    ensures DeliverAll(r, ItemBlocks(items), parse) == Reading(r.events + Events(items), Latest(r.latestId, Events(items)), false)
    decreases |items|
  {
    hide Deliver, EventBlock, HEARTBEAT, InvertsPrinter, Sendable;
    if items != [] {
      var blocks := ItemBlocks(items);
      assert blocks[1..] == ItemBlocks(items[1..]);
      DeliversOne(r, items[0], parse);
      var next := Deliver(r, blocks[0], parse);
      DeliversItems(next, items[1..], parse);
      assert DeliverAll(r, blocks, parse) == DeliverAll(next, blocks[1..], parse);
      hide DeliverAll, ItemBlocks;
      if items[0].Sent? { AppendEvent(r.events, items[0].event, Events(items[1..])); }
    }
  }

  lemma SerializedHasNoCr(e: Event)
    requires Sendable(e)
    ensures '\r' !in SerializeSse(e)
  {
    EventTextShape(e);
  }

  lemma {:induction false} OneLineBlocks(items: seq<Item>)
    requires AllSendable(items)
    ensures '\r' !in Wire(items)
  {
    hide HEARTBEAT, SerializeSse, Sendable;
    if items != [] {
      OneLineBlocks(items[1..]);
      if items[0].Sent? { SerializedHasNoCr(items[0].event); } else { HeartbeatShape(); }
    }
  }

  /** Whatever is sent, heartbeats anywhere in between, and however the network cuts it up: the
      client gets exactly the events that were sent, in order, and the id of the last one. */
  lemma StreamRoundTrip(items: seq<Item>, chunks: seq<string>, lastEventId: Option<string>, parse: Parser)
    requires AllSendable(items) && InvertsPrinter(parse) && Flatten(chunks) == Wire(items)
    ensures Received(Flatten(chunks), lastEventId, parse) == Reading(Events(items), Latest(lastEventId, Events(items)), false)
  {
    WirePlain(items, Wire(items));
    WireBlocks(items);
    hide Wire, Blocks, ItemBlocks, InvertsPrinter, DeliverAll, Events, Latest;
    DeliversItems(Reading([], lastEventId, false), items, parse);
  }

  lemma {:induction false} ItemBlocksPrefix(items: seq<Item>, n: nat)
    requires AllSendable(items) && n <= |items|
    ensures ItemBlocks(items[..n]) == ItemBlocks(items)[..n]
  {
    if n > 0 {
      assert items[..n][1..] == items[1..][..n - 1] && items[..n][0] == items[0];
      ItemBlocksPrefix(items[1..], n - 1);
    }
  }

  lemma {:induction false} EventsPrefix(items: seq<Item>, n: nat)
    requires n <= |items|
    ensures Events(items[..n]) <= Events(items)
  {
    if n > 0 {
      assert items[..n][1..] == items[1..][..n - 1] && items[..n][0] == items[0];
      EventsPrefix(items[1..], n - 1);
    }
  }

  lemma WirePlain(items: seq<Item>, text: string)
    requires AllSendable(items) && text <= Wire(items)
    ensures NormalizeLines(DropCr(text)) == text
  {
    OneLineBlocks(items);
    hide Wire, AllSendable;
    assert '\r' !in text by { assert forall i | 0 <= i < |text| :: text[i] == Wire(items)[i]; }
    NoCrToReplace(text, "");
    assert DropCr(text) == text;
  }

  lemma WireBlocks(items: seq<Item>)
    requires AllSendable(items)
    ensures Blocks(Wire(items)) == ItemBlocks(items)
  {
    WireIsBlocks(items);
    CleanItems(items);
    hide Wire, AllSendable, ItemBlocks, Blocks, Rest;
    assert Terminated(ItemBlocks(items)) + "" == Terminated(ItemBlocks(items));
    BlocksOfTerminated(ItemBlocks(items), "");
  }

  /** A connection that breaks anywhere has delivered a prefix of the events, and remembers the
      id of the last one of them. */
  lemma BrokenStreamIsPrefix(items: seq<Item>, text: string, lastEventId: Option<string>, parse: Parser)
    requires AllSendable(items) && InvertsPrinter(parse) && text <= Wire(items)
    ensures var r := Received(text, lastEventId, parse);
      !r.failed && r.events <= Events(items) && r.latestId == Latest(lastEventId, r.events)
  {
    var n := |Blocks(text)|;
    WirePlain(items, text);
    WireBlocks(items);
    BlocksPrefix(text, Wire(items));
    hide Wire, Blocks, InvertsPrinter;
    ItemBlocksPrefix(items, n);
    EventsPrefix(items, n);
    hide ItemBlocks, Events, Latest, DeliverAll;
    DeliversItems(Reading([], lastEventId, false), items[..n], parse);
  }

  lemma BlocksPrefix(text: string, whole: string)
    requires text <= whole
    ensures |Blocks(text)| <= |Blocks(whole)| && Blocks(text) == Blocks(whole)[..|Blocks(text)|]
  {
    var more := whole[|text|..];
    assert text + more == whole;
    BlocksAppend(text, more);
    hide Blocks;
  }
}
