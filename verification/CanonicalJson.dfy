/**
 * Canonical JSON: the recursive printer behind every policy hash and evidence hash
 * (packages/contracts/src/index.ts) and the payment client's own copy of it
 * (packages/payment-client/src/policy-hash.ts).
 */
module CanonicalJson {
  import opened Wrappers

  /** One member of an object; `T` is a value, or a value's printed text. */
  datatype Member<T> = Member(key: string, value: T)

  /** A JavaScript value as the printers see it. Object members are kept in insertion order.
      A finite number is its shortest decimal text, a non-finite one has no text. */
  datatype Value =
    | Null
    | Undefined
    | Bool(b: bool)
    | Number(text: string)
    | NonFinite
    | Str(s: string)
    | Arr(items: seq<Value>)
    | Obj(fields: seq<Member<Value>>)

  predicate IsNumberChar(c: char) {
    '0' <= c <= '9' || c == '-' || c == '+' || c == '.' || c == 'e'
  }

  predicate IsNumberText(t: string) {
    && t != ""
    && (t[0] == '-' || '0' <= t[0] <= '9')
    && forall i | 0 <= i < |t| :: IsNumberChar(t[i])
  }

  ghost predicate DistinctKeys<T>(fs: seq<Member<T>>) {
    forall i, j | 0 <= i < j < |fs| :: fs[i].key != fs[j].key
  }

  /** Values that exist at run time: numbers have number text, object keys are distinct. */
  ghost predicate WellFormed(v: Value) {
    match v
    case Number(t) => IsNumberText(t)
    case Arr(items) => forall i | 0 <= i < |items| :: WellFormed(items[i])
    case Obj(fields) => DistinctKeys(fields) && forall i | 0 <= i < |fields| :: WellFormed(fields[i].value)
    case _ => true
  }

  /** No undefined and no non-finite number anywhere inside. */
  predicate Representable(v: Value) {
    match v
    case Undefined => false
    case NonFinite => false
    case Arr(items) => forall i | 0 <= i < |items| :: Representable(items[i])
    case Obj(fields) => forall i | 0 <= i < |fields| :: Representable(fields[i].value)
    case _ => true
  }

  // ---------------------------------------------------------------------------------
  // Strings: escaping of section 7 of RFC 8259 as JSON.stringify does it
  // ---------------------------------------------------------------------------------

  function HexDigit(n: nat): (c: char)
    requires n < 16
  {
    if n < 10 then '0' + n as char else 'a' + (n - 10) as char
  }

  function EscapeChar(c: char): string {
    if c == '"' then "\\\""
    else if c == '\\' then "\\\\"
    else if c as int == 8 then "\\b"
    else if c as int == 9 then "\\t"
    else if c as int == 10 then "\\n"
    else if c as int == 12 then "\\f"
    else if c as int == 13 then "\\r"
    else if c as int < 32 then ['\\', 'u', '0', '0', HexDigit(c as int / 16), HexDigit(c as int % 16)]
    else [c]
  }

  function Escape(s: string): string {
    if s == "" then "" else EscapeChar(s[0]) + Escape(s[1..])
  }

  function Quote(s: string): string {
    "\"" + Escape(s) + "\""
  }

  // ---------------------------------------------------------------------------------
  // Key order of Array.prototype.sort: UTF-16 code units
  // ---------------------------------------------------------------------------------

  /** Orders characters as their UTF-16 encodings are ordered: a surrogate pair sorts
      after U+D7FF and before U+E000. */
  function Utf16Rank(c: char): int {
    var n := c as int;
    if n >= 0x10000 then n - 0x10000 + 0xD800
    else if n >= 0xE000 then n + 0x100000
    else n
  }

  predicate KeyLess(a: string, b: string) {
    && b != ""
    && (a == ""
        || Utf16Rank(a[0]) < Utf16Rank(b[0])
        || (a[0] == b[0] && KeyLess(a[1..], b[1..])))
  }

  function InsertMember<T>(m: Member<T>, ms: seq<Member<T>>): seq<Member<T>> {
    if ms == [] then [m]
    else if KeyLess(ms[0].key, m.key) then [ms[0]] + InsertMember(m, ms[1..])
    else [m] + ms
  }

  function SortMembers<T>(ms: seq<Member<T>>): seq<Member<T>> {
    if ms == [] then [] else InsertMember(ms[0], SortMembers(ms[1..]))
  }

  // ---------------------------------------------------------------------------------
  // The printers
  // ---------------------------------------------------------------------------------

  /** `texts.join(",")` */
  function Join(texts: seq<string>): string {
    if |texts| == 0 then ""
    else if |texts| == 1 then texts[0]
    else texts[0] + "," + Join(texts[1..])
  }

  function Render(ms: seq<Member<string>>): seq<string> {
    if ms == [] then [] else [Quote(ms[0].key) + ":" + ms[0].value] + Render(ms[1..])
  }

  /** The gateway's `canonicalize`; None stands for the TypeError it throws. */
  function Canonicalize(v: Value): Option<string>
    decreases v
  {
    match v
    case Null => Some("null")
    case Undefined => None
    case Bool(b) => Some(if b then "true" else "false")
    case Number(t) => Some(t)
    case NonFinite => None
    case Str(s) => Some(Quote(s))
    case Arr(items) =>
      (match CanonicalizeItems(items)
       case None => None
       case Some(ts) => Some("[" + Join(ts) + "]"))
    case Obj(fields) =>
      (match CanonicalizeFields(fields)
       case None => None
       case Some(ms) => Some("{" + Join(Render(SortMembers(ms))) + "}"))
  }

  function CanonicalizeItems(items: seq<Value>): Option<seq<string>>
    decreases items
  {
    if items == [] then Some([])
    else
      match (Canonicalize(items[0]), CanonicalizeItems(items[1..]))
      case (Some(t), Some(ts)) => Some([t] + ts)
      case _ => None
  }

  function CanonicalizeFields(fields: seq<Member<Value>>): Option<seq<Member<string>>>
    decreases fields
  {
    if fields == [] then Some([])
    else
      match (Canonicalize(fields[0].value), CanonicalizeFields(fields[1..]))
      case (Some(t), Some(ms)) => Some([Member(fields[0].key, t)] + ms)
      case _ => None
  }

  /** `JSON.stringify` on a representable value: members in insertion order. */
  function Stringify(v: Value): string
    requires Representable(v)
    decreases v
  {
    match v
    case Null => "null"
    case Bool(b) => if b then "true" else "false"
    case Number(t) => t
    case Str(s) => Quote(s)
    case Arr(items) => "[" + Join(StringifyItems(items)) + "]"
    case Obj(fields) => "{" + Join(Render(StringifyFields(fields))) + "}"
  }

  function StringifyItems(items: seq<Value>): (ts: seq<string>)
    requires forall i | 0 <= i < |items| :: Representable(items[i])
    decreases items
  {
    if items == [] then [] else [Stringify(items[0])] + StringifyItems(items[1..])
  }

  function StringifyFields(fields: seq<Member<Value>>): (ms: seq<Member<string>>)
    requires forall i | 0 <= i < |fields| :: Representable(fields[i].value)
    decreases fields
  {
    if fields == [] then []
    else [Member(fields[0].key, Stringify(fields[0].value))] + StringifyFields(fields[1..])
  }

  // ---------------------------------------------------------------------------------
  // A reader of JSON text, from RFC 8259 alone; None stands for text that is no JSON. It does not
  // read blanks between tokens (section 2) and surrogate pairs written as two escapes (section 7).
  // ---------------------------------------------------------------------------------

  function HexValue(c: char): Option<nat> {
    if '0' <= c <= '9' then Some(c as int - '0' as int)
    else if 'a' <= c <= 'f' then Some(c as int - 'a' as int + 10)
    else if 'A' <= c <= 'F' then Some(c as int - 'A' as int + 10)
    else None
  }

  /** The two-character escapes, by their second character. */
  function ShortEscape(c: char): Option<char> {
    match c
    case '"' => Some('"')
    case '\\' => Some('\\')
    case '/' => Some('/')
    case 'b' => Some(0x08 as char)
    case 'f' => Some(0x0C as char)
    case 'n' => Some(0x0A as char)
    case 'r' => Some(0x0D as char)
    case 't' => Some(0x09 as char)
    case _ => None
  }

  /** The character whose code is four hexadecimal digits. */
  function HexEscape(t: string): Option<char>
    requires |t| == 4
  {
    match (HexValue(t[0]), HexValue(t[1]), HexValue(t[2]), HexValue(t[3]))
    case (Some(a), Some(b), Some(c), Some(d)) =>
      var code := 0x1000 * a + 0x100 * b + 0x10 * c + d;
      if code < 0xD800 || 0xE000 <= code < 0x10000 then Some(code as char) else None
    case _ => None
  }

  /** What has been read, and the text that is left. */
  datatype Read<T> = Read(value: T, rest: string)

  /** Sections 8 and 9 of the text after an opening quotation mark: characters up to the closing one. */
  function ReadChars(t: string): (r: Option<Read<string>>)
    ensures r.Some? ==> |r.value.rest| < |t|
    decreases |t|
  {
    if t == "" || t[0] as int < 0x20 then None
    else if t[0] == '"' then Some(Read("", t[1..]))
    else if t[0] != '\\' then Prepend(t[0], ReadChars(t[1..]))
    else if |t| >= 2 && ShortEscape(t[1]).Some? then Prepend(ShortEscape(t[1]).value, ReadChars(t[2..]))
    else if |t| >= 6 && t[1] == 'u' && HexEscape(t[2..6]).Some? then Prepend(HexEscape(t[2..6]).value, ReadChars(t[6..]))
    else None
  }

  function Prepend(c: char, r: Option<Read<string>>): Option<Read<string>> {
    match r case Some(Read(s, rest)) => Some(Read([c] + s, rest)) case None => None
  }

  /** The number characters at the front. */
  function NumberLength(t: string): (n: nat)
    ensures n <= |t|
  {
    if t != "" && IsNumberChar(t[0]) then 1 + NumberLength(t[1..]) else 0
  }

  function ReadWord(t: string, word: string, v: Value): (r: Option<Read<Value>>)
    requires word != ""
    ensures r.Some? ==> |r.value.rest| < |t|
  {
    if |t| >= |word| && t[..|word|] == word then Some(Read(v, t[|word|..])) else None
  }

  function ReadNumber(t: string): (r: Option<Read<Value>>)
    ensures r.Some? ==> |r.value.rest| < |t|
  {
    var n := NumberLength(t);
    if IsNumberText(t[..n]) then Some(Read(Number(t[..n]), t[n..])) else None
  }

  function ReadString(t: string): (r: Option<Read<string>>)
    ensures r.Some? ==> |r.value.rest| < |t|
  {
    if Next(t) == Some('"') then ReadChars(t[1..]) else None
  }

  function Next(t: string): (c: Option<char>)
    ensures c.Some? ==> t != ""
  {
    if t == "" then None else Some(t[0])
  }

  function ReadValue(t: string): (r: Option<Read<Value>>)
    ensures r.Some? ==> |r.value.rest| < |t|
    decreases |t|, 0
  {
    match Next(t)
    case None => None
    case Some('n') => ReadWord(t, "null", Null)
    case Some('t') => ReadWord(t, "true", Bool(true))
    case Some('f') => ReadWord(t, "false", Bool(false))
    case Some('"') => (match ReadString(t) case Some(Read(s, rest)) => Some(Read(Str(s), rest)) case None => None)
    case Some('[') =>
      if Next(t[1..]) == Some(']') then Some(Read(Arr([]), t[2..]))
      else (match ReadItems(t[1..]) case Some(Read(items, rest)) => Some(Read(Arr(items), rest)) case None => None)
    case Some('{') =>
      if Next(t[1..]) == Some('}') then Some(Read(Obj([]), t[2..]))
      else (match ReadMembers(t[1..]) case Some(Read(fields, rest)) => Some(Read(Obj(fields), rest)) case None => None)
    case _ => ReadNumber(t)
  }

  /** Values separated by commas, up to the closing bracket. */
  function ReadItems(t: string): (r: Option<Read<seq<Value>>>)
    ensures r.Some? ==> |r.value.rest| < |t|
    decreases |t|, 1
  {
    match ReadValue(t)
    case None => None
    case Some(Read(v, rest)) =>
      match Next(rest)
      case Some(']') => Some(Read([v], rest[1..]))
      case Some(',') => (match ReadItems(rest[1..]) case Some(Read(vs, end)) => Some(Read([v] + vs, end)) case None => None)
      case _ => None
  }

  function ReadMember(t: string): (r: Option<Read<Member<Value>>>)
    ensures r.Some? ==> |r.value.rest| < |t|
    decreases |t|, 1
  {
    match ReadString(t)
    case None => None
    case Some(Read(key, rest)) =>
      if Next(rest) != Some(':') then None
      else match ReadValue(rest[1..]) case Some(Read(v, end)) => Some(Read(Member(key, v), end)) case None => None
  }

  function ReadMembers(t: string): (r: Option<Read<seq<Member<Value>>>>)
    ensures r.Some? ==> |r.value.rest| < |t|
    decreases |t|, 2
  {
    match ReadMember(t)
    case None => None
    case Some(Read(m, rest)) =>
      match Next(rest)
      case Some('}') => Some(Read([m], rest[1..]))
      case Some(',') => (match ReadMembers(rest[1..]) case Some(Read(ms, end)) => Some(Read([m] + ms, end)) case None => None)
      case _ => None
  }

  /** A text that is one value. */
  function ReadAll(t: string): Option<Value> {
    match ReadValue(t) case Some(Read(v, rest)) => (if rest == "" then Some(v) else None) case None => None
  }

  /** The value of the first member of that name. */
  function MemberOf(fields: seq<Member<Value>>, name: string): Option<Value> {
    if fields == [] then None else if fields[0].key == name then Some(fields[0].value) else MemberOf(fields[1..], name)
  }

  lemma {:induction false} MemberIsOf(fields: seq<Member<Value>>, m: Member<Value>)
    requires DistinctKeys(fields) && m in fields
    ensures MemberOf(fields, m.key) == Some(m.value)
  {
    if fields[0] != m {
      assert m in fields[1..];
      var i :| 1 <= i < |fields| && fields[i] == m;
      assert fields[0].key != fields[i].key;
      MemberIsOf(fields[1..], m);
    }
  }

  // ---------------------------------------------------------------------------------
  // Whatever is printed is read back
  // ---------------------------------------------------------------------------------

  lemma ReadsPlain(c: char, x: string)
    requires c as int >= 0x20 && c != '"' && c != '\\'
    ensures ReadChars([c] + x) == Prepend(c, ReadChars(x))
  {
    assert ([c] + x)[1..] == x;
  }

  lemma ReadsShort(d: char, x: string)
    requires ShortEscape(d).Some?
    ensures ReadChars(['\\', d] + x) == Prepend(ShortEscape(d).value, ReadChars(x))
  {
    assert (['\\', d] + x)[2..] == x;
  }

  lemma ReadsHex(h: string, x: string)
    requires |h| == 4 && HexEscape(h).Some?
    ensures ReadChars(['\\', 'u'] + h + x) == Prepend(HexEscape(h).value, ReadChars(x))
  {
    var t := ['\\', 'u'] + h + x;
    assert t[2..6] == h && t[6..] == x;
    hide HexEscape;
  }

  lemma ReadsChar(c: char, x: string)
    ensures ReadChars(EscapeChar(c) + x) == Prepend(c, ReadChars(x))
  {
    hide ReadChars, Prepend;
    var e := EscapeChar(c);
    if |e| == 1 {
      ReadsPlain(c, x);
    } else if |e| == 2 {
      assert e == ['\\', e[1]];
      ReadsShort(e[1], x);
    } else {
      var h := ['0', '0', HexDigit(c as int / 16), HexDigit(c as int % 16)];
      assert e == ['\\', 'u'] + h;
      HexReads(c);
      ReadsHex(h, x);
    }
  }

  lemma HexReads(c: char)
    requires c as int < 32
    ensures HexEscape(['0', '0', HexDigit(c as int / 16), HexDigit(c as int % 16)]) == Some(c)
  {
    DigitReads(c as int / 16);
    DigitReads(c as int % 16);
    assert HexValue('0') == Some(0);
  }

  lemma DigitReads(n: nat)
    requires n < 16
    ensures HexValue(HexDigit(n)) == Some(n)
  {}

  lemma ReadsEnd(x: string)
    ensures ReadChars("\"" + x) == Some(Read("", x))
  {
    assert ("\"" + x)[1..] == x;
  }

  lemma {:induction false} ReadsChars(s: string, x: string)
    ensures ReadChars(Escape(s) + ("\"" + x)) == Some(Read(s, x))
  {
    hide ReadChars, EscapeChar;
    if s == "" {
      ReadsEnd(x);
      assert Escape(s) + ("\"" + x) == "\"" + x;
    } else {
      ReadsChars(s[1..], x);
      ReadsChar(s[0], Escape(s[1..]) + ("\"" + x));
      assert Escape(s) + ("\"" + x) == EscapeChar(s[0]) + (Escape(s[1..]) + ("\"" + x));
      assert s == [s[0]] + s[1..];
    }
  }

  /** A quoted string is read back as the string, and nothing more is read. */
  lemma ReadsQuote(s: string, x: string)
    ensures ReadString(Quote(s) + x) == Some(Read(s, x))
  {
    var t := Quote(s) + x;
    assert t[0] == '"' && t[1..] == Escape(s) + ("\"" + x);
    ReadsChars(s, x);
    hide ReadChars, Quote;
  }

  lemma QuoteUnique(s: string, t: string, x: string, y: string)
    requires Quote(s) + x == Quote(t) + y
    ensures s == t && x == y
  {
    ReadsQuote(s, x);
    ReadsQuote(t, y);
  }

  /** What can follow a printed value: nothing, a comma, or a closing bracket. */
  predicate Delimited(r: string) {
    r == "" || r[0] == ',' || r[0] == ']' || r[0] == '}'
  }

  lemma {:induction false} NumberEnds(t: string, r: string)
    requires Delimited(r) && forall i | 0 <= i < |t| :: IsNumberChar(t[i])
    ensures NumberLength(t + r) == |t|
  {
    if t == "" {
      assert t + r == r;
    } else {
      NumberEnds(t[1..], r);
      assert (t + r)[1..] == t[1..] + r;
    }
  }

  lemma ReadsNumber(t: string, r: string)
    requires IsNumberText(t) && Delimited(r)
    ensures ReadNumber(t + r) == Some(Read(Number(t), r)) && Next(t + r) == Some(t[0])
  {
    NumberEnds(t, r);
    assert (t + r)[..|t|] == t && (t + r)[|t|..] == r && (t + r)[0] == t[0];
  }

  lemma ReadsWord(word: string, v: Value, r: string)
    requires word != ""
    ensures ReadWord(word + r, word, v) == Some(Read(v, r)) && Next(word + r) == Some(word[0])
  {}

  /** The first character tells the kinds of value apart. */
  lemma StringifyHead(v: Value)
    requires WellFormed(v) && Representable(v)
    ensures var t := Stringify(v);
      && t != "" && !Delimited(t)
      && (v.Str? <==> t[0] == '"') && (v.Arr? <==> t[0] == '[') && (v.Obj? <==> t[0] == '{')
      && (v.Null? <==> t[0] == 'n') && (v == Bool(true) <==> t[0] == 't') && (v == Bool(false) <==> t[0] == 'f')
  {}

  /** The printed text of a value denotes that value: read as JSON it yields the value, and
      leaves what follows alone. */
  lemma {:induction false} ReadsBack(v: Value, r: string)
    requires WellFormed(v) && Representable(v) && Delimited(r)
    ensures ReadValue(Stringify(v) + r) == Some(Read(v, r))
    decreases v
  {
    StringifyHead(v);
    assert (Stringify(v) + r)[0] == Stringify(v)[0];
    match v {
      case Null => ReadsWord("null", v, r);
      case Bool(b) => ReadsWord(if b then "true" else "false", v, r);
      case Number(t) => ReadsNumber(t, r);
      case Str(s) => ReadsQuote(s, r);
      case Arr(items) => ReadsArray(items, r);
      case Obj(fields) => ReadsObject(fields, r);
    }
    hide ReadWord, ReadNumber, ReadString, ReadItems, ReadMembers;
  }

  lemma Opened(open: string, body: string, close: string, r: string)
    requires |open| == 1 && |close| == 1
    ensures var t := open + body + close + r;
      Next(t) == Some(open[0]) && t[1..] == body + close + r && Next(t[1..]) == Some((body + close)[0]) && (body == "" ==> t[2..] == r)
  {}

  lemma ArrayStep(t: string)
    requires Next(t) == Some('[') && Next(t[1..]) != Some(']')
    ensures ReadValue(t) == match ReadItems(t[1..]) case Some(Read(items, rest)) => Some(Read(Arr(items), rest)) case None => None
  {
    hide ReadItems;
  }

  lemma ObjectStep(t: string)
    requires Next(t) == Some('{') && Next(t[1..]) != Some('}')
    ensures ReadValue(t) == match ReadMembers(t[1..]) case Some(Read(fields, rest)) => Some(Read(Obj(fields), rest)) case None => None
  {
    hide ReadMembers;
  }

  lemma {:induction false} ReadsArray(items: seq<Value>, r: string)
    requires Delimited(r) && forall i | 0 <= i < |items| :: WellFormed(items[i]) && Representable(items[i])
    ensures ReadValue("[" + Join(StringifyItems(items)) + "]" + r) == Some(Read(Arr(items), r))
    decreases items, 2
  {
    var body := Join(StringifyItems(items));
    Opened("[", body, "]", r);
    if items != [] {
      StringifyHead(items[0]);
      JoinHead(StringifyItems(items));
      hide ReadValue;
      ReadsItems(items, r);
      ArrayStep("[" + body + "]" + r);
    }
    hide Next, ReadItems, Join, StringifyItems;
  }

  lemma JoinHead(texts: seq<string>)
    requires texts != [] && texts[0] != ""
    ensures Join(texts) != "" && Join(texts)[0] == texts[0][0]
  {}

  /** What follows the first of the joined texts. */
  function AfterFirst(texts: seq<string>, close: string, r: string): string
    requires texts != []
  {
    if |texts| == 1 then close + r else "," + (Join(texts[1..]) + close + r)
  }

  lemma JoinSplit(texts: seq<string>, close: string, r: string)
    requires texts != []
    ensures Join(texts) + close + r == texts[0] + AfterFirst(texts, close, r)
  {}

  lemma FollowsFirst(texts: seq<string>, close: string, r: string)
    requires texts != [] && (close == "]" || close == "}")
    ensures var rest := AfterFirst(texts, close, r);
      && Delimited(rest) && rest != ""
      && (if |texts| == 1 then rest[0] == close[0] && rest[1..] == r else rest[0] == ',' && rest[1..] == Join(texts[1..]) + close + r)
  {}

  lemma ItemsStep(t: string, v: Value, rest: string)
    requires ReadValue(t) == Some(Read(v, rest)) && rest != ""
    ensures rest[0] == ']' ==> ReadItems(t) == Some(Read([v], rest[1..]))
    ensures rest[0] == ',' ==>
      ReadItems(t) == match ReadItems(rest[1..]) case Some(Read(vs, end)) => Some(Read([v] + vs, end)) case None => None
  {
    hide ReadValue;
  }

  lemma MembersStep(t: string, m: Member<Value>, rest: string)
    requires ReadMember(t) == Some(Read(m, rest)) && rest != ""
    ensures rest[0] == '}' ==> ReadMembers(t) == Some(Read([m], rest[1..]))
    ensures rest[0] == ',' ==>
      ReadMembers(t) == match ReadMembers(rest[1..]) case Some(Read(ms, end)) => Some(Read([m] + ms, end)) case None => None
  {
    hide ReadMember;
  }

  lemma {:induction false} ReadsItems(items: seq<Value>, r: string)
    requires items != [] && Delimited(r) && forall i | 0 <= i < |items| :: WellFormed(items[i]) && Representable(items[i])
    ensures ReadItems(Join(StringifyItems(items)) + "]" + r) == Some(Read(items, r))
    decreases items, 1
  {
    hide ReadItems, ReadValue, Join, AfterFirst;
    var texts := StringifyItems(items);
    JoinSplit(texts, "]", r);
    FollowsFirst(texts, "]", r);
    ReadsBack(items[0], AfterFirst(texts, "]", r));
    ItemsStep(Join(texts) + "]" + r, items[0], AfterFirst(texts, "]", r));
    assert texts[0] == Stringify(items[0]) && texts[1..] == StringifyItems(items[1..]);
    if |items| == 1 {
      assert items == [items[0]];
    } else {
      ReadsItems(items[1..], r);
      assert items == [items[0]] + items[1..];
    }
  }

  lemma {:induction false} ReadsObject(fields: seq<Member<Value>>, r: string)
    requires Delimited(r) && forall i | 0 <= i < |fields| :: WellFormed(fields[i].value) && Representable(fields[i].value)
    ensures ReadValue("{" + Join(Render(StringifyFields(fields))) + "}" + r) == Some(Read(Obj(fields), r))
    decreases fields, 2
  {
    var body := Join(Render(StringifyFields(fields)));
    Opened("{", body, "}", r);
    if fields != [] {
      JoinHead(Render(StringifyFields(fields)));
      hide ReadValue;
      ReadsMembers(fields, r);
      ObjectStep("{" + body + "}" + r);
    }
    hide Next, ReadMembers, Join;
  }

  lemma MemberSplit(name: string, v: string, r: string)
    ensures (name + ":" + v) + r == name + (":" + (v + r)) && (":" + (v + r))[1..] == v + r
  {}

  lemma {:induction false} ReadsField(f: Member<Value>, r: string)
    requires WellFormed(f.value) && Representable(f.value) && Delimited(r)
    ensures ReadMember((Quote(f.key) + ":" + Stringify(f.value)) + r) == Some(Read(f, r))
    decreases f, 0
  {
    MemberSplit(Quote(f.key), Stringify(f.value), r);
    ReadsQuote(f.key, ":" + (Stringify(f.value) + r));
    ReadsBack(f.value, r);
    hide ReadValue, ReadString, Quote, Stringify;
  }

  lemma {:induction false} ReadsMembers(fields: seq<Member<Value>>, r: string)
    requires fields != [] && Delimited(r) && forall i | 0 <= i < |fields| :: WellFormed(fields[i].value) && Representable(fields[i].value)
    ensures ReadMembers(Join(Render(StringifyFields(fields))) + "}" + r) == Some(Read(fields, r))
    decreases fields, 1
  {
    hide ReadMembers, ReadMember, Join, AfterFirst, Quote;
    var texts := Render(StringifyFields(fields));
    JoinSplit(texts, "}", r);
    FollowsFirst(texts, "}", r);
    ReadsField(fields[0], AfterFirst(texts, "}", r));
    MembersStep(Join(texts) + "}" + r, fields[0], AfterFirst(texts, "}", r));
    assert texts[0] == Quote(fields[0].key) + ":" + Stringify(fields[0].value) && texts[1..] == Render(StringifyFields(fields[1..]));
    if |fields| == 1 {
      assert fields == [fields[0]];
    } else {
      ReadsMembers(fields[1..], r);
      assert fields == [fields[0]] + fields[1..];
    }
  }

  /** Hence printed text followed by a delimiter can be read in one way only. */
  lemma StringifyUnique(a: Value, b: Value, r: string, s: string)
    requires WellFormed(a) && Representable(a) && WellFormed(b) && Representable(b)
    requires Delimited(r) && Delimited(s)
    requires Stringify(a) + r == Stringify(b) + s
    ensures a == b && r == s
  {
    ReadsBack(a, r);
    ReadsBack(b, s);
  }

  // ---------------------------------------------------------------------------------
  // Sorting members by key
  // ---------------------------------------------------------------------------------

  ghost predicate StrictlySorted(ms: seq<Member<Value>>) {
    forall i, j | 0 <= i < j < |ms| :: KeyLess(ms[i].key, ms[j].key)
  }

  lemma {:induction false} KeyLessAsymmetric(a: string, b: string)
    requires KeyLess(a, b)
    ensures a != b && !KeyLess(b, a)
  {
    if a != "" && a[0] == b[0] { KeyLessAsymmetric(a[1..], b[1..]); }
  }

  lemma {:induction false} KeyLessTransitive(a: string, b: string, c: string)
    requires KeyLess(a, b) && KeyLess(b, c)
    ensures KeyLess(a, c)
  {
    if a != "" && a[0] == b[0] == c[0] { KeyLessTransitive(a[1..], b[1..], c[1..]); }
  }

  lemma {:induction false} KeyLessTotal(a: string, b: string)
    ensures KeyLess(a, b) || a == b || KeyLess(b, a)
  {
    if a != "" && b != "" && a[0] == b[0] {
      KeyLessTotal(a[1..], b[1..]);
      assert a == [a[0]] + a[1..] && b == [b[0]] + b[1..];
    }
  }

  /** UTF-16: a character beyond the 16-bit range is a pair of surrogates (RFC 2781, section 2.1). */
  function Units(c: char): seq<nat> {
    var n := c as int;
    if n < 0x10000 then [n] else [0xD800 + (n - 0x10000) / 0x400, 0xDC00 + (n - 0x10000) % 0x400]
  }

  function CodeUnits(s: string): seq<nat> {
    if s == "" then [] else Units(s[0]) + CodeUnits(s[1..])
  }

  predicate UnitsLess(a: seq<nat>, b: seq<nat>) {
    b != [] && (a == [] || a[0] < b[0] || (a[0] == b[0] && UnitsLess(a[1..], b[1..])))
  }

  /** Keys are ordered as their UTF-16 code units are. */
  lemma {:induction false} KeyOrderIsUtf16(a: string, b: string)
    ensures KeyLess(a, b) <==> UnitsLess(CodeUnits(a), CodeUnits(b))
  {
    if a != "" && b != "" {
      var x, y := Units(a[0]), Units(b[0]);
      if a[0] == b[0] {
        KeyOrderIsUtf16(a[1..], b[1..]);
        assert x == y;
        CommonUnits(x, CodeUnits(a[1..]), CodeUnits(b[1..]));
      } else {
        FirstUnits(a[0], b[0], x, y);
      }
    }
  }

  lemma {:induction false} CommonUnits(x: seq<nat>, a: seq<nat>, b: seq<nat>)
    ensures UnitsLess(x + a, x + b) <==> UnitsLess(a, b)
  {
    if x == [] {
      assert x + a == a && x + b == b;
    } else {
      CommonUnits(x[1..], a, b);
      assert (x + a)[1..] == x[1..] + a && (x + b)[1..] == x[1..] + b;
    }
  }

  lemma FirstUnits(c: char, d: char, x: seq<nat>, y: seq<nat>)
    requires c != d && x == Units(c) && y == Units(d)
    ensures forall a, b :: UnitsLess(x + a, y + b) <==> Utf16Rank(c) < Utf16Rank(d)
  {}

  lemma {:induction false} InsertMemberSorts(m: Member<Value>, ms: seq<Member<Value>>)
    requires StrictlySorted(ms)
    requires forall i | 0 <= i < |ms| :: ms[i].key != m.key
    ensures StrictlySorted(InsertMember(m, ms))
    ensures forall x :: x in InsertMember(m, ms) <==> x == m || x in ms
  {
    if ms != [] {
      if KeyLess(ms[0].key, m.key) {
        InsertMemberSorts(m, ms[1..]);
        var tail := InsertMember(m, ms[1..]);
        forall i | 0 <= i < |tail| ensures KeyLess(ms[0].key, tail[i].key) {
          assert tail[i] in tail;
          assert tail[i] == m || tail[i] in ms[1..];
        }
      } else {
        KeyLessTotal(ms[0].key, m.key);
        forall i | 0 <= i < |ms| ensures KeyLess(m.key, ms[i].key) {
          if i > 0 { KeyLessTransitive(m.key, ms[0].key, ms[i].key); }
        }
      }
    }
  }

  lemma {:induction false} SortMembersSorts(ms: seq<Member<Value>>)
    requires DistinctKeys(ms)
    ensures StrictlySorted(SortMembers(ms))
    ensures forall x :: x in SortMembers(ms) <==> x in ms
  {
    if ms != [] {
      SortMembersSorts(ms[1..]);
      var tail := SortMembers(ms[1..]);
      forall i | 0 <= i < |tail| ensures tail[i].key != ms[0].key {
        assert tail[i] in tail;
        assert tail[i] in ms[1..];
      }
      InsertMemberSorts(ms[0], tail);
    }
  }

  /** Two strictly sorted lists with the same members are the same list. */
  lemma {:induction false} SortedUnique(xs: seq<Member<Value>>, ys: seq<Member<Value>>)
    requires StrictlySorted(xs) && StrictlySorted(ys)
    requires forall m :: m in xs <==> m in ys
    ensures xs == ys
  {
    assert xs != [] ==> xs[0] in ys;
    assert ys != [] ==> ys[0] in xs;
    if xs != [] && ys != [] {
      if xs[0] != ys[0] {
        KeyLessAsymmetric(xs[0].key, ys[0].key);
      }
      SortedTail(xs);
      SortedTail(ys);
      forall m ensures m in xs[1..] <==> m in ys[1..] {
        assert m in xs <==> m in ys;
      }
      SortedUnique(xs[1..], ys[1..]);
      assert xs == [xs[0]] + xs[1..] && ys == [ys[0]] + ys[1..];
    }
  }

  lemma SortedTail(xs: seq<Member<Value>>)
    requires xs != [] && StrictlySorted(xs)
    ensures forall m :: m in xs[1..] <==> m in xs && m != xs[0]
  {
    forall i | 0 < i < |xs| ensures xs[i] != xs[0] {
      KeyLessAsymmetric(xs[0].key, xs[i].key);
    }
  }

  // ---------------------------------------------------------------------------------
  // canonicalize prints the recursively sorted value
  // ---------------------------------------------------------------------------------

  function Normalize(v: Value): Value
    decreases v
  {
    match v
    case Arr(items) => Arr(NormalizeItems(items))
    case Obj(fields) => Obj(SortMembers(NormalizeFields(fields)))
    case _ => v
  }

  function NormalizeItems(items: seq<Value>): (r: seq<Value>)
    ensures |r| == |items| && forall i | 0 <= i < |r| :: r[i] == Normalize(items[i])
    decreases items
  {
    if items == [] then [] else [Normalize(items[0])] + NormalizeItems(items[1..])
  }

  function NormalizeFields(fields: seq<Member<Value>>): (r: seq<Member<Value>>)
    ensures |r| == |fields|
    ensures forall i | 0 <= i < |r| :: r[i] == Member(fields[i].key, Normalize(fields[i].value))
    decreases fields
  {
    if fields == [] then []
    else [Member(fields[0].key, Normalize(fields[0].value))] + NormalizeFields(fields[1..])
  }

  lemma {:induction false} NormalizeKeeps(v: Value)
    requires WellFormed(v) && Representable(v)
    ensures WellFormed(Normalize(v)) && Representable(Normalize(v))
    decreases v
  {
    match v {
      case Arr(items) =>
        forall i | 0 <= i < |items| ensures WellFormed(Normalize(items[i])) && Representable(Normalize(items[i])) {
          NormalizeKeeps(items[i]);
        }
      case Obj(fields) =>
        var fs := NormalizeFields(fields);
        forall i | 0 <= i < |fs| ensures WellFormed(fs[i].value) && Representable(fs[i].value) {
          NormalizeKeeps(fields[i].value);
        }
        SortMembersSorts(fs);
        SortedKeeps(fs);
      case _ =>
    }
  }

  lemma SortedKeeps(fs: seq<Member<Value>>)
    requires DistinctKeys(fs)
    requires forall i | 0 <= i < |fs| :: WellFormed(fs[i].value) && Representable(fs[i].value)
    ensures WellFormed(Obj(SortMembers(fs))) && Representable(Obj(SortMembers(fs)))
  {
    SortMembersSorts(fs);
    var ss := SortMembers(fs);
    forall i | 0 <= i < |ss| ensures WellFormed(ss[i].value) && Representable(ss[i].value) {
      assert ss[i] in fs;
    }
    SortedIsDistinct(ss);
  }

  lemma {:induction false} SortStringifies(fs: seq<Member<Value>>)
    requires forall i | 0 <= i < |fs| :: Representable(fs[i].value)
    ensures |SortMembers(fs)| == |fs| && forall x :: x in SortMembers(fs) ==> x in fs
    ensures forall i | 0 <= i < |fs| :: Representable(SortMembers(fs)[i].value)
    ensures SortMembers(StringifyFields(fs)) == StringifyFields(SortMembers(fs))
  {
    if fs != [] {
      SortStringifies(fs[1..]);
      InsertStringifies(fs[0], SortMembers(fs[1..]));
    }
  }

  lemma {:induction false} InsertStringifies(f: Member<Value>, fs: seq<Member<Value>>)
    requires Representable(f.value) && forall i | 0 <= i < |fs| :: Representable(fs[i].value)
    ensures |InsertMember(f, fs)| == |fs| + 1 && forall x :: x in InsertMember(f, fs) ==> x == f || x in fs
    ensures forall i | 0 <= i <= |fs| :: Representable(InsertMember(f, fs)[i].value)
    ensures InsertMember(Member(f.key, Stringify(f.value)), StringifyFields(fs)) == StringifyFields(InsertMember(f, fs))
  {
    if fs != [] && KeyLess(fs[0].key, f.key) {
      InsertStringifies(f, fs[1..]);
      assert StringifyFields(fs)[1..] == StringifyFields(fs[1..]);
      assert InsertMember(f, fs)[1..] == InsertMember(f, fs[1..]);
    } else {
      assert ([f] + fs)[1..] == fs;
    }
  }

  /** canonicalize accepts exactly the representable values, and its text is JSON.stringify
      of the value with all object members sorted. */
  lemma {:induction false} CanonicalizeIsSortedStringify(v: Value)
    requires WellFormed(v)
    ensures Canonicalize(v).Some? <==> Representable(v)
    ensures Representable(v) ==> Representable(Normalize(v)) && Canonicalize(v) == Some(Stringify(Normalize(v)))
    decreases v
  {
    match v {
      case Arr(items) => CanonicalItems(items);
      case Obj(fields) =>
        CanonicalFields(fields);
        if Representable(v) {
          SortStringifies(NormalizeFields(fields));
        }
      case _ =>
    }
  }

  lemma {:induction false} CanonicalItems(items: seq<Value>)
    requires forall i | 0 <= i < |items| :: WellFormed(items[i])
    ensures CanonicalizeItems(items).Some? <==> forall i | 0 <= i < |items| :: Representable(items[i])
    ensures CanonicalizeItems(items).Some? ==>
        && (forall i | 0 <= i < |items| :: Representable(NormalizeItems(items)[i]))
        && CanonicalizeItems(items) == Some(StringifyItems(NormalizeItems(items)))
    decreases items
  {
    if items != [] {
      CanonicalizeIsSortedStringify(items[0]);
      CanonicalItems(items[1..]);
      assert NormalizeItems(items)[1..] == NormalizeItems(items[1..]);
      assert items == [items[0]] + items[1..];
    }
  }

  lemma {:induction false} CanonicalFields(fields: seq<Member<Value>>)
    requires forall i | 0 <= i < |fields| :: WellFormed(fields[i].value)
    ensures CanonicalizeFields(fields).Some? <==> forall i | 0 <= i < |fields| :: Representable(fields[i].value)
    ensures CanonicalizeFields(fields).Some? ==>
        && (forall i | 0 <= i < |fields| :: Representable(NormalizeFields(fields)[i].value))
        && CanonicalizeFields(fields) == Some(StringifyFields(NormalizeFields(fields)))
    decreases fields
  {
    if fields != [] {
      CanonicalizeIsSortedStringify(fields[0].value);
      CanonicalFields(fields[1..]);
      assert NormalizeFields(fields)[1..] == NormalizeFields(fields[1..]);
      assert fields == [fields[0]] + fields[1..];
    }
  }

  // ---------------------------------------------------------------------------------
  // Injectivity up to member order
  // ---------------------------------------------------------------------------------

  /** Equality of JSON values that ignores the order of object members, at every depth. */
  ghost predicate Same(a: Value, b: Value)
    decreases a, 0
  {
    match a
    case Arr(xs) => b.Arr? && |xs| == |b.items| && forall i | 0 <= i < |xs| :: Same(xs[i], b.items[i])
    case Obj(fs) =>
      && b.Obj?
      && (forall i | 0 <= i < |fs| :: HasMatch(fs[i], b.fields))
      && (forall j | 0 <= j < |b.fields| :: IsMatched(fs, b.fields[j]))
    case _ => a == b
  }

  ghost predicate HasMatch(f: Member<Value>, gs: seq<Member<Value>>)
    decreases f, 1
  {
    exists j | 0 <= j < |gs| :: f.key == gs[j].key && Same(f.value, gs[j].value)
  }

  ghost predicate IsMatched(fs: seq<Member<Value>>, g: Member<Value>)
    decreases fs, 1
  {
    exists i | 0 <= i < |fs| :: fs[i].key == g.key && Same(fs[i].value, g.value)
  }

  lemma {:induction false} NormalizeDecidesSame(a: Value, b: Value)
    requires WellFormed(a) && WellFormed(b)
    ensures Normalize(a) == Normalize(b) <==> Same(a, b)
    decreases a, 1
  {
    if a.Arr? && b.Arr? {
      forall i | 0 <= i < |a.items| && i < |b.items|
        ensures Normalize(a.items[i]) == Normalize(b.items[i]) <==> Same(a.items[i], b.items[i])
      {
        NormalizeDecidesSame(a.items[i], b.items[i]);
      }
      assert Normalize(a) == Normalize(b) ==> |a.items| == |b.items| && forall i | 0 <= i < |a.items| :: NormalizeItems(a.items)[i] == NormalizeItems(b.items)[i];
    } else if a.Obj? && b.Obj? {
      ObjectsDecideSame(a, b);
    }
  }

  lemma {:induction false} ObjectsDecideSame(a: Value, b: Value)
    requires WellFormed(a) && WellFormed(b) && a.Obj? && b.Obj?
    ensures Normalize(a) == Normalize(b) <==> Same(a, b)
    decreases a, 0
  {
    forall i, j | 0 <= i < |a.fields| && 0 <= j < |b.fields|
      ensures Normalize(a.fields[i].value) == Normalize(b.fields[j].value) <==> Same(a.fields[i].value, b.fields[j].value)
    {
      NormalizeDecidesSame(a.fields[i].value, b.fields[j].value);
    }
    hide Normalize, Same;
    ObjectsSame(a, b);
  }

  ghost predicate AllMatched(xs: seq<Member<Value>>, ys: seq<Member<Value>>) {
    (forall i | 0 <= i < |xs| :: HasMatch(xs[i], ys)) && (forall j | 0 <= j < |ys| :: IsMatched(xs, ys[j]))
  }

  lemma SameObjects(a: Value, b: Value)
    requires a.Obj? && b.Obj?
    ensures Same(a, b) <==> AllMatched(a.fields, b.fields)
    ensures Normalize(a) == Normalize(b) <==> SortMembers(NormalizeFields(a.fields)) == SortMembers(NormalizeFields(b.fields))
  {
    hide SortMembers, HasMatch, IsMatched, NormalizeFields;
  }

  /** The values of the members decide sameness. */
  ghost predicate Decided(xs: seq<Member<Value>>, ys: seq<Member<Value>>) {
    forall i, j | 0 <= i < |xs| && 0 <= j < |ys| :: Normalize(xs[i].value) == Normalize(ys[j].value) <==> Same(xs[i].value, ys[j].value)
  }

  lemma NormalizedDistinct(fs: seq<Member<Value>>)
    requires DistinctKeys(fs)
    ensures DistinctKeys(NormalizeFields(fs))
  {}

  lemma ObjectsSame(a: Value, b: Value)
    requires a.Obj? && b.Obj? && DistinctKeys(a.fields) && DistinctKeys(b.fields)
    requires Decided(a.fields, b.fields)
    ensures Normalize(a) == Normalize(b) <==> Same(a, b)
  {
    hide SortMembers, HasMatch, IsMatched, Same, Normalize, NormalizeFields, DistinctKeys, Contained, Decided;
    NormalizedDistinct(a.fields);
    NormalizedDistinct(b.fields);
    SameObjects(a, b);
    ContainedIsMatched(a.fields, b.fields);
    SameMembers(NormalizeFields(a.fields), NormalizeFields(b.fields));
  }

  lemma ContainedIsMatched(xs: seq<Member<Value>>, ys: seq<Member<Value>>)
    requires Decided(xs, ys)
    ensures Contained(NormalizeFields(xs), NormalizeFields(ys)) <==> forall i | 0 <= i < |xs| :: HasMatch(xs[i], ys)
    ensures Contained(NormalizeFields(ys), NormalizeFields(xs)) <==> forall j | 0 <= j < |ys| :: IsMatched(xs, ys[j])
  {
    FieldsDecided(xs, ys);
    hide HasMatch, IsMatched, Normalize, Same, NormalizeFields;
  }

  /** If the values below decide sameness, so does membership of the normalised members. */
  lemma FieldsDecided(xs: seq<Member<Value>>, ys: seq<Member<Value>>)
    requires Decided(xs, ys)
    ensures forall i | 0 <= i < |xs| :: NormalizeFields(xs)[i] in NormalizeFields(ys) <==> HasMatch(xs[i], ys)
    ensures forall j | 0 <= j < |ys| :: NormalizeFields(ys)[j] in NormalizeFields(xs) <==> IsMatched(xs, ys[j])
  {
    hide Same;
    var fs, gs := NormalizeFields(xs), NormalizeFields(ys);
    forall i | 0 <= i < |xs| ensures fs[i] in gs <==> HasMatch(xs[i], ys) {
      if HasMatch(xs[i], ys) {
        var j :| 0 <= j < |ys| && xs[i].key == ys[j].key && Same(xs[i].value, ys[j].value);
        assert gs[j] == fs[i];
      }
    }
    forall j | 0 <= j < |ys| ensures gs[j] in fs <==> IsMatched(xs, ys[j]) {
      if IsMatched(xs, ys[j]) {
        var i :| 0 <= i < |xs| && xs[i].key == ys[j].key && Same(xs[i].value, ys[j].value);
        assert fs[i] == gs[j];
      }
    }
  }

  ghost predicate Contained(fs: seq<Member<Value>>, gs: seq<Member<Value>>) {
    forall i | 0 <= i < |fs| :: fs[i] in gs
  }

  lemma SameMembers(fs: seq<Member<Value>>, gs: seq<Member<Value>>)
    requires DistinctKeys(fs) && DistinctKeys(gs)
    ensures SortMembers(fs) == SortMembers(gs) <==> Contained(fs, gs) && Contained(gs, fs)
  {
    SortMembersSorts(fs);
    SortMembersSorts(gs);
    if SortMembers(fs) == SortMembers(gs) {
      assert forall i | 0 <= i < |fs| :: fs[i] in SortMembers(fs);
      assert forall j | 0 <= j < |gs| :: gs[j] in SortMembers(gs);
    }
    if Contained(fs, gs) && Contained(gs, fs) {
      SortedUnique(SortMembers(fs), SortMembers(gs));
    }
  }

  /** Two values print equal iff they are equal ignoring member order. */
  lemma CanonicalizeInjective(a: Value, b: Value)
    requires WellFormed(a) && Representable(a) && WellFormed(b) && Representable(b)
    ensures Canonicalize(a) == Canonicalize(b) <==> Same(a, b)
  {
    CanonicalizeIsSortedStringify(a);
    CanonicalizeIsSortedStringify(b);
    NormalizeKeeps(a);
    NormalizeKeeps(b);
    if Canonicalize(a) == Canonicalize(b) {
      var x, y := Stringify(Normalize(a)), Stringify(Normalize(b));
      assert x + "" == x == y == y + "";
      StringifyUnique(Normalize(a), Normalize(b), "", "");
    }
    NormalizeDecidesSame(a, b);
  }

  lemma {:induction false} NormalizeAgain(v: Value)
    requires WellFormed(v)
    ensures Normalize(Normalize(v)) == Normalize(v) && WellFormed(Normalize(v))
    decreases v
  {
    match v {
      case Arr(items) =>
        forall i | 0 <= i < |items| ensures Normalize(Normalize(items[i])) == Normalize(items[i]) && WellFormed(Normalize(items[i])) {
          NormalizeAgain(items[i]);
        }
        assert NormalizeItems(NormalizeItems(items)) == NormalizeItems(items);
      case Obj(fields) =>
        forall i | 0 <= i < |fields| ensures Normalize(Normalize(fields[i].value)) == Normalize(fields[i].value) && WellFormed(Normalize(fields[i].value)) {
          NormalizeAgain(fields[i].value);
        }
        SortedAgain(fields);
      case _ =>
    }
  }

  ghost predicate Settled(m: Member<Value>) {
    Normalize(m.value) == m.value && WellFormed(m.value)
  }

  lemma SettledNormalize(ms: seq<Member<Value>>)
    requires forall m | m in ms :: Settled(m)
    ensures NormalizeFields(ms) == ms
  {
    forall i | 0 <= i < |ms| ensures NormalizeFields(ms)[i] == ms[i] {
      assert ms[i] in ms;
    }
    hide NormalizeFields;
  }

  lemma SortedAgain(fields: seq<Member<Value>>)
    requires DistinctKeys(fields)
    requires forall i | 0 <= i < |fields| ::
      Normalize(Normalize(fields[i].value)) == Normalize(fields[i].value) && WellFormed(Normalize(fields[i].value))
    ensures var sorted := SortMembers(NormalizeFields(fields));
      NormalizeFields(sorted) == sorted && SortMembers(sorted) == sorted && WellFormed(Obj(sorted))
  {
    hide Normalize;
    var fs := NormalizeFields(fields);
    var sorted := SortMembers(fs);
    assert forall m | m in fs :: Settled(m);
    SortMembersSorts(fs);
    SettledNormalize(sorted);
    SortedIsDistinct(sorted);
    hide NormalizeFields, KeyLess;
    assert WellFormed(Obj(sorted)) by {
      forall i | 0 <= i < |sorted| ensures WellFormed(sorted[i].value) { assert Settled(sorted[i]); }
    }
    hide WellFormed;
    SortMembersSorts(sorted);
    SortedUnique(SortMembers(sorted), sorted);
  }

  lemma SortedIsDistinct(ms: seq<Member<Value>>)
    requires StrictlySorted(ms)
    ensures DistinctKeys(ms)
  {
    forall i, j | 0 <= i < j < |ms| ensures ms[i].key != ms[j].key {
      KeyLessAsymmetric(ms[i].key, ms[j].key);
    }
  }

  /** Canonical text denotes its value: read as JSON it yields the same value, with the members
      of every object in order. */
  lemma CanonicalTextReadsBack(v: Value)
    requires WellFormed(v) && Representable(v)
    ensures Canonicalize(v).Some?
    ensures ReadAll(Canonicalize(v).value) == Some(Normalize(v)) && Same(v, Normalize(v)) && WellFormed(Normalize(v))
  {
    CanonicalizeIsSortedStringify(v);
    NormalizeAgain(v);
    NormalizeDecidesSame(v, Normalize(v));
    ReadsBack(Normalize(v), "");
    assert Stringify(Normalize(v)) + "" == Stringify(Normalize(v));
  }

  // ---------------------------------------------------------------------------------
  // The payment client's canonicalJson
  // ---------------------------------------------------------------------------------

  /** None stands for the Error thrown on undefined at the root. */
  function ClientCanonicalJson(v: Value): Option<string> {
    if v == Undefined then None else Some(ClientText(v))
  }

  /** JSON.stringify turns a non-finite number into null; an undefined array entry is printed
      as null and an undefined member is left out. */
  function ClientText(v: Value): string
    requires v != Undefined
    decreases v
  {
    match v
    case Null => "null"
    case Bool(b) => if b then "true" else "false"
    case Number(t) => t
    case NonFinite => "null"
    case Str(s) => Quote(s)
    case Arr(items) => "[" + Join(ClientItems(items)) + "]"
    case Obj(fields) => "{" + Join(Render(SortMembers(ClientFields(fields)))) + "}"
  }

  function ClientItems(items: seq<Value>): seq<string>
    decreases items
  {
    if items == [] then []
    else [if items[0] == Undefined then "null" else ClientText(items[0])] + ClientItems(items[1..])
  }

  function ClientFields(fields: seq<Member<Value>>): seq<Member<string>>
    decreases fields
  {
    if fields == [] then []
    else if fields[0].value == Undefined then ClientFields(fields[1..])
    else [Member(fields[0].key, ClientText(fields[0].value))] + ClientFields(fields[1..])
  }

  /** Undefined members dropped, undefined array entries turned into null. */
  function DropUndefined(v: Value): Value
    decreases v
  {
    match v
    case Arr(items) => Arr(DropUndefinedItems(items))
    case Obj(fields) => Obj(DropUndefinedFields(fields))
    case _ => v
  }

  function DropUndefinedItems(items: seq<Value>): (r: seq<Value>)
    ensures |r| == |items| && forall i | 0 <= i < |r| :: r[i] == if items[i] == Undefined then Null else DropUndefined(items[i])
    decreases items
  {
    if items == [] then []
    else [if items[0] == Undefined then Null else DropUndefined(items[0])] + DropUndefinedItems(items[1..])
  }

  function DropUndefinedFields(fields: seq<Member<Value>>): (r: seq<Member<Value>>)
    ensures forall m :: m in r <==> exists i | 0 <= i < |fields| :: fields[i].value != Undefined && m == Member(fields[i].key, DropUndefined(fields[i].value))
    decreases fields
  {
    if fields == [] then []
    else if fields[0].value == Undefined then DropUndefinedFields(fields[1..])
    else [Member(fields[0].key, DropUndefined(fields[0].value))] + DropUndefinedFields(fields[1..])
  }

  predicate FiniteNumbers(v: Value) {
    match v
    case NonFinite => false
    case Arr(items) => forall i | 0 <= i < |items| :: FiniteNumbers(items[i])
    case Obj(fields) => forall i | 0 <= i < |fields| :: FiniteNumbers(fields[i].value)
    case _ => true
  }

  /** The two printers agree, after undefined is dropped, exactly on values whose numbers are
      all finite: on the others the client prints null where the gateway throws. */
  lemma {:induction false} PrintersAgree(v: Value)
    requires v != Undefined
    ensures Canonicalize(DropUndefined(v)) == ClientCanonicalJson(v) <==> FiniteNumbers(v)
    ensures Canonicalize(DropUndefined(v)) == None <==> !FiniteNumbers(v)
    decreases v
  {
    match v {
      case Arr(items) => ItemsAgree(items);
      case Obj(fields) => FieldsAgree(fields);
      case _ =>
    }
  }

  lemma {:induction false} ItemsAgree(items: seq<Value>)
    ensures CanonicalizeItems(DropUndefinedItems(items)) ==
            if forall i | 0 <= i < |items| :: FiniteNumbers(items[i]) then Some(ClientItems(items)) else None
    decreases items
  {
    assert Canonicalize(Null) == Some("null");
    hide Canonicalize, ClientText;
    if items != [] {
      if items[0] != Undefined { PrintersAgree(items[0]); }
      ItemsAgree(items[1..]);
      assert DropUndefinedItems(items)[1..] == DropUndefinedItems(items[1..]);
      assert items == [items[0]] + items[1..];
    }
  }

  lemma {:induction false} FieldsAgree(fields: seq<Member<Value>>)
    ensures CanonicalizeFields(DropUndefinedFields(fields)) ==
            if forall i | 0 <= i < |fields| :: FiniteNumbers(fields[i].value) then Some(ClientFields(fields)) else None
    decreases fields
  {
    hide Canonicalize, ClientText;
    if fields != [] {
      FieldsAgree(fields[1..]);
      if fields[0].value != Undefined {
        PrintersAgree(fields[0].value);
        assert DropUndefinedFields(fields)[1..] == DropUndefinedFields(fields[1..]);
      }
      assert fields == [fields[0]] + fields[1..];
    }
  }

  /** Non-finite numbers turned into null. */
  function NullNonFinite(v: Value): Value
    decreases v
  {
    match v
    case NonFinite => Null
    case Arr(items) => Arr(NulledItems(items))
    case Obj(fields) => Obj(NulledFields(fields))
    case _ => v
  }

  function NulledItems(items: seq<Value>): seq<Value>
    decreases items
  {
    seq(|items|, i requires 0 <= i < |items| => NullNonFinite(items[i]))
  }

  function NulledFields(fields: seq<Member<Value>>): seq<Member<Value>>
    decreases fields
  {
    seq(|fields|, i requires 0 <= i < |fields| => Member(fields[i].key, NullNonFinite(fields[i].value)))
  }

  /** What the client prints: the value without undefined and with null for every number that is
      not finite, as the gateway would print that. */
  lemma {:induction false} ClientPrintsNulls(v: Value)
    requires v != Undefined
    ensures ClientCanonicalJson(v) == Canonicalize(NullNonFinite(DropUndefined(v)))
    decreases v
  {
    match v {
      case Arr(items) => ItemsNulled(items);
      case Obj(fields) => FieldsNulled(fields);
      case _ =>
    }
  }

  lemma {:induction false} ItemsNulled(items: seq<Value>)
    ensures CanonicalizeItems(NulledItems(DropUndefinedItems(items))) == Some(ClientItems(items))
    decreases items
  {
    if items != [] {
      if items[0] != Undefined { ClientPrintsNulls(items[0]); }
      ItemsNulled(items[1..]);
      assert NulledItems(DropUndefinedItems(items))[1..] == NulledItems(DropUndefinedItems(items[1..]));
    }
  }

  lemma {:induction false} FieldsNulled(fields: seq<Member<Value>>)
    ensures CanonicalizeFields(NulledFields(DropUndefinedFields(fields))) == Some(ClientFields(fields))
    decreases fields
  {
    if fields != [] {
      FieldsNulled(fields[1..]);
      if fields[0].value != Undefined {
        ClientPrintsNulls(fields[0].value);
        assert NulledFields(DropUndefinedFields(fields))[1..] == NulledFields(DropUndefinedFields(fields[1..]));
      }
    }
  }
}
