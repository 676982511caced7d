/**
 * The compact JSON text a relayed payload is written as: keys sorted, nothing escaped that
 * need not be, one line per record. Escapes follow section 7 of RFC 8259.
 */
module JsonText {
  import opened Prelude
  import opened Ordering

  predicate IsDecimal(c: char) {
    '0' <= c <= '9'
  }

  predicate IsNumberChar(c: char) {
    IsDecimal(c) || c == '-' || c == '+' || c == '.' || c == 'e' || c == 'E'
  }

  /** What follows the leading decimals. */
  function AfterDecimals(s: string): (r: string)
    ensures |r| <= |s| && r == s[|s| - |r|..]
  {
    if s == [] || !IsDecimal(s[0]) then s else AfterDecimals(s[1..])
  }

  predicate IsExponent(s: string) {
    s == [] || ((s[0] == 'e' || s[0] == 'E')
      && var digits := if |s| > 1 && (s[1] == '-' || s[1] == '+') then s[2..] else s[1..];
         digits != [] && AfterDecimals(digits) == [])
  }

  predicate IsFraction(s: string) {
    if s != [] && s[0] == '.' then |s| > 1 && IsDecimal(s[1]) && IsExponent(AfterDecimals(s[1..])) else IsExponent(s)
  }

  /** The number grammar of section 6 of RFC 8259. */
  predicate IsNumber(s: string) {
    var t := if s != [] && s[0] == '-' then s[1..] else s;
    t != [] && IsDecimal(t[0]) && IsFraction(if t[0] == '0' then t[1..] else AfterDecimals(t))
  }

  /** The literal of a finite number. */
  type NumberText = s: string | IsNumber(s) && forall i :: 0 <= i < |s| ==> IsNumberChar(s[i]) witness "0"

  /** `Infinite` is a number literal too large for a float. */
  datatype Json =
    | Null
    | Bool(value: bool)
    | Number(literal: NumberText)
    | Infinite
    | Str(text: string)
    | Array(items: seq<Json>)
    | Object(fields: seq<Field>)

  datatype Field = Field(key: string, value: Json)

  // ----- strings -----

  function HexDigit(n: nat): (c: char)
    requires n < 16
  {
    "0123456789abcdef"[n]
  }

  function HexValue(c: char): (r: Option<nat>)
    ensures r.Some? ==> r.value < 16
  {
    if '0' <= c <= '9' then Some((c - '0') as nat)
    else if 'a' <= c <= 'f' then Some((c - 'a') as nat + 10)
    else if 'A' <= c <= 'F' then Some((c - 'A') as nat + 10)
    else None
  }

  function EscapeChar(c: char): (r: string)
    ensures r != []
  {
    if c == '\"' then "\\\""
    else if c == '\\' then "\\\\"
    else if c == '\n' then "\\n"
    else if c == '\r' then "\\r"
    else if c == '\t' then "\\t"
    else if c as int == 8 then "\\b"
    else if c as int == 12 then "\\f"
    else if c < ' ' then "\\u00" + [HexDigit(c as int / 16), HexDigit(c as int % 16)]
    else [c]
  }

  function Escape(text: string): string {
    if text == [] then [] else EscapeChar(text[0]) + Escape(text[1..])
  }

  function Quoted(text: string): string {
    "\"" + (Escape(text) + "\"")
  }

  function HexCode(text: string): (r: Option<nat>)
    requires |text| == 4
    ensures r.Some? ==> r.value < 0x1_0000
  {
    var a, b, c, d := HexValue(text[0]), HexValue(text[1]), HexValue(text[2]), HexValue(text[3]);
    if a.None? || b.None? || c.None? || d.None? then None
    else Some(((a.value * 16 + b.value) * 16 + c.value) * 16 + d.value)
  }

  /** The character an escape stands for, and how long the escape is. */
  function ReadEscape(text: string): Option<(char, nat)>
    requires |text| >= 2 && text[0] == '\\'
  {
    match text[1]
    case '\"' => Some(('\"', 2))
    case '\\' => Some(('\\', 2))
    case '/' => Some(('/', 2))
    case 'n' => Some(('\n', 2))
    case 'r' => Some(('\r', 2))
    case 't' => Some(('\t', 2))
    case 'b' => Some((8 as char, 2))
    case 'f' => Some((12 as char, 2))
    case 'u' =>
      if |text| < 6 then None
      else
        var code := HexCode(text[2..6]);
        if code.None? then None
        else if 0xD800 <= code.value < 0xE000 then ReadPair(text, code.value)
        else Some((code.value as char, 6))
    case _ => None
  }

  /** Two escaped surrogates stand for one character; a lone one for none. */
  function ReadPair(text: string, high: nat): Option<(char, nat)>
    requires |text| >= 6 && 0xD800 <= high < 0xE000
  {
    if high >= 0xDC00 || |text| < 12 || text[6] != '\\' || text[7] != 'u' then None
    else
      var low := HexCode(text[8..12]);
      if low.None? || !(0xDC00 <= low.value < 0xE000) then None
      else Some(((0x1_0000 + (high - 0xD800) * 0x400 + (low.value - 0xDC00)) as char, 12))
  }

  /** Reads a string up to its closing quote; control characters may not stand for themselves. */
  function ReadString(text: string): (r: Option<(string, string)>)
    ensures r.Some? ==> |r.value.1| < |text|
    decreases |text|
  {
    if text == [] || text[0] < ' ' then None
    else if text[0] == '\"' then Some(([], text[1..]))
    else if text[0] == '\\' then
      if |text| < 2 then None
      else
        var escape := ReadEscape(text);
        if escape.None? || escape.value.1 > |text| then None
        else
          var rest := ReadString(text[escape.value.1..]);
          if rest.None? then None else Some(([escape.value.0] + rest.value.0, rest.value.1))
    else
      var rest := ReadString(text[1..]);
      if rest.None? then None else Some(([text[0]] + rest.value.0, rest.value.1))
  }

  lemma HexRoundTrip(n: nat)
    requires n < 32
    ensures HexCode("00" + [HexDigit(n / 16), HexDigit(n % 16)]) == Some(n)
  {
    assert HexValue('0') == Some(0);
    assert HexValue(HexDigit(n % 16)) == Some(n % 16);
    assert HexValue(HexDigit(n / 16)) == Some(n / 16);
  }

  lemma ControlText(c: char)
    requires c < ' ' && EscapeChar(c)[1] == 'u'
    ensures EscapeChar(c) == "\\u" + ("00" + [HexDigit(c as int / 16), HexDigit(c as int % 16)])
  {
    hide HexDigit;
  }

  lemma ReadsCode(code: string, n: nat, tail: string)
    requires |code| == 4 && HexCode(code) == Some(n) && n < 0xD800
    ensures ReadEscape("\\u" + code + tail) == Some((n as char, 6))
  {
    hide HexCode;
    var text := "\\u" + code + tail;
    assert text[2..6] == code;
  }

  lemma ControlEscape(c: char, tail: string)
    requires c < ' ' && EscapeChar(c)[1] == 'u'
    ensures ReadEscape(EscapeChar(c) + tail) == Some((c, 6))
  {
    ControlText(c);
    HexRoundTrip(c as nat);
    hide HexDigit, HexCode, ReadEscape, EscapeChar;
    ReadsCode("00" + [HexDigit(c as int / 16), HexDigit(c as int % 16)], c as nat, tail);
  }

  lemma EscapeRead(c: char, tail: string)
    requires EscapeChar(c)[0] == '\\'
    ensures |EscapeChar(c)| >= 2 && ReadEscape(EscapeChar(c) + tail) == Some((c, |EscapeChar(c)|))
  {
    if EscapeChar(c)[1] == 'u' {
      ControlEscape(c, tail);
      hide ReadEscape;
    }
  }

  lemma PlainChar(c: char)
    ensures EscapeChar(c)[0] != '\\' ==> EscapeChar(c) == [c] && c != '\"' && c >= ' '
  {}

  /** Reading one escaped character gives it back and goes on with what follows. */
  lemma ReadsEscapedChar(c: char, tail: string)
    ensures var text, rest := EscapeChar(c) + tail, ReadString(tail);
      ReadString(text) == if rest.None? then None else Some(([c] + rest.value.0, rest.value.1))
  {
    var text := EscapeChar(c) + tail;
    assert text[|EscapeChar(c)|..] == tail;
    PlainChar(c);
    if EscapeChar(c)[0] == '\\' { EscapeRead(c, tail); }
    hide EscapeChar, ReadEscape;
  }

  lemma EscapeUnfolds(text: string, tail: string)
    ensures text == [] ==> Escape(text) + tail == tail
    ensures text != [] ==>
      Escape(text) + tail == EscapeChar(text[0]) + (Escape(text[1..]) + tail) && [text[0]] + text[1..] == text
  {
    hide EscapeChar;
  }

  lemma ReadsClosingQuote(tail: string)
    ensures ReadString("\"" + tail) == Some(([], tail))
  {
    assert ("\"" + tail)[1..] == tail;
  }

  /** Printing a string and reading it back is the identity, whatever follows the closing quote. */
  lemma {:induction false} StringRoundTrip(text: string, tail: string)
    ensures ReadString(Escape(text) + ("\"" + tail)) == Some((text, tail))
  {
    hide *;
    EscapeUnfolds(text, "\"" + tail);
    if text == [] {
      ReadsClosingQuote(tail);
    } else {
      StringRoundTrip(text[1..], tail);
      ReadsEscapedChar(text[0], Escape(text[1..]) + ("\"" + tail));
    }
  }

  // ----- values -----

  function ByKey(a: (string, string), b: (string, string)): bool {
    StringLe(a.0, b.0)
  }

  function Joined(parts: seq<string>): string {
    if parts == [] then []
    else if |parts| == 1 then parts[0]
    else parts[0] + ("," + Joined(parts[1..]))
  }

  function FieldTexts(fields: seq<(string, string)>): seq<string> {
    if fields == [] then [] else [Quoted(fields[0].0) + (":" + fields[0].1)] + FieldTexts(fields[1..])
  }

  /** The text of a value; `None` if a number in it is not finite. */
  function Dumps(j: Json): Option<string> {
    match j
    case Null => Some("null")
    case Bool(b) => Some(if b then "true" else "false")
    case Number(literal) => Some(literal)
    case Infinite => None
    case Str(text) => Some(Quoted(text))
    case Array(items) =>
      var texts := DumpsAll(items);
      if texts.None? then None else Some("[" + (Joined(texts.value) + "]"))
    case Object(fields) =>
      var texts := DumpsFields(fields);
      if texts.None? then None else Some("{" + (Joined(FieldTexts(SortBy(texts.value, ByKey))) + "}"))
  }

  function DumpsAll(items: seq<Json>): Option<seq<string>> {
    if items == [] then Some([])
    else
      var first, rest := Dumps(items[0]), DumpsAll(items[1..]);
      if first.None? || rest.None? then None else Some([first.value] + rest.value)
  }

  /** Each field's key with its value's text, in the order given. */
  function DumpsFields(fields: seq<Field>): Option<seq<(string, string)>> {
    if fields == [] then Some([])
    else
      var first, rest := Dumps(fields[0].value), DumpsFields(fields[1..]);
      if first.None? || rest.None? then None else Some([(fields[0].key, first.value)] + rest.value)
  }

  /** No number in the value is too large to print. */
  predicate Finite(j: Json) {
    match j
    case Infinite => false
    case Array(items) => forall i :: 0 <= i < |items| ==> Finite(items[i])
    case Object(fields) => forall i :: 0 <= i < |fields| ==> Finite(fields[i].value)
    case _ => true
  }

  /** Every finite value has a text, and no other has. */
  lemma {:induction false} PrintsExactly(j: Json)
    ensures Dumps(j).Some? <==> Finite(j)
  {
    match j
    case Array(items) => ItemsPrintExactly(items);
    case Object(fields) => FieldsPrintExactly(fields);
    case _ =>
  }

  lemma {:induction false} ItemsPrintExactly(items: seq<Json>)
    ensures DumpsAll(items).Some? <==> forall i :: 0 <= i < |items| ==> Finite(items[i])
  {
    if items != [] {
      PrintsExactly(items[0]);
      ItemsPrintExactly(items[1..]);
      hide Dumps, Finite;
      assert forall i :: 0 < i < |items| ==> items[i] == items[1..][i - 1];
    }
  }

  lemma {:induction false} FieldsPrintExactly(fields: seq<Field>)
    ensures DumpsFields(fields).Some? <==> forall i :: 0 <= i < |fields| ==> Finite(fields[i].value)
  {
    if fields != [] {
      PrintsExactly(fields[0].value);
      FieldsPrintExactly(fields[1..]);
      hide Dumps, Finite;
      assert forall i :: 0 < i < |fields| ==> fields[i] == fields[1..][i - 1];
    }
  }

  // ----- one line -----

  /** No control character, so in particular no line break. */
  predicate Printable(text: string) {
    forall i :: 0 <= i < |text| ==> ' ' <= text[i]
  }

  predicate AllPrintable(parts: seq<string>) {
    forall i :: 0 <= i < |parts| ==> Printable(parts[i])
  }

  lemma PrintableJoin(a: string, b: string)
    requires Printable(a) && Printable(b)
    ensures Printable(a + b)
  {}

  lemma EscapeCharPrintable(c: char)
    ensures Printable(EscapeChar(c))
  {}

  lemma {:induction false} EscapePrintable(text: string)
    ensures Printable(Escape(text))
  {
    if text != [] {
      EscapePrintable(text[1..]);
      EscapeCharPrintable(text[0]);
    }
  }

  lemma QuotedPrintable(text: string)
    ensures Printable(Quoted(text))
  {
    EscapePrintable(text);
  }

  lemma {:induction false} JoinedPrintable(parts: seq<string>)
    requires AllPrintable(parts)
    ensures Printable(Joined(parts))
  {
    if |parts| > 1 {
      JoinedPrintable(parts[1..]);
      PrintableJoin(",", Joined(parts[1..]));
      PrintableJoin(parts[0], "," + Joined(parts[1..]));
    }
  }

  predicate FieldsPrintable(fields: seq<(string, string)>) {
    forall f :: f in fields ==> Printable(f.1)
  }

  lemma {:induction false} FieldTextsPrintable(fields: seq<(string, string)>)
    requires FieldsPrintable(fields)
    ensures AllPrintable(FieldTexts(fields))
  {
    if fields != [] {
      FieldTextsPrintable(fields[1..]);
      QuotedPrintable(fields[0].0);
      PrintableJoin(":", fields[0].1);
      PrintableJoin(Quoted(fields[0].0), ":" + fields[0].1);
      hide Printable, Quoted;
    }
  }

  lemma BracedPrintable(texts: seq<(string, string)>)
    requires FieldsPrintable(texts)
    ensures Printable("{" + (Joined(FieldTexts(SortBy(texts, ByKey))) + "}"))
  {
    var sorted := SortBy(texts, ByKey);
    SortByMembers(texts, ByKey);
    FieldTextsPrintable(sorted);
    JoinedPrintable(FieldTexts(sorted));
    hide FieldTexts, Joined;
    PrintableJoin(Joined(FieldTexts(sorted)), "}");
    PrintableJoin("{", Joined(FieldTexts(sorted)) + "}");
  }

  lemma BracketedPrintable(texts: seq<string>)
    requires AllPrintable(texts)
    ensures Printable("[" + (Joined(texts) + "]"))
  {
    JoinedPrintable(texts);
    hide Joined;
    PrintableJoin(Joined(texts), "]");
    PrintableJoin("[", Joined(texts) + "]");
  }

  lemma {:induction false} DumpsPrintable(j: Json)
    ensures Dumps(j).Some? ==> Printable(Dumps(j).value)
  {
    match j
    case Str(text) => QuotedPrintable(text);
    case Array(items) =>
      DumpsAllPrintable(items);
      if DumpsAll(items).Some? { BracketedPrintable(DumpsAll(items).value); }
      hide Joined, DumpsAll, DumpsFields;
    case Object(fields) =>
      DumpsFieldsPrintable(fields);
      if DumpsFields(fields).Some? { BracedPrintable(DumpsFields(fields).value); }
      hide FieldTexts, Joined, DumpsFields, DumpsAll, ByKey, Quoted;
    case _ =>
  }

  lemma {:induction false} DumpsAllPrintable(items: seq<Json>)
    ensures DumpsAll(items).Some? ==> AllPrintable(DumpsAll(items).value)
  {
    if items != [] {
      DumpsPrintable(items[0]);
      DumpsAllPrintable(items[1..]);
      hide Dumps, Printable;
    }
  }

  lemma {:induction false} DumpsFieldsPrintable(fields: seq<Field>)
    ensures DumpsFields(fields).Some? ==> FieldsPrintable(DumpsFields(fields).value)
  {
    if fields != [] {
      DumpsPrintable(fields[0].value);
      DumpsFieldsPrintable(fields[1..]);
      hide Dumps, Printable;
    }
  }

  // ----- bytes -----

  const LINE_FEED: byte := 10

  function Utf8Char(c: char): seq<byte> {
    var n := c as int;
    if n < 0x80 then [n as byte]
    else if n < 0x800 then [(0xC0 + n / 0x40) as byte, (0x80 + n % 0x40) as byte]
    else if n < 0x1_0000 then [(0xE0 + n / 0x1000) as byte, (0x80 + n / 0x40 % 0x40) as byte, (0x80 + n % 0x40) as byte]
    else
      assert n < 0x11_0000;
      [(0xF0 + n / 0x4_0000) as byte, (0x80 + n / 0x1000 % 0x40) as byte, (0x80 + n / 0x40 % 0x40) as byte,
          (0x80 + n % 0x40) as byte]
  }

  function Utf8(text: string): seq<byte> {
    if text == [] then [] else Utf8Char(text[0]) + Utf8(text[1..])
  }

  /** One feed record. */
  function Record(payload: Json): Option<seq<byte>> {
    var text := Dumps(payload);
    if text.None? then None else Some(Utf8(text.value) + [LINE_FEED])
  }

  /** A record is written for every payload of finite numbers. */
  lemma RecordExactly(payload: Json)
    ensures Record(payload).Some? <==> Finite(payload)
  {
    PrintsExactly(payload);
    hide Dumps, Finite, Utf8;
  }

  lemma {:induction false} Utf8NoLineFeed(text: string)
    requires Printable(text)
    ensures LINE_FEED !in Utf8(text)
  {
    if text != [] {
      Utf8NoLineFeed(text[1..]);
      assert LINE_FEED !in Utf8Char(text[0]);
    }
  }

  /** Whatever the payload, its record is one line: the only line feed is its last byte. */
  lemma RecordIsOneLine(payload: Json)
    requires Record(payload).Some?
    ensures var record := Record(payload).value;
      record != [] && forall i :: 0 <= i < |record| ==> (record[i] == LINE_FEED <==> i == |record| - 1)
  {
    DumpsPrintable(payload);
    Utf8NoLineFeed(Dumps(payload).value);
    hide Dumps, Utf8;
  }
}
