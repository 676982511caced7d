/**
 * Reading JSON text back (RFC 8259, with lone surrogates refused and literals kept as written), and
 * the UTF-8 decoding before it: a relayed record is read back as its payload with sorted keys.
 */
module JsonReader {
  import opened Prelude
  import opened Ordering
  import opened JsonText

  // ----- the reader -----

  predicate IsSpace(c: char) {
    c == ' ' || c == '\t' || c == '\n' || c == '\r'
  }

  function Skip(text: string): (r: string)
    ensures |r| <= |text|
  {
    if text != [] && IsSpace(text[0]) then Skip(text[1..]) else text
  }

  /** How many number characters come first. */
  function NumberLength(text: string): (n: nat)
    ensures n <= |text| && (forall i :: 0 <= i < n ==> IsNumberChar(text[i])) && (n < |text| ==> !IsNumberChar(text[n]))
  {
    if text == [] || !IsNumberChar(text[0]) then 0 else 1 + NumberLength(text[1..])
  }

  function ReadValue(text: string): (r: Option<(Json, string)>)
    ensures r.Some? ==> |r.value.1| < |text|
    decreases |text|, 0
  {
    var t := Skip(text);
    if t == [] then None
    else if t[0] == '\"' then
      var s := ReadString(t[1..]);
      if s.None? then None else Some((Str(s.value.0), s.value.1))
    else if t[0] == '[' then
      var u := Skip(t[1..]);
      if u != [] && u[0] == ']' then Some((Array([]), u[1..]))
      else
        var items := ReadItems(t[1..]);
        if items.None? then None else Some((Array(items.value.0), items.value.1))
    else if t[0] == '{' then
      var u := Skip(t[1..]);
      if u != [] && u[0] == '}' then Some((Object([]), u[1..]))
      else
        var fields := ReadFields(t[1..]);
        if fields.None? then None else Some((Object(fields.value.0), fields.value.1))
    else if IsNumberChar(t[0]) then
      var n := NumberLength(t);
      if IsNumber(t[..n]) then Some((Number(t[..n]), t[n..])) else None
    else if "null" <= t then Some((Null, t[4..]))
    else if "true" <= t then Some((Bool(true), t[4..]))
    else if "false" <= t then Some((Bool(false), t[5..]))
    else None
  }

  /** Items up to the closing bracket. */
  function ReadItems(text: string): (r: Option<(seq<Json>, string)>)
    ensures r.Some? ==> |r.value.1| < |text|
    decreases |text|, 1
  {
    var first := ReadValue(text);
    if first.None? then None
    else
      var t := Skip(first.value.1);
      if t == [] then None
      else if t[0] == ']' then Some(([first.value.0], t[1..]))
      else if t[0] != ',' then None
      else
        var rest := ReadItems(t[1..]);
        if rest.None? then None else Some(([first.value.0] + rest.value.0, rest.value.1))
  }

  /** A key, a colon and a value. */
  function ReadField(text: string): (r: Option<(Field, string)>)
    ensures r.Some? ==> |r.value.1| < |text|
    decreases |text|, 1
  {
    var t := Skip(text);
    if t == [] || t[0] != '\"' then None
    else
      var key := ReadString(t[1..]);
      if key.None? then None
      else
        var u := Skip(key.value.1);
        if u == [] || u[0] != ':' then None
        else
          var value := ReadValue(u[1..]);
          if value.None? then None else Some((Field(key.value.0, value.value.0), value.value.1))
  }

  /** Fields up to the closing brace. */
  function ReadFields(text: string): (r: Option<(seq<Field>, string)>)
    ensures r.Some? ==> |r.value.1| < |text|
    decreases |text|, 2
  {
    var first := ReadField(text);
    if first.None? then None
    else
      var t := Skip(first.value.1);
      if t == [] then None
      else if t[0] == '}' then Some(([first.value.0], t[1..]))
      else if t[0] != ',' then None
      else
        var rest := ReadFields(t[1..]);
        if rest.None? then None else Some(([first.value.0] + rest.value.0, rest.value.1))
  }

  // ----- what printing and reading back gives -----

  function ByFieldKey(a: Field, b: Field): bool {
    StringLe(a.key, b.key)
  }

  /** The value with every object's fields in key order. */
  function KeySorted(j: Json): Json {
    match j
    case Array(items) => Array(KeySortedAll(items))
    case Object(fields) => Object(SortBy(KeySortedFields(fields), ByFieldKey))
    case _ => j
  }

  function KeySortedAll(items: seq<Json>): seq<Json> {
    if items == [] then [] else [KeySorted(items[0])] + KeySortedAll(items[1..])
  }

  function KeySortedFields(fields: seq<Field>): seq<Field> {
    if fields == [] then [] else [Field(fields[0].key, KeySorted(fields[0].value))] + KeySortedFields(fields[1..])
  }

  /** Sorting by key rearranges an object's fields, each value sorted inside, into ascending key order. */
  lemma KeysAscend(fields: seq<Field>)
    ensures var sorted := KeySorted(Object(fields)).fields;
      && Sorted(sorted, ByFieldKey) && multiset(sorted) == multiset(KeySortedFields(fields))
      && |KeySortedFields(fields)| == |fields|
      && forall i :: 0 <= i < |fields| ==>
           KeySortedFields(fields)[i] == Field(fields[i].key, KeySorted(fields[i].value))
  {
    StringOrder();
    hide StringLe;
    SortBySorts(KeySortedFields(fields), ByFieldKey);
    FieldsOneByOne(fields);
  }

  lemma {:induction false} FieldsOneByOne(fields: seq<Field>)
    ensures |KeySortedFields(fields)| == |fields|
    ensures forall i :: 0 <= i < |fields| ==>
              KeySortedFields(fields)[i] == Field(fields[i].key, KeySorted(fields[i].value))
  {
    if fields != [] { FieldsOneByOne(fields[1..]); }
  }

  /** A number before it would end here. */
  predicate Ends(tail: string) {
    tail == [] || !IsNumberChar(tail[0])
  }

  /** A value's text starts with something that is neither space nor a closing bracket. */
  predicate Opens(text: string) {
    text != [] && !IsSpace(text[0]) && text[0] != ']'
  }

  /** Whatever ends it, the text reads back as the value. */
  ghost predicate Prints(j: Json, text: string) {
    Opens(text) && forall tail :: Ends(tail) ==> ReadValue(text + tail) == Some((j, tail))
  }

  lemma SkipNothing(text: string)
    requires text != [] ==> !IsSpace(text[0])
    ensures Skip(text) == text
  {}

  lemma WordPrints(j: Json, word: string)
    requires (j == Null && word == "null") || (j == Bool(true) && word == "true")
      || (j == Bool(false) && word == "false")
    ensures Prints(j, word)
  {
    forall tail | Ends(tail) ensures ReadValue(word + tail) == Some((j, tail)) {
      SkipNothing(word + tail);
      assert (word + tail)[0] == word[0] && (word + tail)[..|word|] == word && (word + tail)[|word|..] == tail;
    }
  }

  lemma {:induction false} LengthOfNumber(literal: string, tail: string)
    requires Ends(tail) && forall i :: 0 <= i < |literal| ==> IsNumberChar(literal[i])
    ensures NumberLength(literal + tail) == |literal|
  {
    if literal == [] {
      assert literal + tail == tail;
    } else {
      assert (literal + tail)[1..] == literal[1..] + tail && (literal + tail)[0] == literal[0];
      LengthOfNumber(literal[1..], tail);
    }
  }

  lemma NumberPrints(literal: NumberText)
    ensures Prints(Number(literal), literal)
  {
    assert literal != [] && IsNumberChar(literal[0]);
    forall tail | Ends(tail) ensures ReadValue(literal + tail) == Some((Number(literal), tail)) {
      var text := literal + tail;
      assert text[0] == literal[0];
      SkipNothing(text);
      LengthOfNumber(literal, tail);
      assert text[..|literal|] == literal && text[|literal|..] == tail;
      hide IsNumber;
    }
  }

  lemma QuoteOpens(text: string)
    requires text != [] && text[0] == '\"'
    ensures ReadValue(text) ==
      var s := ReadString(text[1..]); if s.None? then None else Some((Str(s.value.0), s.value.1))
  {
    SkipNothing(text);
    hide ReadString;
  }

  lemma QuotedTail(s: string, tail: string)
    ensures var text := Quoted(s) + tail;
      text != [] && text[0] == '\"' && text[1..] == Escape(s) + ("\"" + tail)
  {
    hide Escape;
  }

  lemma StringPrints(s: string)
    ensures Prints(Str(s), Quoted(s))
  {
    QuotedTail(s, []);
    assert Quoted(s) + [] == Quoted(s);
    hide ReadValue, ReadString, Escape, Quoted;
    forall tail | Ends(tail) ensures ReadValue(Quoted(s) + tail) == Some((Str(s), tail)) {
      QuotedTail(s, tail);
      QuoteOpens(Quoted(s) + tail);
      StringRoundTrip(s, tail);
    }
  }

  /** Each text prints its value. */
  ghost predicate AllPrint(values: seq<Json>, texts: seq<string>) {
    |values| == |texts| && forall i :: 0 <= i < |texts| ==> Prints(values[i], texts[i])
  }

  lemma ItemRead(j: Json, text: string, tail: string)
    requires Prints(j, text) && tail != [] && !IsSpace(tail[0]) && !IsNumberChar(tail[0])
    ensures ReadValue(text + tail) == Some((j, tail)) && Skip(tail) == tail
  {
    SkipNothing(tail);
    hide ReadValue;
  }

  lemma {:induction false} ItemsRead(values: seq<Json>, texts: seq<string>, tail: string)
    requires AllPrint(values, texts) && texts != []
    ensures ReadItems(Joined(texts) + ("]" + tail)) == Some((values, tail))
    decreases |texts|
  {
    hide Prints, ReadValue;
    var close := "]" + tail;
    if |texts| == 1 {
      ItemRead(values[0], texts[0], close);
      assert close[1..] == tail && values == [values[0]];
    } else {
      var rest := Joined(texts[1..]) + close;
      var next := "," + rest;
      ItemRead(values[0], texts[0], next);
      assert next[1..] == rest;
      assert Joined(texts) + close == texts[0] + next;
      ItemsRead(values[1..], texts[1..], tail);
      assert [values[0]] + values[1..] == values;
    }
  }

  // ----- fields -----

  ghost predicate FieldPrints(f: Field, text: (string, string)) {
    text.0 == f.key && Prints(f.value, text.1)
  }

  /** Each text prints the value of its field, under the same key. */
  ghost predicate FieldsPrint(fields: seq<Field>, texts: seq<(string, string)>) {
    |fields| == |texts| && forall i :: 0 <= i < |texts| ==> FieldPrints(fields[i], texts[i])
  }

  lemma FieldsPrintCons(f: Field, text: (string, string), fields: seq<Field>, texts: seq<(string, string)>)
    requires FieldPrints(f, text) && FieldsPrint(fields, texts)
    ensures FieldsPrint([f] + fields, [text] + texts)
  {
    hide FieldPrints;
  }

  lemma SameKey(f: Field, text: (string, string), g: Field, other: (string, string))
    requires FieldPrints(f, text) && FieldPrints(g, other)
    ensures ByFieldKey(f, g) == ByKey(text, other)
  {
    hide Prints, StringLe;
  }

  /** Sorting texts and fields by key keeps them together. */
  lemma {:induction false} InsertTogether(f: Field, text: (string, string), fields: seq<Field>,
                                          texts: seq<(string, string)>)
    requires FieldsPrint(fields, texts) && FieldPrints(f, text)
    ensures FieldsPrint(Insert(f, fields, ByFieldKey), Insert(text, texts, ByKey))
    decreases |fields|
  {
    hide FieldPrints, ByFieldKey, ByKey;
    if fields != [] {
      SameKey(f, text, fields[0], texts[0]);
      hide FieldsPrint;
      FieldsPrintTail(fields, texts);
      if ByFieldKey(f, fields[0]) {
        FieldsPrintCons(f, text, fields, texts);
      } else {
        InsertTogether(f, text, fields[1..], texts[1..]);
        FieldsPrintCons(fields[0], texts[0], Insert(f, fields[1..], ByFieldKey), Insert(text, texts[1..], ByKey));
      }
    }
  }

  lemma FieldsPrintTail(fields: seq<Field>, texts: seq<(string, string)>)
    requires FieldsPrint(fields, texts) && fields != []
    ensures texts != [] && FieldPrints(fields[0], texts[0]) && FieldsPrint(fields[1..], texts[1..])
  {
    hide FieldPrints;
  }

  lemma {:induction false} SortTogether(fields: seq<Field>, texts: seq<(string, string)>)
    requires FieldsPrint(fields, texts)
    ensures FieldsPrint(SortBy(fields, ByFieldKey), SortBy(texts, ByKey))
    decreases |fields|
  {
    hide FieldPrints, Insert;
    if fields != [] {
      SortTogether(fields[1..], texts[1..]);
      InsertTogether(fields[0], texts[0], SortBy(fields[1..], ByFieldKey), SortBy(texts[1..], ByKey));
    }
  }

  lemma FieldText(key: string, text: string, tail: string)
    ensures var whole := (Quoted(key) + (":" + text)) + tail;
      whole != [] && whole[0] == '\"' && whole[1..] == Escape(key) + ("\"" + (":" + (text + tail)))
  {
    hide Escape;
    var whole := (Quoted(key) + (":" + text)) + tail;
    assert whole == Quoted(key) + (":" + (text + tail));
    QuotedTail(key, ":" + (text + tail));
  }

  /** A field's text, whatever closes or follows it. */
  lemma FieldRead(f: Field, text: string, tail: string)
    requires Prints(f.value, text) && tail != [] && !IsSpace(tail[0]) && !IsNumberChar(tail[0])
    ensures ReadField((Quoted(f.key) + (":" + text)) + tail) == Some((f, tail)) && Skip(tail) == tail
  {
    hide ReadValue, ReadString, Escape, Quoted, StringLe;
    var whole, after := (Quoted(f.key) + (":" + text)) + tail, ":" + (text + tail);
    FieldText(f.key, text, tail);
    SkipNothing(whole);
    StringRoundTrip(f.key, after);
    SkipNothing(after);
    assert after[1..] == text + tail;
    ItemRead(f.value, text, tail);
  }

  lemma {:induction false} FieldsRead(fields: seq<Field>, texts: seq<(string, string)>, tail: string)
    requires FieldsPrint(fields, texts) && texts != []
    ensures ReadFields(Joined(FieldTexts(texts)) + ("}" + tail)) == Some((fields, tail))
    decreases |texts|
  {
    hide Prints, ReadField, Quoted;
    var close, parts := "}" + tail, FieldTexts(texts);
    assert parts[0] == Quoted(texts[0].0) + (":" + texts[0].1) && parts[1..] == FieldTexts(texts[1..]);
    FieldTextsLength(texts);
    if |texts| == 1 {
      FieldRead(fields[0], texts[0].1, close);
      assert close[1..] == tail && fields == [fields[0]];
    } else {
      var rest := Joined(parts[1..]) + close;
      var next := "," + rest;
      FieldRead(fields[0], texts[0].1, next);
      assert next[1..] == rest;
      assert Joined(parts) + close == parts[0] + next;
      FieldsRead(fields[1..], texts[1..], tail);
      assert [fields[0]] + fields[1..] == fields;
    }
  }

  lemma {:induction false} FieldTextsLength(texts: seq<(string, string)>)
    ensures |FieldTexts(texts)| == |texts|
  {
    if texts != [] { FieldTextsLength(texts[1..]); }
  }

  // ----- whole values -----

  /** Bracketed text reads as what is inside. */
  lemma BracketsRead(values: seq<Json>, texts: seq<string>)
    requires AllPrint(values, texts)
    ensures Prints(Array(values), "[" + (Joined(texts) + "]"))
  {
    var text := "[" + (Joined(texts) + "]");
    hide Prints, ReadItems;
    forall tail | Ends(tail) ensures ReadValue(text + tail) == Some((Array(values), tail)) {
      assert text + tail == "[" + (Joined(texts) + ("]" + tail));
      ArrayRead(values, texts, tail);
    }
    PrintsIs(Array(values), text);
  }

  lemma PrintsIs(j: Json, text: string)
    requires Opens(text) && forall tail :: Ends(tail) ==> ReadValue(text + tail) == Some((j, tail))
    ensures Prints(j, text)
  {}

  lemma BracketOpens(text: string)
    requires text != [] && text[0] == '['
    ensures ReadValue(text) ==
      var u := Skip(text[1..]);
      if u != [] && u[0] == ']' then Some((Array([]), u[1..]))
      else var items := ReadItems(text[1..]); if items.None? then None else Some((Array(items.value.0), items.value.1))
  {
    SkipNothing(text);
    hide ReadItems;
  }

  lemma JoinedOpens(values: seq<Json>, texts: seq<string>)
    requires AllPrint(values, texts) && texts != []
    ensures Opens(Joined(texts))
  {
    hide ReadValue;
    assert Prints(values[0], texts[0]);
  }

  lemma ArrayRead(values: seq<Json>, texts: seq<string>, tail: string)
    requires AllPrint(values, texts)
    ensures ReadValue("[" + (Joined(texts) + ("]" + tail))) == Some((Array(values), tail))
  {
    hide Prints, ReadItems, ReadValue;
    var inner := Joined(texts) + ("]" + tail);
    assert ("[" + inner)[1..] == inner;
    BracketOpens("[" + inner);
    if texts == [] {
      assert inner == "]" + tail && inner[1..] == tail && values == [];
      SkipNothing(inner);
    } else {
      ItemsRead(values, texts, tail);
      JoinedOpens(values, texts);
      assert inner[0] == Joined(texts)[0];
      SkipNothing(inner);
    }
  }

  lemma BraceOpens(text: string)
    requires text != [] && text[0] == '{'
    ensures ReadValue(text) ==
      var u := Skip(text[1..]);
      if u != [] && u[0] == '}' then Some((Object([]), u[1..]))
      else var fields := ReadFields(text[1..]);
          if fields.None? then None else Some((Object(fields.value.0), fields.value.1))
  {
    SkipNothing(text);
    hide ReadFields;
  }

  lemma JoinedFieldsOpen(texts: seq<(string, string)>)
    requires texts != []
    ensures Joined(FieldTexts(texts)) != [] && Joined(FieldTexts(texts))[0] == '\"'
  {
    hide Escape;
  }

  lemma ObjectRead(fields: seq<Field>, texts: seq<(string, string)>, tail: string)
    requires FieldsPrint(fields, texts)
    ensures ReadValue("{" + (Joined(FieldTexts(texts)) + ("}" + tail))) == Some((Object(fields), tail))
  {
    hide Prints, ReadFields, ReadValue, FieldTexts;
    var inner := Joined(FieldTexts(texts)) + ("}" + tail);
    assert ("{" + inner)[1..] == inner;
    BraceOpens("{" + inner);
    if texts == [] {
      NoFields();
      assert inner == "}" + tail && inner[1..] == tail && fields == [];
      SkipNothing(inner);
    } else {
      FieldsRead(fields, texts, tail);
      JoinedFieldsOpen(texts);
      assert inner[0] == Joined(FieldTexts(texts))[0];
      SkipNothing(inner);
    }
  }

  lemma NoFields()
    ensures Joined(FieldTexts([])) == []
  {}

  lemma BracesRead(fields: seq<Field>, texts: seq<(string, string)>)
    requires FieldsPrint(fields, texts)
    ensures Prints(Object(fields), "{" + (Joined(FieldTexts(texts)) + "}"))
  {
    var text := "{" + (Joined(FieldTexts(texts)) + "}");
    hide Prints, FieldTexts;
    forall tail | Ends(tail) ensures ReadValue(text + tail) == Some((Object(fields), tail)) {
      assert text + tail == "{" + (Joined(FieldTexts(texts)) + ("}" + tail));
      ObjectRead(fields, texts, tail);
    }
    PrintsIs(Object(fields), text);
  }

  /** Printing a value and reading it back gives the value with its fields in key order, whatever follows. */
  lemma {:induction false} ValueRoundTrip(j: Json)
    requires Dumps(j).Some?
    ensures Prints(KeySorted(j), Dumps(j).value)
  {
    hide Prints;
    match j
    case Null => WordPrints(j, "null");
    case Bool(b) => WordPrints(j, if b then "true" else "false");
    case Number(literal) => NumberPrints(literal);
    case Str(text) => StringPrints(text);
    case Array(items) =>
      ItemsRoundTrip(items);
      BracketsRead(KeySortedAll(items), DumpsAll(items).value);
    case Object(fields) =>
      FieldsRoundTrip(fields);
      SortTogether(KeySortedFields(fields), DumpsFields(fields).value);
      BracesRead(SortBy(KeySortedFields(fields), ByFieldKey), SortBy(DumpsFields(fields).value, ByKey));
  }

  lemma {:induction false} ItemsRoundTrip(items: seq<Json>)
    requires DumpsAll(items).Some?
    ensures AllPrint(KeySortedAll(items), DumpsAll(items).value)
  {
    if items != [] {
      ValueRoundTrip(items[0]);
      ItemsRoundTrip(items[1..]);
      hide Prints, Dumps, KeySorted;
      var texts, sorted := DumpsAll(items).value, KeySortedAll(items);
      assert texts == [Dumps(items[0]).value] + DumpsAll(items[1..]).value;
      assert sorted == [KeySorted(items[0])] + KeySortedAll(items[1..]);
      hide DumpsAll, KeySortedAll;
      assert texts[1..] == DumpsAll(items[1..]).value && sorted[1..] == KeySortedAll(items[1..]);
    }
  }

  lemma {:induction false} FieldsRoundTrip(fields: seq<Field>)
    requires DumpsFields(fields).Some?
    ensures FieldsPrint(KeySortedFields(fields), DumpsFields(fields).value)
  {
    if fields != [] {
      ValueRoundTrip(fields[0].value);
      FieldsRoundTrip(fields[1..]);
      hide Prints, Dumps, KeySorted;
    }
  }

  // ----- bytes -----

  predicate IsContinuation(b: byte) {
    0x80 <= b < 0xC0
  }

  /** The first character and its length; overlong forms, surrogates and codes beyond Unicode are refused. */
  function FirstChar(bytes: seq<byte>): (r: Option<(char, nat)>)
    ensures r.Some? ==> 0 < r.value.1 <= |bytes|
  {
    if bytes == [] then None
    else
      var a := bytes[0] as int;
      if a < 0x80 then Some((a as char, 1))
      else if 0xC2 <= a < 0xE0 && |bytes| > 1 && IsContinuation(bytes[1]) then
        Some((((a - 0xC0) * 0x40 + (bytes[1] as int - 0x80)) as char, 2))
      else if 0xE0 <= a < 0xF0 && |bytes| > 2 && IsContinuation(bytes[1]) && IsContinuation(bytes[2]) then
        var n := ((a - 0xE0) * 0x40 + (bytes[1] as int - 0x80)) * 0x40 + (bytes[2] as int - 0x80);
        if n < 0x800 || 0xD800 <= n < 0xE000 then None else Some((n as char, 3))
      else if 0xF0 <= a < 0xF5 && |bytes| > 3 && IsContinuation(bytes[1]) && IsContinuation(bytes[2])
          && IsContinuation(bytes[3]) then
        var n := (((a - 0xF0) * 0x40 + (bytes[1] as int - 0x80)) * 0x40 + (bytes[2] as int - 0x80)) * 0x40
            + (bytes[3] as int - 0x80);
        if n < 0x1_0000 || n >= 0x11_0000 then None else Some((n as char, 4))
      else None
  }

  function DecodeUtf8(bytes: seq<byte>): Option<string>
    decreases |bytes|
  {
    if bytes == [] then Some([])
    else
      var first := FirstChar(bytes);
      if first.None? then None
      else
        var rest := DecodeUtf8(bytes[first.value.1..]);
        if rest.None? then None else Some([first.value.0] + rest.value)
  }

  /** A code is put together again from its digits to base 64. */
  lemma Base64(n: nat)
    ensures n == n / 0x40 * 0x40 + n % 0x40 && 0 <= n % 0x40 < 0x40
    ensures n / 0x1000 == n / 0x40 / 0x40 && n / 0x4_0000 == n / 0x1000 / 0x40
  {}

  lemma OneByte(c: char, tail: seq<byte>)
    requires c as int < 0x80
    ensures FirstChar(Utf8Char(c) + tail) == Some((c, |Utf8Char(c)|))
  {}

  lemma TwoBytes(c: char, tail: seq<byte>)
    requires 0x80 <= c as int < 0x800
    ensures FirstChar(Utf8Char(c) + tail) == Some((c, |Utf8Char(c)|))
  {
    Base64(c as nat);
  }

  lemma ThreeBytes(c: char, tail: seq<byte>)
    requires 0x800 <= c as int < 0x1_0000
    ensures FirstChar(Utf8Char(c) + tail) == Some((c, |Utf8Char(c)|))
  {
    Base64(c as nat);
    Base64(c as nat / 0x40);
  }

  lemma FourBytes(c: char, tail: seq<byte>)
    requires 0x1_0000 <= c as int
    ensures FirstChar(Utf8Char(c) + tail) == Some((c, |Utf8Char(c)|))
  {
    Base64(c as nat);
    Base64(c as nat / 0x40);
    Base64(c as nat / 0x1000);
  }

  lemma CharRoundTrip(c: char, tail: seq<byte>)
    ensures FirstChar(Utf8Char(c) + tail) == Some((c, |Utf8Char(c)|))
  {
    hide FirstChar, Utf8Char;
    var n := c as int;
    if n < 0x80 { OneByte(c, tail); }
    else if n < 0x800 { TwoBytes(c, tail); }
    else if n < 0x1_0000 { ThreeBytes(c, tail); }
    else { FourBytes(c, tail); }
  }

  lemma {:induction false} Utf8RoundTrip(text: string)
    ensures DecodeUtf8(Utf8(text)) == Some(text)
  {
    if text != [] {
      var first, rest := Utf8Char(text[0]), Utf8(text[1..]);
      CharRoundTrip(text[0], rest);
      Utf8RoundTrip(text[1..]);
      assert (first + rest)[|first|..] == rest && [text[0]] + text[1..] == text;
      hide FirstChar, Utf8Char;
    }
  }

  /** Only the one encoding of a character is decoded. */
  lemma FirstCharStrict(bytes: seq<byte>)
    requires FirstChar(bytes).Some?
    ensures var (c, n) := FirstChar(bytes).value; bytes[..n] == Utf8Char(c)
  {
    var a := bytes[0] as int;
    if a < 0x80 {
    } else if a < 0xE0 {
      TwoBytesStrict(a, bytes[1] as int);
    } else if a < 0xF0 {
      ThreeBytesStrict(a, bytes[1] as int, bytes[2] as int);
    } else {
      FourBytesStrict(a, bytes[1] as int, bytes[2] as int, bytes[3] as int);
    }
  }

  lemma TwoBytesStrict(a: int, b: int)
    requires 0xC2 <= a < 0xE0 && 0x80 <= b < 0xC0
    ensures var n := (a - 0xC0) * 0x40 + (b - 0x80);
      0x80 <= n < 0x800 && 0xC0 + n / 0x40 == a && 0x80 + n % 0x40 == b
  {}

  lemma ThreeBytesStrict(a: int, b: int, c: int)
    requires 0xE0 <= a < 0xF0 && 0x80 <= b < 0xC0 && 0x80 <= c < 0xC0
    ensures var n := ((a - 0xE0) * 0x40 + (b - 0x80)) * 0x40 + (c - 0x80);
      0 <= n < 0x1_0000 && 0xE0 + n / 0x1000 == a && 0x80 + n / 0x40 % 0x40 == b && 0x80 + n % 0x40 == c
  {}

  lemma FourBytesStrict(a: int, b: int, c: int, d: int)
    requires 0xF0 <= a < 0xF5 && 0x80 <= b < 0xC0 && 0x80 <= c < 0xC0 && 0x80 <= d < 0xC0
    ensures var n := (((a - 0xF0) * 0x40 + (b - 0x80)) * 0x40 + (c - 0x80)) * 0x40 + (d - 0x80);
      && 0 <= n && 0xF0 + n / 0x4_0000 == a && 0x80 + n / 0x1000 % 0x40 == b && 0x80 + n / 0x40 % 0x40 == c
      && 0x80 + n % 0x40 == d
  {}

  /** Decoding accepts nothing but encodings: what was decoded encodes back to the same bytes. */
  lemma {:induction false} DecodedEncodes(bytes: seq<byte>)
    requires DecodeUtf8(bytes).Some?
    ensures Utf8(DecodeUtf8(bytes).value) == bytes
    decreases |bytes|
  {
    if bytes != [] {
      var (c, n) := FirstChar(bytes).value;
      FirstCharStrict(bytes);
      DecodedEncodes(bytes[n..]);
      assert bytes == bytes[..n] + bytes[n..];
      assert DecodeUtf8(bytes).value[1..] == DecodeUtf8(bytes[n..]).value;
      hide FirstChar, Utf8Char;
    }
  }

  // ----- lines -----

  /** The object a line holds, if it is UTF-8 text of one JSON object. */
  function ParseLine(line: seq<byte>): Option<Json> {
    var text := DecodeUtf8(line);
    if text.None? then None
    else
      var value := ReadValue(text.value);
      if value.None? || Skip(value.value.1) != [] || !value.value.0.Object? then None else Some(value.value.0)
  }

  /** A line that is read is the encoding of one object followed by whitespace only. */
  lemma LineIsOneObject(line: seq<byte>) returns (text: string, rest: string)
    requires ParseLine(line).Some?
    ensures Utf8(text) == line && ParseLine(line).value.Object?
    ensures ReadValue(text) == Some((ParseLine(line).value, rest)) && forall c :: c in rest ==> IsSpace(c)
  {
    hide ReadValue, Utf8, DecodeUtf8;
    text := DecodeUtf8(line).value;
    DecodedEncodes(line);
    rest := ReadValue(text).value.1;
    OnlySpaceSkipped(rest);
  }

  lemma {:induction false} OnlySpaceSkipped(text: string)
    requires Skip(text) == []
    ensures forall c :: c in text ==> IsSpace(c)
  {
    if text != [] {
      OnlySpaceSkipped(text[1..]);
      assert text == [text[0]] + text[1..];
    }
  }

  lemma {:induction false} Utf8Line(text: string)
    ensures Utf8(text + "\n") == Utf8(text) + [LINE_FEED]
  {
    if text == [] {
      assert text + "\n" == "\n" && "\n"[1..] == [];
    } else {
      assert (text + "\n")[1..] == text[1..] + "\n";
      Utf8Line(text[1..]);
      hide Utf8Char;
    }
  }

  lemma LineFeedEnds()
    ensures Ends("\n") && Skip("\n") == []
  {}

  /** A relayed record reads back as its payload with sorted keys. */
  lemma RecordRoundTrip(fields: seq<Field>)
    requires Record(Object(fields)).Some?
    ensures ParseLine(Record(Object(fields)).value) == Some(KeySorted(Object(fields)))
  {
    var text := Dumps(Object(fields)).value;
    Utf8Line(text);
    Utf8RoundTrip(text + "\n");
    ValueRoundTrip(Object(fields));
    LineFeedEnds();
    hide ReadValue, Utf8, DecodeUtf8, Skip, Ends, Dumps;
  }
}
