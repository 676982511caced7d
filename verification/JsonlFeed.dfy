/** The incremental reader of an append-only feed of JSON lines. */
module JsonlFeed {
  import opened Prelude
  import opened JsonText

  // ----- lines -----

  /** Complete lines, each with its line feed. */
  datatype Lines = NoLines | Line(text: seq<byte>, rest: Lines)

  /** The position just after the first line feed at or after `from`. */
  function LineEnd(bytes: seq<byte>, from: nat): (end: Option<nat>)
    requires from <= |bytes|
    ensures end.Some? ==> from < end.value <= |bytes| && bytes[end.value - 1] == LINE_FEED
                          && forall i :: from <= i < end.value - 1 ==> bytes[i] != LINE_FEED
    ensures end.None? ==> forall i :: from <= i < |bytes| ==> bytes[i] != LINE_FEED
    decreases |bytes| - from
  {
    if from == |bytes| then None
    else if bytes[from] == LINE_FEED then Some(from + 1)
    else LineEnd(bytes, from + 1)
  }

  /** The complete lines from a position on; what follows the last line feed is not a line yet. */
  function LinesFrom(bytes: seq<byte>, from: nat): Lines
    requires from <= |bytes|
    decreases |bytes| - from
  {
    var end := LineEnd(bytes, from);
    if end.None? then NoLines else Line(bytes[from..end.value], LinesFrom(bytes, end.value))
  }

  function Count(lines: Lines): nat {
    if lines.NoLines? then 0 else 1 + Count(lines.rest)
  }

  function Take(lines: Lines, k: nat): Lines {
    if k == 0 || lines.NoLines? then NoLines else Line(lines.text, Take(lines.rest, k - 1))
  }

  function Drop(lines: Lines, k: nat): Lines {
    if k == 0 || lines.NoLines? then lines else Drop(lines.rest, k - 1)
  }

  /** What a line means: `None` if it is not a UTF-8 JSON object. */
  type Parse = seq<byte> -> Option<Json>

  /** The payloads of valid lines; `None` if any line is invalid. */
  function Parsed(lines: Lines, parse: Parse): Option<seq<Json>> {
    match lines
    case NoLines => Some([])
    case Line(text, rest) =>
      var payload, others := parse(text), Parsed(rest, parse);
      if payload.None? || others.None? then None else Some([payload.value] + others.value)
  }

  // ----- the reader -----

  /** A file that may not exist yet. */
  datatype Feed = Missing | File(bytes: seq<byte>)

  datatype Answer = Payload(value: Json) | Exhausted | InvalidRecord | FeedVanished | FeedTruncated

  datatype Reader = Reader(offset: nat, consumed: bool)

  /** `next_payload`: what it answers and where it leaves the reader. */
  function Next(r: Reader, feed: Feed, parse: Parse): (Answer, Reader) {
    match feed
    case Missing => (if r.consumed then FeedVanished else Exhausted, r)
    case File(bytes) =>
      if r.offset > 0 && |bytes| < r.offset then (FeedTruncated, r)
      else if r.offset > |bytes| then (Exhausted, r)
      else
        var end := LineEnd(bytes, r.offset);
        if end.None? then (Exhausted, r)
        else
          var payload := parse(bytes[r.offset..end.value]);
          if payload.None? then (InvalidRecord, r) else (Payload(payload.value), Reader(end.value, true))
  }

  /** What a read answers, and that only a delivered payload moves the reader. */
  lemma NextExactly(r: Reader, feed: Feed, parse: Parse)
    ensures var (answer, next) := Next(r, feed, parse);
      && (answer == FeedVanished <==> feed == Missing && r.consumed)
      && (answer == FeedTruncated <==> feed.File? && |feed.bytes| < r.offset)
      && (answer == Exhausted <==>
            || (feed == Missing && !r.consumed)
            || (feed.File? && r.offset <= |feed.bytes| && LINE_FEED !in feed.bytes[r.offset..]))
      && (!answer.Payload? ==> next == r)
      && (answer.Payload? ==>
            && feed.File? && next.consumed && IsLine(feed.bytes, r.offset, next.offset)
            && parse(feed.bytes[r.offset..next.offset]) == Some(answer.value))
      && (answer.InvalidRecord? ==> feed.File? && exists end: nat :: InvalidLine(feed.bytes, r.offset, end, parse))
  {
    if feed.File? && r.offset <= |feed.bytes| {
      var end := LineEnd(feed.bytes, r.offset);
      if end.Some? {
        assert IsLine(feed.bytes, r.offset, end.value);
        assert parse(feed.bytes[r.offset..end.value]).None? ==> InvalidLine(feed.bytes, r.offset, end.value, parse);
        assert feed.bytes[r.offset..][end.value - 1 - r.offset] == LINE_FEED;
      }
      hide LineEnd;
    }
  }

  /** One line of the feed from a position on, up to and with its first line feed. */
  predicate IsLine(bytes: seq<byte>, from: nat, end: nat) {
    && from < end <= |bytes| && bytes[end - 1] == LINE_FEED
    && forall i :: from <= i < end - 1 ==> bytes[i] != LINE_FEED
  }

  predicate InvalidLine(bytes: seq<byte>, from: nat, end: nat, parse: Parse) {
    IsLine(bytes, from, end) && parse(bytes[from..end]).None?
  }

  class Source {
    const parse: Parse
    var offset: nat
    var consumed: bool

    ghost function Value(): Reader
      reads this
    {
      Reader(offset, consumed)
    }

    constructor (parse: Parse)
      ensures Value() == Reader(0, false) && this.parse == parse
    {
      this.parse, offset, consumed := parse, 0, false;
    }

    /** `file.readline` from the offset. */
    method ReadLine(bytes: seq<byte>, from: nat) returns (line: seq<byte>, next: nat)
      requires from <= |bytes|
      ensures var end := LineEnd(bytes, from);
        if end.Some? then next == end.value && line == bytes[from..next]
        else next == |bytes| && line == bytes[from..] && LINE_FEED !in line
    {
      next := from;
      while next < |bytes|
        invariant from <= next <= |bytes| && LineEnd(bytes, next) == LineEnd(bytes, from)
      {
        next := next + 1;
        if bytes[next - 1] == LINE_FEED {
          return bytes[from..next], next;
        }
      }
      line := bytes[from..];
    }

    method NextPayload(feed: Feed) returns (answer: Answer)
      modifies this
      ensures (answer, Value()) == Next(old(Value()), feed, parse)
    {
      if feed.Missing? {
        return if consumed then FeedVanished else Exhausted;
      }
      if offset > 0 && |feed.bytes| < offset { return FeedTruncated; }
      if offset > |feed.bytes| { return Exhausted; }
      var line, next := ReadLine(feed.bytes, offset);
      if line == [] || line[|line| - 1] != LINE_FEED { return Exhausted; }
      var payload := parse(line);
      if payload.None? { return InvalidRecord; }
      offset, consumed := next, true;
      return Payload(payload.value);
    }
  }

  // ----- appends and reads in any order -----

  /** A writer's append of any bytes, complete lines or not, or one read. */
  datatype Op = Append(chunk: seq<byte>) | Read

  datatype State = State(feed: Feed, reader: Reader, delivered: seq<Json>, answers: seq<Answer>)

  function Bytes(feed: Feed): seq<byte> {
    if feed.Missing? then [] else feed.bytes
  }

  function After(s: State, op: Op, parse: Parse): State {
    match op
    case Append(chunk) => s.(feed := File(Bytes(s.feed) + chunk))
    case Read =>
      var (answer, reader) := Next(s.reader, s.feed, parse);
      s.(reader := reader, answers := s.answers + [answer],
         delivered := if answer.Payload? then s.delivered + [answer.value] else s.delivered)
  }

  function Run(s: State, ops: seq<Op>, parse: Parse): State
    decreases |ops|
  {
    if ops == [] then s else Run(After(s, ops[0], parse), ops[1..], parse)
  }

  /** Where the first `k` lines from `from` on end. */
  function Boundary(bytes: seq<byte>, from: nat, k: nat): (b: nat)
    requires from <= |bytes| && k <= Count(LinesFrom(bytes, from))
    ensures from <= b <= |bytes| && (b > from ==> bytes[b - 1] == LINE_FEED)
    decreases k
  {
    if k == 0 then from else Boundary(bytes, LineEnd(bytes, from).value, k - 1)
  }

  /** Delivered so far: exactly the first lines of the feed, each once and in order; the offset is where they end. */
  predicate InStep(s: State, parse: Parse) {
    var bytes, k := Bytes(s.feed), |s.delivered|;
    var all := LinesFrom(bytes, 0);
    && k <= Count(all) && s.reader.offset == Boundary(bytes, 0, k)
    && Parsed(Take(all, k), parse) == Some(s.delivered)
    && (s.reader.consumed ==> s.feed.File?)
  }

  // ----- appending -----

  lemma LineEndAppended(bytes: seq<byte>, chunk: seq<byte>, from: nat)
    requires from <= |bytes| && LineEnd(bytes, from).Some?
    ensures LineEnd(bytes + chunk, from) == LineEnd(bytes, from)
  {
    var a, b := LineEnd(bytes, from), LineEnd(bytes + chunk, from);
    assert (bytes + chunk)[a.value - 1] == LINE_FEED;
    assert forall i :: from <= i < a.value - 1 ==> (bytes + chunk)[i] != LINE_FEED;
  }

  lemma FirstLine(bytes: seq<byte>, from: nat)
    requires from <= |bytes|
    ensures var end := LineEnd(bytes, from);
      LinesFrom(bytes, from) == if end.None? then NoLines else Line(bytes[from..end.value], LinesFrom(bytes, end.value))
  {}

  /** Appending changes neither the first lines of a feed nor where they end. */
  lemma {:induction false} FirstLinesStay(bytes: seq<byte>, chunk: seq<byte>, from: nat, k: nat)
    requires from <= |bytes| && k <= Count(LinesFrom(bytes, from))
    ensures k <= Count(LinesFrom(bytes + chunk, from)) && Boundary(bytes + chunk, from, k) == Boundary(bytes, from, k)
    ensures Take(LinesFrom(bytes + chunk, from), k) == Take(LinesFrom(bytes, from), k)
    decreases k
  {
    hide LinesFrom, LineEnd;
    if k > 0 {
      FirstLine(bytes, from);
      FirstLine(bytes + chunk, from);
      var end := LineEnd(bytes, from).value;
      LineEndAppended(bytes, chunk, from);
      assert (bytes + chunk)[from..end] == bytes[from..end];
      FirstLinesStay(bytes, chunk, end, k - 1);
    }
  }

  lemma AppendInStep(s: State, chunk: seq<byte>, parse: Parse)
    requires InStep(s, parse)
    ensures InStep(After(s, Append(chunk), parse), parse)
  {
    hide Boundary, LinesFrom, Parsed, Take, Count;
    FirstLinesStay(Bytes(s.feed), chunk, 0, |s.delivered|);
  }

  // ----- reading -----

  /** The line at the boundary after `k` lines is line number `k`. */
  lemma {:induction false} NextLine(bytes: seq<byte>, from: nat, k: nat)
    requires from <= |bytes| && k <= Count(LinesFrom(bytes, from))
    ensures LinesFrom(bytes, Boundary(bytes, from, k)) == Drop(LinesFrom(bytes, from), k)
    ensures LineEnd(bytes, Boundary(bytes, from, k)).Some? ==>
      && k < Count(LinesFrom(bytes, from))
      && Boundary(bytes, from, k + 1) == LineEnd(bytes, Boundary(bytes, from, k)).value
    decreases k
  {
    if k > 0 {
      NextLine(bytes, LineEnd(bytes, from).value, k - 1);
    }
  }

  lemma {:induction false} ParsedNext(lines: Lines, k: nat, parse: Parse)
    requires k < Count(lines) && Parsed(Take(lines, k), parse).Some?
    ensures Drop(lines, k).Line?
    ensures var payload := parse(Drop(lines, k).text);
      Parsed(Take(lines, k + 1), parse) == if payload.None? then None
          else Some(Parsed(Take(lines, k), parse).value + [payload.value])
    decreases k
  {
    if k == 0 {
      assert Take(lines, 1) == Line(lines.text, Take(lines.rest, 0));
      var payload, none := parse(lines.text), Parsed(Take(lines.rest, 0), parse);
      assert none == Parsed(Take(lines, 0), parse) == Some([]);
      assert Drop(lines, 0) == lines;
      if payload.Some? { assert [payload.value] + none.value == none.value + [payload.value]; }
    } else {
      ParsedNext(lines.rest, k - 1, parse);
      assert Take(lines, k + 1) == Line(lines.text, Take(lines.rest, k));
      var first, front, payload := parse(lines.text), Parsed(Take(lines.rest, k - 1), parse),
          parse(Drop(lines, k).text);
      if payload.Some? {
        assert [first.value] + (front.value + [payload.value]) == ([first.value] + front.value) + [payload.value];
      }
    }
  }

  lemma ReadInStep(s: State, parse: Parse)
    requires InStep(s, parse)
    ensures InStep(After(s, Read, parse), parse)
    ensures var answer := Next(s.reader, s.feed, parse).0;
      && !answer.FeedVanished? && !answer.FeedTruncated?
      && (answer.Exhausted? <==> LinesFrom(Bytes(s.feed), s.reader.offset).NoLines?)
  {
    var bytes, k := Bytes(s.feed), |s.delivered|;
    NextLine(bytes, 0, k);
    var answer := Next(s.reader, s.feed, parse).0;
    if answer.Payload? { ParsedNext(LinesFrom(bytes, 0), k, parse); }
    hide Boundary, Take, Drop, Parsed, Count;
  }

  /** Under any interleaving of appends and reads. */
  lemma {:induction false} RunInStep(s: State, ops: seq<Op>, parse: Parse)
    requires InStep(s, parse)
    ensures InStep(Run(s, ops, parse), parse)
    decreases |ops|
  {
    hide InStep, After;
    if ops != [] {
      if ops[0].Append? {
        AppendInStep(s, ops[0].chunk, parse);
        assert ops[0] == Append(ops[0].chunk);
      } else {
        ReadInStep(s, parse);
        assert ops[0] == Read;
      }
      RunInStep(After(s, ops[0], parse), ops[1..], parse);
    }
  }

  /**
   * From a fresh reader on any feed: the payloads delivered are exactly those of the first lines
   * of the feed, and the offset is where the last of these lines ends.
   */
  lemma DeliversFirstLines(feed: Feed, ops: seq<Op>, parse: Parse)
    ensures var s := Run(State(feed, Reader(0, false), [], []), ops, parse);
      var all, k := LinesFrom(Bytes(s.feed), 0), |s.delivered|;
      && k <= Count(all) && Parsed(Take(all, k), parse) == Some(s.delivered)
      && s.reader.offset == Boundary(Bytes(s.feed), 0, k)
  {
    var s := State(feed, Reader(0, false), [], []);
    assert InStep(s, parse);
    hide Run;
    RunInStep(s, ops, parse);
  }

  // ----- an invalid line -----

  /** The next complete line is invalid. */
  predicate AtInvalid(s: State, parse: Parse) {
    var bytes := Bytes(s.feed);
    && s.reader.offset <= |bytes| && LineEnd(bytes, s.reader.offset).Some?
    && parse(bytes[s.reader.offset..LineEnd(bytes, s.reader.offset).value]).None?
  }

  lemma InvalidStays(s: State, op: Op, parse: Parse)
    requires AtInvalid(s, parse)
    ensures var t := After(s, op, parse);
      && AtInvalid(t, parse) && t.reader == s.reader && t.delivered == s.delivered
      && (op.Read? ==> t.answers == s.answers + [InvalidRecord])
  {
    if op.Append? {
      var bytes, from := Bytes(s.feed), s.reader.offset;
      LineEndAppended(bytes, op.chunk, from);
      assert (bytes + op.chunk)[from..LineEnd(bytes, from).value] == bytes[from..LineEnd(bytes, from).value];
    }
  }

  /** Nothing after an invalid line is ever delivered. */
  lemma {:induction false} NothingAfterInvalid(s: State, ops: seq<Op>, parse: Parse)
    requires AtInvalid(s, parse)
    ensures Run(s, ops, parse).delivered == s.delivered && Run(s, ops, parse).reader == s.reader
    decreases |ops|
  {
    if ops != [] {
      InvalidStays(s, ops[0], parse);
      hide AtInvalid, After;
      NothingAfterInvalid(After(s, ops[0], parse), ops[1..], parse);
    }
  }

  // ----- relayed records -----

  /** A record appended to a feed that ends on a line boundary is exactly one more line. */
  lemma RecordIsNextLine(bytes: seq<byte>, payload: Json)
    requires Record(payload).Some?
    ensures var feed, end := bytes + Record(payload).value, |bytes|;
      LineEnd(feed, end) == Some(|feed|) && feed[end..] == Record(payload).value
  {
    RecordIsOneLine(payload);
    hide Record, LineEnd;
    LineAppended(bytes, Record(payload).value);
  }

  lemma {:induction false} LineEndIs(bytes: seq<byte>, from: nat, end: nat)
    requires from < end <= |bytes| && bytes[end - 1] == LINE_FEED
    requires forall i :: from <= i < end - 1 ==> bytes[i] != LINE_FEED
    ensures LineEnd(bytes, from) == Some(end)
    decreases end - from
  {
    if from < end - 1 { LineEndIs(bytes, from + 1, end); }
  }

  lemma LineAppended(bytes: seq<byte>, line: seq<byte>)
    requires line != [] && line[|line| - 1] == LINE_FEED && forall i :: 0 <= i < |line| - 1 ==> line[i] != LINE_FEED
    ensures LineEnd(bytes + line, |bytes|) == Some(|bytes + line|) && (bytes + line)[|bytes|..] == line
  {
    hide LineEnd;
    var feed := bytes + line;
    forall i | |bytes| <= i < |feed| - 1 ensures feed[i] != LINE_FEED {
      assert feed[i] == line[i - |bytes|];
    }
    LineEndIs(feed, |bytes|, |feed|);
  }
}
