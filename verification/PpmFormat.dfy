/**
 * The binary PPM printer and its two readers
 * (src/fh_agent/perception/screen_capture.py, subprocess_capture.py and visual_hash.py),
 * after the raw P6 layout of the Netpbm PPM specification.
 */
module PpmFormat {
  import opened Prelude
  import opened IntegerTokens
  import opened ScreenFrames

  const SPACE: byte := 32
  const NEWLINE: byte := 10
  const RETURN: byte := 13
  const HASH: byte := 35
  const MAGIC: seq<byte> := [80, 54]
  const MAX_VALUE: seq<byte> := [50, 53, 53]

  // ----- the printer -----

  /** `to_ppm_bytes`. */
  function ToPpm(frame: Frame): seq<byte> {
    MAGIC + ([NEWLINE] + (Digits(frame.width)
        + ([SPACE] + (Digits(frame.height) + ([NEWLINE] + (MAX_VALUE + ([NEWLINE] + frame.rgb)))))))
  }

  // ----- the capture reader, `_parse_binary_ppm` -----

  datatype PpmError =
    | UnterminatedComment | IncompleteHeader | EmptyToken | BadMagic | NotIntegers | UnsupportedHeader
        | MissingSeparator | WrongRasterSize
    | InvalidHeader | UnsupportedKind

  predicate EndsToken(b: byte) {
    IsWhitespace(b) || b == HASH
  }

  /** `payload.find(b, start)`. */
  function Find(payload: seq<byte>, b: byte, start: nat): (r: Option<nat>)
    ensures r.Some? ==> start <= r.value < |payload| && payload[r.value] == b
    ensures r.Some? ==> forall i :: start <= i < r.value ==> payload[i] != b
    ensures r.None? ==> forall i :: start <= i < |payload| ==> payload[i] != b
    decreases |payload| - start
  {
    if start >= |payload| then None
    else if payload[start] == b then Some(start)
    else Find(payload, b, start + 1)
  }

  /** The cursor after all whitespace and comments from `cursor` on. */
  function SpacingEnd(payload: seq<byte>, cursor: nat): (r: Result<nat, PpmError>)
    ensures r.Ok? ==> r.value >= cursor && (cursor <= |payload| ==> r.value <= |payload|)
    decreases |payload| - cursor
  {
    if cursor < |payload| && IsWhitespace(payload[cursor]) then SpacingEnd(payload, cursor + 1)
    else if cursor >= |payload| || payload[cursor] != HASH then Ok(cursor)
    else
      var newline := Find(payload, NEWLINE, cursor);
      if newline.None? then Err(UnterminatedComment) else SpacingEnd(payload, newline.value + 1)
  }

  function TokenEnd(payload: seq<byte>, cursor: nat): (r: nat)
    ensures r >= cursor && (cursor <= |payload| ==> r <= |payload|)
    decreases |payload| - cursor
  {
    if cursor < |payload| && !EndsToken(payload[cursor]) then TokenEnd(payload, cursor + 1) else cursor
  }

  datatype Token = Token(text: seq<byte>, end: nat)

  function NextToken(payload: seq<byte>, cursor: nat): (r: Result<Token, PpmError>)
    requires cursor <= |payload|
    ensures r.Ok? ==> r.value.end <= |payload|
  {
    var start := SpacingEnd(payload, cursor);
    if start.Err? then Err(start.error)
    else if start.value >= |payload| then Err(IncompleteHeader)
    else
      var end := TokenEnd(payload, start.value);
      if end == start.value then Err(EmptyToken) else Ok(Token(payload[start.value..end], end))
  }

  /** What follows the four tokens: their checks in order, the separator, the raster. */
  function ParseBody(magic: seq<byte>, width: seq<byte>, height: seq<byte>, maxValue: seq<byte>,
                     tail: seq<byte>): Result<Frame, PpmError> {
    var w, h, m := ParseInt(width), ParseInt(height), ParseInt(maxValue);
    if magic != MAGIC then Err(BadMagic)
    else if w.None? || h.None? || m.None? then Err(NotIntegers)
    else if w.value <= 0 || h.value <= 0 || m.value != 255 then Err(UnsupportedHeader)
    else if tail == [] || !IsWhitespace(tail[0]) then Err(MissingSeparator)
    else
      var rgb := if tail[0] == RETURN && |tail| > 1 && tail[1] == NEWLINE then tail[2..] else tail[1..];
      if |rgb| != w.value * h.value * 3 then Err(WrongRasterSize) else Ok(Frame(w.value, h.value, rgb))
  }

  function ParseBinary(payload: seq<byte>): Result<Frame, PpmError> {
    var magic := NextToken(payload, 0);
    if magic.Err? then Err(magic.error)
    else
      var width := NextToken(payload, magic.value.end);
      if width.Err? then Err(width.error)
      else
        var height := NextToken(payload, width.value.end);
        if height.Err? then Err(height.error)
        else
          var maxValue := NextToken(payload, height.value.end);
          if maxValue.Err? then Err(maxValue.error)
          else ParseBody(magic.value.text, width.value.text, height.value.text, maxValue.value.text,
              payload[maxValue.value.end..])
  }

  /** `_skip_header_spacing`, with its cursor. */
  method SkipHeaderSpacing(payload: seq<byte>, start: nat) returns (r: Result<nat, PpmError>)
    requires start <= |payload|
    ensures r == SpacingEnd(payload, start)
  {
    var cursor := start;
    while true
      invariant cursor <= |payload| && SpacingEnd(payload, cursor) == SpacingEnd(payload, start)
      decreases |payload| - cursor
    {
      ghost var entered := cursor;
      while cursor < |payload| && IsWhitespace(payload[cursor])
        invariant entered <= cursor <= |payload| && SpacingEnd(payload, cursor) == SpacingEnd(payload, start)
      {
        cursor := cursor + 1;
      }
      if cursor >= |payload| || payload[cursor] != HASH { return Ok(cursor); }
      var newline := Find(payload, NEWLINE, cursor);
      if newline.None? { return Err(UnterminatedComment); }
      cursor := newline.value + 1;
    }
  }

  /** `_read_header_token`. */
  method ReadHeaderToken(payload: seq<byte>, from: nat) returns (r: Result<Token, PpmError>)
    requires from <= |payload|
    ensures r == NextToken(payload, from)
  {
    var skipped := SkipHeaderSpacing(payload, from);
    if skipped.Err? { return Err(skipped.error); }
    var start := skipped.value;
    if start >= |payload| { return Err(IncompleteHeader); }
    var cursor := start;
    while cursor < |payload| && !EndsToken(payload[cursor])
      invariant start <= cursor <= |payload| && TokenEnd(payload, cursor) == TokenEnd(payload, start)
    {
      cursor := cursor + 1;
    }
    if cursor == start { return Err(EmptyToken); }
    return Ok(Token(payload[start..cursor], cursor));
  }

  /** `_parse_binary_ppm`. */
  method ParseBinaryPpm(payload: seq<byte>) returns (r: Result<Frame, PpmError>)
    ensures r == ParseBinary(payload)
  {
    hide NextToken, ParseBody;
    var magic := ReadHeaderToken(payload, 0);
    if magic.Err? { return Err(magic.error); }
    var width := ReadHeaderToken(payload, magic.value.end);
    if width.Err? { return Err(width.error); }
    var height := ReadHeaderToken(payload, width.value.end);
    if height.Err? { return Err(height.error); }
    var maxValue := ReadHeaderToken(payload, height.value.end);
    if maxValue.Err? { return Err(maxValue.error); }
    return ParseBody(magic.value.text, width.value.text, height.value.text, maxValue.value.text,
        payload[maxValue.value.end..]);
  }

  // ----- spacing makes no difference -----

  /** A run of whitespace bytes and of comments, each from `#` to its newline. */
  predicate IsSpacing(run: seq<byte>)
    decreases |run|
  {
    if run == [] then true
    else if IsWhitespace(run[0]) then IsSpacing(run[1..])
    else run[0] == HASH && var newline := Find(run, NEWLINE, 0); newline.Some? && IsSpacing(run[newline.value + 1..])
  }

  predicate IsToken(text: seq<byte>) {
    text != [] && forall i :: 0 <= i < |text| ==> !EndsToken(text[i])
  }

  /** The bytes right after a token end it. */
  predicate Terminates(tail: seq<byte>) {
    tail == [] || EndsToken(tail[0])
  }

  lemma {:induction false} FindInside(payload: seq<byte>, b: byte, cursor: nat, run: seq<byte>, k: nat)
    requires cursor + |run| <= |payload| && payload[cursor..cursor + |run|] == run
    requires k < |run| && run[k] == b && forall i :: 0 <= i < k ==> run[i] != b
    ensures Find(payload, b, cursor) == Some(cursor + k)
  {
    assert payload[cursor + k] == run[k];
    forall i | cursor <= i < cursor + k ensures payload[i] != b {
      assert payload[i] == run[i - cursor];
    }
  }

  lemma RunTail(payload: seq<byte>, cursor: nat, run: seq<byte>, k: nat)
    requires cursor + |run| <= |payload| && payload[cursor..cursor + |run|] == run && k <= |run|
    ensures |run[k..]| == |run| - k && payload[cursor + k..cursor + k + |run[k..]|] == run[k..]
  {}

  lemma NoSpacing(payload: seq<byte>, cursor: nat)
    requires cursor < |payload| && !EndsToken(payload[cursor])
    ensures SpacingEnd(payload, cursor) == Ok(cursor)
  {}

  /** One step of skipping: a whitespace byte, or a comment up to its newline. */
  lemma SkipStep(payload: seq<byte>, cursor: nat, run: seq<byte>) returns (k: nat)
    requires cursor + |run| < |payload| && payload[cursor..cursor + |run|] == run && run != [] && IsSpacing(run)
    ensures 0 < k <= |run| && IsSpacing(run[k..]) && SpacingEnd(payload, cursor) == SpacingEnd(payload, cursor + k)
  {
    assert payload[cursor] == run[0];
    if IsWhitespace(run[0]) {
      k := 1;
    } else {
      var newline := Find(run, NEWLINE, 0).value;
      FindInside(payload, NEWLINE, cursor, run, newline);
      k := newline + 1;
    }
  }

  /** Skipping consumes exactly the run when a token follows. */
  lemma {:induction false} SkipsRun(payload: seq<byte>, cursor: nat, run: seq<byte>)
    requires cursor + |run| < |payload| && payload[cursor..cursor + |run|] == run
    requires IsSpacing(run) && !EndsToken(payload[cursor + |run|])
    ensures SpacingEnd(payload, cursor) == Ok(cursor + |run|)
    decreases |run|
  {
    hide *;
    if run == [] {
      NoSpacing(payload, cursor);
    } else {
      var k := SkipStep(payload, cursor, run);
      RunTail(payload, cursor, run, k);
      SkipsRun(payload, cursor + k, run[k..]);
    }
  }

  lemma {:induction false} TokenEnds(payload: seq<byte>, cursor: nat, text: seq<byte>)
    requires cursor + |text| <= |payload| && payload[cursor..cursor + |text|] == text
    requires forall i :: 0 <= i < |text| ==> !EndsToken(text[i])
    requires Terminates(payload[cursor + |text|..])
    ensures TokenEnd(payload, cursor) == cursor + |text|
    decreases |text|
  {
    if text != [] {
      assert payload[cursor] == text[0];
      assert payload[cursor + 1..cursor + 1 + |text[1..]|] == text[1..];
      TokenEnds(payload, cursor + 1, text[1..]);
    }
  }

  /** What a suffix is made of, at its place in the payload. */
  lemma SuffixSplit(payload: seq<byte>, cursor: nat, a: seq<byte>, b: seq<byte>)
    requires cursor <= |payload| && payload[cursor..] == a + b
    ensures cursor + |a| <= |payload| && payload[cursor..cursor + |a|] == a && payload[cursor + |a|..] == b
    ensures forall i :: cursor <= i < cursor + |a| ==> payload[i] == a[i - cursor]
  {
    var rest := payload[cursor..];
    assert rest[..|a|] == a && rest[|a|..] == b;
    forall i | cursor <= i < cursor + |a| ensures payload[i] == a[i - cursor] {
      assert payload[i] == rest[i - cursor];
    }
  }

  lemma TokenPlaced(payload: seq<byte>, cursor: nat, run: seq<byte>, text: seq<byte>, tail: seq<byte>)
    requires text != [] && cursor <= |payload| && payload[cursor..] == Lead(run, text, tail)
    ensures var start, end := cursor + |run|, cursor + |run| + |text|;
      && start < end <= |payload| && payload[cursor..start] == run && payload[start] == text[0]
      && payload[start..end] == text && payload[end..] == tail
  {
    SuffixSplit(payload, cursor, run, text + tail);
    SuffixSplit(payload, cursor + |run|, text, tail);
  }

  /** Reading a token preceded by any spacing and followed by a terminator. */
  lemma ReadsToken(payload: seq<byte>, cursor: nat, run: seq<byte>, text: seq<byte>, tail: seq<byte>)
    requires IsSpacing(run) && IsToken(text) && Terminates(tail)
    requires cursor <= |payload| && payload[cursor..] == Lead(run, text, tail)
    ensures NextToken(payload, cursor) == Ok(Token(text, cursor + |run| + |text|))
      && payload[cursor + |run| + |text|..] == tail
  {
    hide IsSpacing, Terminates, SpacingEnd, TokenEnd;
    TokenPlaced(payload, cursor, run, text, tail);
    SkipsRun(payload, cursor, run);
    TokenEnds(payload, cursor + |run|, text);
  }

  lemma SpacingTerminates(run: seq<byte>, text: seq<byte>, tail: seq<byte>)
    requires IsSpacing(run) && run != []
    ensures Terminates(Lead(run, text, tail))
  {}

  function Lead(run: seq<byte>, text: seq<byte>, tail: seq<byte>): seq<byte> {
    run + (text + tail)
  }

  /** A header laid out with the given spacings before its tokens. */
  function Layout(run0: seq<byte>, magic: seq<byte>, run1: seq<byte>, width: seq<byte>, run2: seq<byte>,
                  height: seq<byte>, run3: seq<byte>, maxValue: seq<byte>, tail: seq<byte>): seq<byte> {
    Lead(run0, magic, Lead(run1, width, Lead(run2, height, Lead(run3, maxValue, tail))))
  }

  /**
   * Any run of whitespace and comments before the four header tokens and non-empty ones between them:
   * the result is a function of the tokens and the tail alone.
   */
  lemma SpacingIrrelevant(run0: seq<byte>, magic: seq<byte>, run1: seq<byte>, width: seq<byte>, run2: seq<byte>,
                          height: seq<byte>, run3: seq<byte>, maxValue: seq<byte>, tail: seq<byte>)
    requires IsToken(magic) && IsToken(width) && IsToken(height) && IsToken(maxValue) && Terminates(tail)
    requires IsSpacing(run0) && IsSpacing(run1) && IsSpacing(run2) && IsSpacing(run3)
    requires run1 != [] && run2 != [] && run3 != []
    ensures ParseBinary(Layout(run0, magic, run1, width, run2, height, run3, maxValue, tail))
      == ParseBody(magic, width, height, maxValue, tail)
  {
    hide NextToken, ParseBinary, ParseBody, Lead, IsToken, IsSpacing, Terminates;
    var tail3 := Lead(run3, maxValue, tail);
    var tail2 := Lead(run2, height, tail3);
    var tail1 := Lead(run1, width, tail2);
    var payload := Layout(run0, magic, run1, width, run2, height, run3, maxValue, tail);
    SpacingTerminates(run1, width, tail2);
    SpacingTerminates(run2, height, tail3);
    SpacingTerminates(run3, maxValue, tail);
    assert payload[0..] == payload;
    ReadsToken(payload, 0, run0, magic, tail1);
    var c1 := |run0| + |magic|;
    ReadsToken(payload, c1, run1, width, tail2);
    var c2 := c1 + |run1| + |width|;
    ReadsToken(payload, c2, run2, height, tail3);
    var c3 := c2 + |run2| + |height|;
    ReadsToken(payload, c3, run3, maxValue, tail);
    FourTokens(payload, Token(magic, c1), Token(width, c2), Token(height, c3),
        Token(maxValue, c3 + |run3| + |maxValue|));
  }

  lemma FourTokens(payload: seq<byte>, magic: Token, width: Token, height: Token, maxValue: Token)
    requires magic.end <= |payload| && width.end <= |payload| && height.end <= |payload| && maxValue.end <= |payload|
    requires NextToken(payload, 0) == Ok(magic) && NextToken(payload, magic.end) == Ok(width)
    requires NextToken(payload, width.end) == Ok(height) && NextToken(payload, height.end) == Ok(maxValue)
    ensures ParseBinary(payload) == ParseBody(magic.text, width.text, height.text, maxValue.text,
      payload[maxValue.end..])
  {
    hide NextToken, ParseBody;
  }

  lemma EmptySpacing()
    ensures IsSpacing([])
  {}

  // ----- round trips -----

  lemma DigitsToken(n: nat)
    ensures IsToken(Digits(n))
  {
    forall i | 0 <= i < |Digits(n)| ensures !EndsToken(Digits(n)[i]) {
      assert IsDigit(Digits(n)[i]);
    }
  }

  lemma PrintedLayout(frame: Frame)
    ensures ToPpm(frame)
      == Layout([], MAGIC, [NEWLINE], Digits(frame.width), [SPACE], Digits(frame.height), [NEWLINE], MAX_VALUE,
          [NEWLINE] + frame.rgb)
    ensures IsWhitespace(NEWLINE) && IsSeparator(NEWLINE) && IsSeparator(SPACE) && NEWLINE != RETURN
  {
    hide Digits;
  }

  /** The capture reader recovers every frame, whatever bytes its raster starts with. */
  lemma CaptureRoundTrip(frame: Frame)
    requires frame.Valid()
    ensures ParseBinary(ToPpm(frame)) == Ok(frame)
  {
    hide *;
    PrintedLayout(frame);
    OneSpacing(NEWLINE);
    OneSpacing(SPACE);
    SeparatorExactly(frame, [NEWLINE], [SPACE], [NEWLINE], NEWLINE);
  }

  lemma MaxValueParses()
    ensures ParseInt(MAX_VALUE) == Some(255)
  {
    assert MAX_VALUE[..2] == [50, 53] && MAX_VALUE[..2][..1] == [50] && MAX_VALUE[..2][..1][..0] == [];
    assert DigitsValue([50]) == 2;
    assert DigitsValue([50, 53]) == 25;
    PlainDigits(MAX_VALUE);
  }

  lemma BodyWithSeparator(frame: Frame, separator: byte)
    requires frame.Valid() && IsWhitespace(separator)
    ensures ParseBody(MAGIC, Digits(frame.width), Digits(frame.height), MAX_VALUE, [separator] + frame.rgb) == Ok(frame)
      <==> !(separator == RETURN && frame.rgb[0] == NEWLINE)
  {
    var tail := [separator] + frame.rgb;
    ParsePrinted(frame.width);
    ParsePrinted(frame.height);
    MaxValueParses();
    hide ParseInt, Digits;
    assert frame.rgb != [] && tail[1] == frame.rgb[0] && tail[1..] == frame.rgb;
    assert |tail[2..]| == |frame.rgb| - 1;
  }

  /**
   * Any layout of a frame with a one-byte separator before the raster: the reader recovers the frame
   * unless the separator is a carriage return and the raster starts with a line feed, which together
   * it takes for one separator.
   */
  lemma SeparatorExactly(frame: Frame, run1: seq<byte>, run2: seq<byte>, run3: seq<byte>, separator: byte)
    requires frame.Valid() && IsWhitespace(separator)
    requires IsSpacing(run1) && IsSpacing(run2) && IsSpacing(run3) && run1 != [] && run2 != [] && run3 != []
    ensures ParseBinary(Layout([], MAGIC, run1, Digits(frame.width), run2, Digits(frame.height), run3, MAX_VALUE,
      [separator] + frame.rgb)) == Ok(frame)
      <==> !(separator == RETURN && frame.rgb[0] == NEWLINE)
  {
    BodyWithSeparator(frame, separator);
    DigitsToken(frame.width);
    DigitsToken(frame.height);
    FixedTokens();
    hide Layout, ParseBinary, ParseBody, IsSpacing, Digits, IsToken;
    EmptySpacing();
    SpacingIrrelevant([], MAGIC, run1, Digits(frame.width), run2, Digits(frame.height), run3, MAX_VALUE,
        [separator] + frame.rgb);
  }

  lemma FixedTokens()
    ensures IsToken(MAGIC) && IsToken(MAX_VALUE)
  {}

  /** One black-and-green pixel whose raster starts with a line feed, after a lone carriage return, is refused. */
  lemma ReturnThenLineFeedMisread()
    ensures var frame := Frame(1, 1, [NEWLINE, 0, 0]);
      frame.Valid()
      && ParseBinary(Layout([], MAGIC, [SPACE], Digits(1), [SPACE], Digits(1), [SPACE], MAX_VALUE,
        [RETURN] + frame.rgb)) != Ok(frame)
  {
    OneSpacing(SPACE);
    hide ParseBinary, Layout, Digits;
    SeparatorExactly(Frame(1, 1, [NEWLINE, 0, 0]), [SPACE], [SPACE], [SPACE], RETURN);
  }

  // ----- the fixture reader, the P6 branch of `load_ppm_frame` -----

  /** `_next_ppm_separator`. */
  function NextSeparator(payload: seq<byte>, start: nat): Option<nat> {
    var space, newline := Find(payload, SPACE, start), Find(payload, NEWLINE, start);
    if space.None? then newline
    else if newline.None? || space.value < newline.value then space
    else newline
  }

  /** Header parts up to the cursor after the last separator. */
  datatype Header = End(cursor: nat) | Part(text: seq<byte>, rest: Header)

  predicate Holds(header: Header, count: nat, limit: nat) {
    match header
    case End(cursor) => count == 0 && cursor <= limit
    case Part(_, rest) => count > 0 && Holds(rest, count - 1, limit)
  }

  /** The next `count` header parts from `cursor` on. */
  function Parts(payload: seq<byte>, cursor: nat, count: nat): (r: Option<Header>)
    requires cursor <= |payload|
    ensures r.Some? ==> Holds(r.value, count, |payload|)
    decreases count
  {
    if count == 0 then Some(End(cursor))
    else
      var separator := NextSeparator(payload, cursor);
      if separator.None? then None
      else
        var rest := Parts(payload, separator.value + 1, count - 1);
        if rest.None? then None else Some(Part(payload[cursor..separator.value], rest.value))
  }

  function FrameFromParts(magic: seq<byte>, width: seq<byte>, height: seq<byte>, maxValue: seq<byte>,
                          rgb: seq<byte>): Result<Frame, PpmError> {
    var w, h, m := ParseInt(width), ParseInt(height), ParseInt(maxValue);
    if magic != MAGIC then Err(BadMagic)
    else if w.None? || h.None? || m.None? then Err(NotIntegers)
    else if m.value != 255 || w.value <= 0 || h.value <= 0 then Err(UnsupportedHeader)
    else if |rgb| != w.value * h.value * 3 then Err(WrongRasterSize)
    else Ok(Frame(w.value, h.value, rgb))
  }

  function LoadP6(payload: seq<byte>): Result<Frame, PpmError> {
    if !(MAGIC <= payload) then Err(UnsupportedKind)
    else
      match Parts(payload, 0, 4)
      case Some(Part(magic, Part(width, Part(height, Part(maxValue, End(cursor)))))) =>
        FrameFromParts(magic, width, height, maxValue, payload[cursor..])
      case _ => Err(InvalidHeader)
  }

  /** The parts already collected in front of the rest. */
  ghost function Onto(parts: seq<seq<byte>>, rest: Option<Header>): Option<Header> {
    if parts == [] then rest
    else
      var tail := Onto(parts[1..], rest);
      if tail.None? then None else Some(Part(parts[0], tail.value))
  }

  lemma {:induction false} OntoNext(parts: seq<seq<byte>>, text: seq<byte>, rest: Option<Header>)
    ensures Onto(parts + [text], rest) == Onto(parts, if rest.None? then None else Some(Part(text, rest.value)))
  {
    if parts == [] {
      assert [text][1..] == [];
    } else {
      assert (parts + [text])[1..] == parts[1..] + [text];
      OntoNext(parts[1..], text, rest);
    }
  }

  lemma {:induction false} OntoNone(parts: seq<seq<byte>>)
    ensures Onto(parts, None).None?
  {
    if parts != [] { OntoNone(parts[1..]); }
  }

  lemma OntoFour(parts: seq<seq<byte>>, cursor: nat)
    requires |parts| == 4
    ensures Onto(parts, Some(End(cursor)))
      == Some(Part(parts[0], Part(parts[1], Part(parts[2], Part(parts[3], End(cursor))))))
  {
    var one, two, three, none := parts[1..], parts[2..], parts[3..], parts[4..];
    assert one[1..] == two && two[1..] == three && three[1..] == none == [];
    assert Onto(none, Some(End(cursor))) == Some(End(cursor));
    assert Onto(three, Some(End(cursor))) == Some(Part(parts[3], End(cursor)));
    assert Onto(two, Some(End(cursor))) == Some(Part(parts[2], Part(parts[3], End(cursor))));
    assert Onto(one, Some(End(cursor))) == Some(Part(parts[1], Part(parts[2], Part(parts[3], End(cursor)))));
  }

  /** One turn of the reader's loop moves one part from the rest to the collected ones. */
  lemma PartsTurn(payload: seq<byte>, parts: seq<seq<byte>>, cursor: nat)
    requires |parts| < 4 && cursor <= |payload|
    ensures var rest, separator := Onto(parts, Parts(payload, cursor, 4 - |parts|)), NextSeparator(payload, cursor);
      if separator.None? then rest.None?
      else
        && cursor <= separator.value < |payload|
        && rest == Onto(parts + [payload[cursor..separator.value]], Parts(payload, separator.value + 1, 3 - |parts|))
  {
    hide Onto, NextSeparator;
    SeparatorInRange(payload, cursor);
    OntoNone(parts);
    var separator := NextSeparator(payload, cursor);
    if separator.Some? {
      OntoNext(parts, payload[cursor..separator.value], Parts(payload, separator.value + 1, 3 - |parts|));
    }
  }

  lemma AllPartsRead(payload: seq<byte>, parts: seq<seq<byte>>, cursor: nat)
    requires |parts| == 4 && cursor <= |payload| && MAGIC <= payload
    requires Parts(payload, 0, 4) == Onto(parts, Parts(payload, cursor, 0))
    ensures LoadP6(payload) == FrameFromParts(parts[0], parts[1], parts[2], parts[3], payload[cursor..])
  {
    hide Onto, NextSeparator, FrameFromParts, Parts;
    NoMoreParts(payload, cursor);
    OntoFour(parts, cursor);
  }

  lemma NotBinary(payload: seq<byte>)
    requires !(MAGIC <= payload)
    ensures LoadP6(payload) == Err(UnsupportedKind)
  {}

  lemma PartsMissing(payload: seq<byte>)
    requires MAGIC <= payload && Parts(payload, 0, 4).None?
    ensures LoadP6(payload) == Err(InvalidHeader)
  {
    hide Parts;
  }

  /** `load_ppm_frame` after it has read the file. */
  method LoadPpmFrame(payload: seq<byte>) returns (r: Result<Frame, PpmError>)
    ensures r == LoadP6(payload)
  {
    hide *;
    if !(MAGIC <= payload) {
      NotBinary(payload);
      return Err(UnsupportedKind);
    }
    var parts: seq<seq<byte>>, cursor: nat := [], 0;
    OntoNothing(Parts(payload, 0, 4));
    while |parts| < 4
      invariant |parts| <= 4 && cursor <= |payload|
      invariant Parts(payload, 0, 4) == Onto(parts, Parts(payload, cursor, 4 - |parts|))
      decreases 4 - |parts|
    {
      PartsTurn(payload, parts, cursor);
      var separator := NextSeparator(payload, cursor);
      if separator.None? {
        PartsMissing(payload);
        return Err(InvalidHeader);
      }
      parts := parts + [payload[cursor..separator.value]];
      cursor := separator.value + 1;
    }
    AllPartsRead(payload, parts, cursor);
    return FrameFromParts(parts[0], parts[1], parts[2], parts[3], payload[cursor..]);
  }

  lemma OntoNothing(rest: Option<Header>)
    ensures Onto([], rest) == rest
  {}

  lemma SeparatorInRange(payload: seq<byte>, cursor: nat)
    ensures NextSeparator(payload, cursor).Some? ==> cursor <= NextSeparator(payload, cursor).value < |payload|
  {}

  predicate IsPart(text: seq<byte>) {
    forall i :: 0 <= i < |text| ==> text[i] != SPACE && text[i] != NEWLINE
  }

  predicate IsSeparator(b: byte) {
    b == SPACE || b == NEWLINE
  }

  lemma PartPlaced(payload: seq<byte>, cursor: nat, text: seq<byte>, separator: byte, tail: seq<byte>)
    requires cursor <= |payload| && payload[cursor..] == text + ([separator] + tail)
    ensures var end := cursor + |text|;
      && end < |payload| && payload[cursor..end] == text && payload[end] == separator && payload[end + 1..] == tail
    ensures forall i :: cursor <= i < cursor + |text| ==> payload[i] == text[i - cursor]
  {
    SuffixSplit(payload, cursor, text, [separator] + tail);
    SuffixSplit(payload, cursor + |text|, [separator], tail);
  }

  lemma PartRead(payload: seq<byte>, cursor: nat, text: seq<byte>, separator: byte, tail: seq<byte>, count: nat)
    requires IsPart(text) && IsSeparator(separator) && count > 0
    requires cursor <= |payload| && payload[cursor..] == text + ([separator] + tail)
    ensures cursor + |text| < |payload| && payload[cursor + |text| + 1..] == tail
    ensures var rest := Parts(payload, cursor + |text| + 1, count - 1);
      Parts(payload, cursor, count) == if rest.None? then None else Some(Part(text, rest.value))
  {
    hide NextSeparator, IsPart, IsSeparator;
    PartPlaced(payload, cursor, text, separator, tail);
    FirstSeparator(payload, cursor, text, separator);
  }

  lemma FirstSeparator(payload: seq<byte>, cursor: nat, text: seq<byte>, separator: byte)
    requires IsPart(text) && IsSeparator(separator) && cursor + |text| < |payload|
      && payload[cursor + |text|] == separator
    requires forall i :: cursor <= i < cursor + |text| ==> payload[i] == text[i - cursor]
    ensures NextSeparator(payload, cursor) == Some(cursor + |text|)
  {}

  lemma DigitsPart(n: nat)
    ensures IsPart(Digits(n))
  {
    forall i | 0 <= i < |Digits(n)| ensures Digits(n)[i] != SPACE && Digits(n)[i] != NEWLINE {
      assert IsDigit(Digits(n)[i]);
    }
  }

  lemma TwoParts(payload: seq<byte>, cursor: nat, a: seq<byte>, s: byte, b: seq<byte>, t: byte, tail: seq<byte>,
                 count: nat)
    requires IsPart(a) && IsPart(b) && IsSeparator(s) && IsSeparator(t)
    requires cursor <= |payload| && payload[cursor..] == a + ([s] + (b + ([t] + tail)))
    ensures var end := cursor + |a| + |b| + 2;
      && end <= |payload| && payload[end..] == tail && payload[end - 1] == t
      && (Parts(payload, end, count).Some? ==>
            Parts(payload, cursor, count + 2) == Some(Part(a, Part(b, Parts(payload, end, count).value))))
  {
    hide Parts, IsPart, IsSeparator;
    PartRead(payload, cursor, a, s, b + ([t] + tail), count + 2);
    PartRead(payload, cursor + |a| + 1, b, t, tail, count + 1);
    PartPlaced(payload, cursor + |a| + 1, b, t, tail);
  }

  lemma FourPartsRead(payload: seq<byte>, magic: seq<byte>, s1: byte, width: seq<byte>, s2: byte, height: seq<byte>,
                      s3: byte,
                      maxValue: seq<byte>, s4: byte, rgb: seq<byte>) returns (end: nat)
    requires IsPart(magic) && IsPart(width) && IsPart(height) && IsPart(maxValue)
    requires IsSeparator(s1) && IsSeparator(s2) && IsSeparator(s3) && IsSeparator(s4)
    requires payload == magic + ([s1] + (width + ([s2] + (height + ([s3] + (maxValue + ([s4] + rgb)))))))
    ensures 0 < end <= |payload| && payload[end..] == rgb && payload[end - 1] == s4
    ensures Parts(payload, 0, 4) == Some(Part(magic, Part(width, Part(height, Part(maxValue, End(end))))))
  {
    hide Parts, IsPart, IsSeparator;
    var tail := height + ([s3] + (maxValue + ([s4] + rgb)));
    FromStart(payload);
    TwoParts(payload, 0, magic, s1, width, s2, tail, 2);
    var middle := |magic| + |width| + 2;
    TwoParts(payload, middle, height, s3, maxValue, s4, rgb, 0);
    end := middle + |height| + |maxValue| + 2;
    NoMoreParts(payload, end);
  }

  lemma FromStart(payload: seq<byte>)
    ensures payload[0..] == payload
  {}

  lemma FourParts(payload: seq<byte>, magic: seq<byte>, s1: byte, width: seq<byte>, s2: byte, height: seq<byte>,
                  s3: byte, maxValue: seq<byte>,
                  s4: byte, rgb: seq<byte>)
    requires IsPart(magic) && IsPart(width) && IsPart(height) && IsPart(maxValue) && MAGIC <= payload
    requires IsSeparator(s1) && IsSeparator(s2) && IsSeparator(s3) && IsSeparator(s4)
    requires payload == magic + ([s1] + (width + ([s2] + (height + ([s3] + (maxValue + ([s4] + rgb)))))))
    ensures LoadP6(payload) == FrameFromParts(magic, width, height, maxValue, rgb)
    ensures LastPart(payload) == Some((maxValue, s4))
  {
    hide Parts, IsPart, IsSeparator, FrameFromParts;
    var end := FourPartsRead(payload, magic, s1, width, s2, height, s3, maxValue, s4, rgb);
  }

  lemma NoMoreParts(payload: seq<byte>, cursor: nat)
    requires cursor <= |payload|
    ensures Parts(payload, cursor, 0) == Some(End(cursor))
  {}

  /** The fixture reader recovers every frame as well. */
  lemma FixtureRoundTrip(frame: Frame)
    requires frame.Valid()
    ensures LoadP6(ToPpm(frame)) == Ok(frame)
  {
    DigitsPart(frame.width);
    DigitsPart(frame.height);
    ParsePrinted(frame.width);
    ParsePrinted(frame.height);
    MaxValueParses();
    FixedParts();
    hide Parts, Digits, IsPart, LoadP6, ParseInt;
    FourParts(ToPpm(frame), MAGIC, NEWLINE, Digits(frame.width), SPACE, Digits(frame.height), NEWLINE, MAX_VALUE,
        NEWLINE, frame.rgb);
  }

  lemma FixedParts()
    ensures IsPart(MAGIC) && IsPart(MAX_VALUE)
  {}

  lemma PartAt(payload: seq<byte>, cursor: nat, count: nat) returns (k: nat)
    requires cursor <= |payload| && count > 0 && Parts(payload, cursor, count).Some?
    ensures cursor <= k < |payload| && IsSeparator(payload[k])
    ensures Parts(payload, k + 1, count - 1).Some?
    ensures Parts(payload, cursor, count) == Some(Part(payload[cursor..k], Parts(payload, k + 1, count - 1).value))
  {
    k := NextSeparator(payload, cursor).value;
  }

  lemma OneSpacing(s: byte)
    requires IsSeparator(s)
    ensures IsSpacing([s]) && IsWhitespace(s) && s != RETURN
  {
    assert [s][1..] == [];
  }

  lemma {:induction false} WhitespaceIsSpacing(run: seq<byte>)
    requires AllWhitespace(run)
    ensures IsSpacing(run)
  {
    if run != [] { WhitespaceIsSpacing(run[1..]); }
  }

  /** The text of the part `payload[from..to]` is `payload[low..high]`, with whitespace around it. */
  predicate TextAt(payload: seq<byte>, from: nat, low: nat, high: nat, to: nat) {
    && from <= low < high <= to <= |payload|
    && payload[high..to] == Trail(payload[from..to])
    && IsToken(payload[low..high]) && ParseInt(payload[low..high]) == ParseInt(payload[from..to])
    && AllWhitespace(payload[from..low]) && AllWhitespace(payload[high..to])
  }

  lemma SliceOfSlice(payload: seq<byte>, from: nat, to: nat, a: nat, b: nat)
    requires from <= to <= |payload| && a <= b <= to - from
    ensures payload[from..to][a..b] == payload[from + a..from + b]
  {
    var part := payload[from..to];
    assert forall i :: a <= i < b ==> part[i] == payload[from + i];
  }

  lemma WholeTail(part: seq<byte>, a: nat)
    requires a <= |part|
    ensures part[a..] == part[a..|part|] && part[..a] == part[0..a]
  {}

  lemma TextIsToken(part: seq<byte>)
    requires ParseInt(part).Some?
    ensures IsToken(Strip(part)) && ParseInt(Strip(part)) == ParseInt(part)
  {
    ParsedToken(part);
    hide Strip, ParseInt;
  }

  lemma TextPlace(payload: seq<byte>, from: nat, to: nat) returns (low: nat, high: nat)
    requires from <= to <= |payload| && ParseInt(payload[from..to]).Some?
    ensures TextAt(payload, from, low, high, to)
  {
    hide ParseInt, Strip, Trail, IsToken, AllWhitespace;
    var part := payload[from..to];
    TextIsToken(part);
    var a, b := StripPlace(part);
    low, high := from + a, from + b;
    WholeTail(part, a);
    WholeTail(part, b);
    SliceOfSlice(payload, from, to, a, b);
    SliceOfSlice(payload, from, to, b, |part|);
    SliceOfSlice(payload, from, to, 0, a);
    TokenNotEmpty(part[a..b]);
  }

  lemma TokenNotEmpty(text: seq<byte>)
    ensures IsToken(text) ==> text != []
  {}

  /** Whitespace on both sides of a separator is one run of spacing. */
  lemma RunAround(payload: seq<byte>, from: nat, k: nat, to: nat)
    requires from <= k < to <= |payload| && IsSeparator(payload[k])
    requires AllWhitespace(payload[from..k]) && AllWhitespace(payload[k + 1..to])
    ensures IsSpacing(payload[from..to]) && payload[from..to] != []
  {
    var run := payload[from..to];
    forall i | 0 <= i < |run| ensures IsWhitespace(run[i]) {
      if i < k - from { assert run[i] == payload[from..k][i]; }
      else if i > k - from { assert run[i] == payload[k + 1..to][i - (k - from) - 1]; }
    }
    WhitespaceIsSpacing(run);
  }

  lemma SliceLead(payload: seq<byte>, a: nat, b: nat, c: nat)
    requires a <= b <= c <= |payload|
    ensures payload[a..] == Lead(payload[a..b], payload[b..c], payload[c..])
  {}

  // ----- the readers compared -----

  /** The last of the four header parts and the separator that ended it. */
  function LastPart(payload: seq<byte>): Option<(seq<byte>, byte)> {
    match Parts(payload, 0, 4)
    case Some(Part(_, Part(_, Part(_, Part(text, End(cursor)))))) =>
      if 0 < cursor <= |payload| then Some((text, payload[cursor - 1])) else None
    case _ => None
  }

  /** Nothing after the maximum value's text but its separator, or a carriage return before a line feed. */
  predicate CleanEnd(text: seq<byte>, separator: byte) {
    Trail(text) == [] || (Trail(text) == [RETURN] && separator == NEWLINE)
  }

  /** What follows the maximum value's text: the body is the fixture reader's frame exactly after a clean end. */
  lemma BodyAfterTrail(width: seq<byte>, height: seq<byte>, maxValue: seq<byte>, trail: seq<byte>, separator: byte,
                       rgb: seq<byte>)
    requires AllWhitespace(trail) && IsSeparator(separator) && NEWLINE !in trail
    requires FrameFromParts(MAGIC, width, height, maxValue, rgb).Ok?
    ensures ParseBody(MAGIC, width, height, maxValue, trail + ([separator] + rgb))
      == FrameFromParts(MAGIC, width, height, maxValue, rgb)
      <==> trail == [] || (trail == [RETURN] && separator == NEWLINE)
  {
    hide ParseInt;
    var tail := trail + ([separator] + rgb);
    if trail == [] {
      assert tail == [separator] + rgb && tail[1..] == rgb;
    } else {
      assert tail[0] == trail[0] && |tail[1..]| == |trail| + |rgb|;
      if |trail| == 1 { assert tail[1] == separator && tail[2..] == rgb; }
      else { assert tail[1] == trail[1]; }
    }
  }

  /** Stripped header texts mean the same frame. */
  lemma SameFrame(width: seq<byte>, height: seq<byte>, maxValue: seq<byte>, w: seq<byte>, h: seq<byte>, m: seq<byte>,
                  rgb: seq<byte>)
    requires ParseInt(w) == ParseInt(width) && ParseInt(h) == ParseInt(height) && ParseInt(m) == ParseInt(maxValue)
    ensures FrameFromParts(MAGIC, w, h, m, rgb) == FrameFromParts(MAGIC, width, height, maxValue, rgb)
  {
    hide ParseInt;
  }

  lemma NotEmptySlice(payload: seq<byte>, a: nat, b: nat)
    requires a < b <= |payload|
    ensures payload[a..b] != []
  {}

  lemma TailTerminates(payload: seq<byte>, h: nat)
    requires h < |payload| && IsWhitespace(payload[h])
    ensures Terminates(payload[h..])
  {
    assert payload[h..][0] == payload[h];
  }

  lemma LayoutOfSlices(payload: seq<byte>, k1: nat, l2: nat, h2: nat, l3: nat, h3: nat, l4: nat, h4: nat)
    requires k1 < l2 < h2 < l3 < h3 < l4 < h4 < |payload| && payload[0..k1] == MAGIC
    ensures payload
      == Layout([], MAGIC, payload[k1..l2], payload[l2..h2], payload[h2..l3], payload[l3..h3], payload[h3..l4],
          payload[l4..h4], payload[h4..])
  {
    hide Lead;
    SliceLead(payload, 0, 0, k1);
    SliceLead(payload, k1, l2, h2);
    SliceLead(payload, h2, l3, h3);
    SliceLead(payload, h3, l4, h4);
    FromStart(payload);
    NothingAt(payload);
  }

  lemma NothingAt(payload: seq<byte>)
    ensures payload[0..0] == []
  {}

  /** The capture reader on a payload whose header texts lie at the given places. */
  lemma CaptureOfPlaces(payload: seq<byte>, k1: nat, l2: nat, h2: nat, l3: nat, h3: nat, l4: nat, h4: nat)
    requires k1 < l2 < h2 < l3 < h3 < l4 < h4 < |payload| && payload[0..k1] == MAGIC
    requires IsToken(payload[l2..h2]) && IsToken(payload[l3..h3]) && IsToken(payload[l4..h4])
    requires IsSpacing(payload[k1..l2]) && IsSpacing(payload[h2..l3]) && IsSpacing(payload[h3..l4])
      && IsWhitespace(payload[h4])
    ensures ParseBinary(payload) == ParseBody(MAGIC, payload[l2..h2], payload[l3..h3], payload[l4..h4], payload[h4..])
  {
    hide *;
    FixedTokens();
    TailTerminates(payload, h4);
    LayoutOfSlices(payload, k1, l2, h2, l3, h3, l4, h4);
    NotEmptySlice(payload, k1, l2);
    NotEmptySlice(payload, h2, l3);
    NotEmptySlice(payload, h3, l4);
    EmptySpacing();
    SpacingIrrelevant([], MAGIC, payload[k1..l2], payload[l2..h2], payload[h2..l3], payload[l3..h3], payload[h3..l4],
        payload[l4..h4], payload[h4..]);
  }

  /** The capture reader reads the texts of the parts and what follows the last text. */
  lemma CaptureOfTexts(payload: seq<byte>, k1: nat, k2: nat, k3: nat, k4: nat, l2: nat, h2: nat, l3: nat, h3: nat,
                       l4: nat, h4: nat)
    requires k1 < k2 < k3 < k4 < |payload| && payload[0..k1] == MAGIC
    requires IsSeparator(payload[k1]) && IsSeparator(payload[k2]) && IsSeparator(payload[k3])
      && IsSeparator(payload[k4])
    requires TextAt(payload, k1 + 1, l2, h2, k2) && TextAt(payload, k2 + 1, l3, h3, k3)
      && TextAt(payload, k3 + 1, l4, h4, k4)
    ensures ParseBinary(payload)
      == ParseBody(MAGIC, payload[l2..h2], payload[l3..h3], payload[l4..h4],
          payload[h4..k4] + ([payload[k4]] + payload[k4 + 1..]))
  {
    hide ParseBody, ParseBinary, ParseInt, IsToken, IsSpacing, Trail, AllWhitespace, IsSeparator, IsWhitespace;
    NothingBefore(payload, k1);
    RunAround(payload, k1, k1, l2);
    RunAround(payload, h2, k2, l3);
    RunAround(payload, h3, k3, l4);
    TrailThenSeparator(payload, h4, k4);
    CaptureOfPlaces(payload, k1, l2, h2, l3, h3, l4, h4);
  }

  lemma CaptureOfParts(payload: seq<byte>, k1: nat, k2: nat, k3: nat, k4: nat)
    requires k1 < k2 < k3 < k4 < |payload|
    requires IsSeparator(payload[k1]) && IsSeparator(payload[k2]) && IsSeparator(payload[k3])
      && IsSeparator(payload[k4])
    requires NEWLINE !in payload[k3 + 1..k4]
    requires FrameFromParts(payload[0..k1], payload[k1 + 1..k2], payload[k2 + 1..k3], payload[k3 + 1..k4],
      payload[k4 + 1..]).Ok?
    ensures ParseBinary(payload) == FrameFromParts(payload[0..k1], payload[k1 + 1..k2], payload[k2 + 1..k3],
      payload[k3 + 1..k4], payload[k4 + 1..])
      <==> CleanEnd(payload[k3 + 1..k4], payload[k4])
  {
    hide FrameFromParts, ParseBody, ParseBinary, ParseInt, IsToken, Trail, AllWhitespace, IsSeparator;
    var rgb := payload[k4 + 1..];
    PartsParse(payload[0..k1], payload[k1 + 1..k2], payload[k2 + 1..k3], payload[k3 + 1..k4], rgb);
    var l2, h2 := TextPlace(payload, k1 + 1, k2);
    var l3, h3 := TextPlace(payload, k2 + 1, k3);
    var l4, h4 := TextPlace(payload, k3 + 1, k4);
    CaptureOfTexts(payload, k1, k2, k3, k4, l2, h2, l3, h3, l4, h4);
    SameFrame(payload[k1 + 1..k2], payload[k2 + 1..k3], payload[k3 + 1..k4], payload[l2..h2], payload[l3..h3],
        payload[l4..h4], rgb);
    NotInTail(payload, k3 + 1, h4, k4);
    BodyAfterTrail(payload[l2..h2], payload[l3..h3], payload[l4..h4], payload[h4..k4], payload[k4], rgb);
  }

  lemma NotInTail(payload: seq<byte>, a: nat, b: nat, c: nat)
    requires a <= b <= c <= |payload| && NEWLINE !in payload[a..c]
    ensures NEWLINE !in payload[b..c]
  {
    if NEWLINE in payload[b..c] { SliceWithin(payload, a, b, c, NEWLINE); }
  }

  lemma NothingBefore(payload: seq<byte>, k: nat)
    requires k <= |payload|
    ensures AllWhitespace(payload[k..k])
  {}

  lemma SliceWithin(payload: seq<byte>, a: nat, b: nat, c: nat, x: byte)
    requires a <= b <= c <= |payload| && x in payload[b..c]
    ensures x in payload[a..c]
  {
    var i :| 0 <= i < |payload[b..c]| && payload[b..c][i] == x;
    assert payload[a..c][i + b - a] == x;
  }

  lemma TrailThenSeparator(payload: seq<byte>, h: nat, k: nat)
    requires h <= k < |payload| && AllWhitespace(payload[h..k]) && IsSeparator(payload[k])
    ensures payload[h..] == payload[h..k] + ([payload[k]] + payload[k + 1..]) && IsWhitespace(payload[h])
  {
    if h < k { assert payload[h] == payload[h..k][0]; }
  }

  lemma PartsParse(magic: seq<byte>, width: seq<byte>, height: seq<byte>, maxValue: seq<byte>, rgb: seq<byte>)
    requires FrameFromParts(magic, width, height, maxValue, rgb).Ok?
    ensures magic == MAGIC && ParseInt(width).Some? && ParseInt(height).Some? && ParseInt(maxValue).Some?
  {
    hide ParseInt;
  }

  lemma PartHasNoLineFeed(payload: seq<byte>, cursor: nat, count: nat)
    requires cursor <= |payload| && count > 0 && Parts(payload, cursor, count).Some?
    ensures NEWLINE !in Parts(payload, cursor, count).value.text
  {}

  /**
   * Whatever the fixture reader accepts the capture reader reads as the same frame exactly when
   * nothing but a carriage return before a line feed follows the maximum value.
   */
  lemma FixtureWithinCapture(payload: seq<byte>)
    requires LoadP6(payload).Ok?
    ensures LastPart(payload).Some?
    ensures ParseBinary(payload) == LoadP6(payload) <==> CleanEnd(LastPart(payload).value.0, LastPart(payload).value.1)
  {
    hide FrameFromParts, ParseBinary, Parts, CleanEnd;
    var k1 := PartAt(payload, 0, 4);
    var k2 := PartAt(payload, k1 + 1, 3);
    var k3 := PartAt(payload, k2 + 1, 2);
    var k4 := PartAt(payload, k3 + 1, 1);
    PartHasNoLineFeed(payload, k3 + 1, 1);
    NoMoreParts(payload, k4 + 1);
    CaptureOfParts(payload, k1, k2, k3, k4);
  }

  /** A tab after the maximum value: one reader gives the pixel, the other refuses the payload. */
  lemma TabTellsReadersApart()
    ensures var rgb: seq<byte> := [1, 2, 3];
      var payload := MAGIC + ([NEWLINE]
          + (Digits(1) + ([SPACE] + (Digits(1) + ([NEWLINE] + ((MAX_VALUE + [9]) + ([NEWLINE] + rgb)))))));
      LoadP6(payload) == Ok(Frame(1, 1, rgb)) && ParseBinary(payload) != LoadP6(payload)
  {
    var rgb: seq<byte> := [1, 2, 3];
    hide *;
    var token := MAX_VALUE + [9];
    DigitsPart(1);
    TabbedMaximum();
    Separators();
    var payload := MAGIC + ([NEWLINE]
        + (Digits(1) + ([SPACE] + (Digits(1) + ([NEWLINE] + (token + ([NEWLINE] + rgb)))))));
    FourParts(payload, MAGIC, NEWLINE, Digits(1), SPACE, Digits(1), NEWLINE, token, NEWLINE, rgb);
    OnePixel(token, rgb);
    FixtureWithinCapture(payload);
    TabIsNotClean(token);
  }

  lemma Separators()
    ensures IsSeparator(SPACE) && IsSeparator(NEWLINE)
  {}

  lemma OnePixel(maxValue: seq<byte>, rgb: seq<byte>)
    requires ParseInt(maxValue) == Some(255) && |rgb| == 3
    ensures FrameFromParts(MAGIC, Digits(1), Digits(1), maxValue, rgb) == Ok(Frame(1, 1, rgb))
  {
    hide ParseInt, Digits;
    ParsePrinted(1);
  }

  lemma TabIsNotClean(text: seq<byte>)
    requires Trail(text) == [9]
    ensures !CleanEnd(text, NEWLINE)
  {
    hide Trail;
    assert [9 as byte][0] != RETURN;
  }

  lemma TabbedMaximum()
    ensures IsPart(MAGIC) && IsPart(MAX_VALUE + [9]) && ParseInt(MAX_VALUE + [9]) == Some(255)
      && Trail(MAX_VALUE + [9]) == [9]
  {
    hide Strip, Trail, DigitsValue;
    MaxValueParses();
    StripAppended(MAX_VALUE, 9);
    NothingToStrip(MAX_VALUE);
  }
}
