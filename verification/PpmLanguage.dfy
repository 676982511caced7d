/**
 * Exactly which payloads the two PPM readers accept, and as which frame
 * (src/fh_agent/perception/subprocess_capture.py and visual_hash.py).
 */
module PpmLanguage {
  import opened Prelude
  import opened IntegerTokens
  import opened ScreenFrames
  import opened PpmFormat

  // ----- the capture reader -----

  /** The pieces of a payload around its magic and its raster. */
  datatype Pieces = Pieces(run0: seq<byte>, run1: seq<byte>, width: seq<byte>, run2: seq<byte>, height: seq<byte>,
                           run3: seq<byte>, maxValue: seq<byte>, separator: seq<byte>)

  /** One whitespace byte, or a carriage return and a line feed, which a raster must not seem to complete. */
  predicate Separates(separator: seq<byte>, rgb: seq<byte>) {
    || separator == [RETURN, NEWLINE]
    || (|separator| == 1 && IsWhitespace(separator[0])
        && !(separator[0] == RETURN && rgb != [] && rgb[0] == NEWLINE))
  }

  /** The header tokens say what the frame is. */
  predicate Describe(width: seq<byte>, height: seq<byte>, maxValue: seq<byte>, frame: Frame) {
    && ParseInt(width) == Some(frame.width) && ParseInt(height) == Some(frame.height)
    && ParseInt(maxValue) == Some(255) && frame.Valid()
  }

  predicate IsLaidOut(p: Pieces, payload: seq<byte>, frame: Frame) {
    && payload == Layout(p.run0, MAGIC, p.run1, p.width, p.run2, p.height, p.run3, p.maxValue, p.separator + frame.rgb)
    && IsSpacing(p.run0) && IsSpacing(p.run1) && IsSpacing(p.run2) && IsSpacing(p.run3)
    && p.run1 != [] && p.run2 != [] && p.run3 != []
    && IsToken(p.width) && IsToken(p.height) && IsToken(p.maxValue)
    && Describe(p.width, p.height, p.maxValue, frame) && Separates(p.separator, frame.rgb)
  }

  /** The body is a frame exactly when the tokens describe it and the tail is a separator before its raster. */
  lemma BodyExactly(width: seq<byte>, height: seq<byte>, maxValue: seq<byte>, tail: seq<byte>, frame: Frame)
    ensures ParseBody(MAGIC, width, height, maxValue, tail) == Ok(frame)
      <==> Describe(width, height, maxValue, frame)
           && exists separator :: Separates(separator, frame.rgb) && tail == separator + frame.rgb
  {
    hide ParseBody, Describe, Separates;
    BodyCut(width, height, maxValue, tail, frame);
    if tail != [] && IsWhitespace(tail[0]) && frame.rgb == tail[|TailSeparator(tail)|..] {
      CutSeparates(tail, frame.rgb);
    }
    forall separator | Separates(separator, frame.rgb) && tail == separator + frame.rgb
      ensures tail != [] && IsWhitespace(tail[0]) && frame.rgb == tail[|TailSeparator(tail)|..]
    {
      SeparatedCut(tail, separator, frame.rgb);
    }
  }

  /** The bytes the reader takes for the separator. */
  function TailSeparator(tail: seq<byte>): (r: seq<byte>)
    ensures r <= tail
  {
    if |tail| > 1 && tail[0] == RETURN && tail[1] == NEWLINE then tail[..2] else if tail == [] then [] else tail[..1]
  }

  lemma BodyCut(width: seq<byte>, height: seq<byte>, maxValue: seq<byte>, tail: seq<byte>, frame: Frame)
    ensures ParseBody(MAGIC, width, height, maxValue, tail) == Ok(frame) <==>
      && Describe(width, height, maxValue, frame)
      && tail != [] && IsWhitespace(tail[0]) && frame.rgb == tail[|TailSeparator(tail)|..]
  {
    hide ParseInt, IsWhitespace;
    RasterSize(frame);
  }

  lemma CutSeparates(tail: seq<byte>, rgb: seq<byte>)
    requires tail != [] && IsWhitespace(tail[0]) && rgb == tail[|TailSeparator(tail)|..]
    ensures Separates(TailSeparator(tail), rgb) && tail == TailSeparator(tail) + rgb
  {
    hide IsWhitespace;
    var separator := TailSeparator(tail);
    assert tail == separator + rgb;
    LeadingBytes(tail, separator, rgb);
  }

  lemma SeparatedCut(tail: seq<byte>, separator: seq<byte>, rgb: seq<byte>)
    requires Separates(separator, rgb) && tail == separator + rgb
    ensures tail != [] && IsWhitespace(tail[0]) && rgb == tail[|TailSeparator(tail)|..]
  {
    LeadingBytes(tail, separator, rgb);
    WhitespaceReturn();
    hide IsWhitespace;
  }

  lemma LeadingBytes(tail: seq<byte>, separator: seq<byte>, rgb: seq<byte>)
    requires tail == separator + rgb
    ensures separator != [] ==> tail[0] == separator[0]
    ensures |separator| > 1 ==> tail[1] == separator[1]
    ensures |separator| == 1 && rgb != [] ==> tail[1] == rgb[0]
    ensures tail[|separator|..] == rgb && tail[..|separator|] == separator
  {}

  lemma WhitespaceReturn()
    ensures IsWhitespace(RETURN)
  {}

  lemma RasterSize(frame: Frame)
    ensures frame.width > 0 && frame.height > 0 && |frame.rgb| == frame.width * frame.height * 3 ==> frame.Valid()
  {}

  /** Where a slice holds the first of a byte, so does the payload, and conversely. */
  lemma FindInSlice(payload: seq<byte>, b: byte, from: nat, to: nat)
    requires from <= to <= |payload| && Find(payload, b, from).Some? && Find(payload, b, from).value < to
    ensures Find(payload[from..to], b, 0) == Some(Find(payload, b, from).value - from)
  {
    var k, slice := Find(payload, b, from).value, payload[from..to];
    assert slice[k - from] == b;
    forall i | 0 <= i < k - from ensures slice[i] != b {
      assert slice[i] == payload[from + i];
    }
  }

  /** What the reader skips is spacing, and what it stops at is not. */
  lemma {:induction false} SkippedIsSpacing(payload: seq<byte>, cursor: nat)
    requires cursor <= |payload| && SpacingEnd(payload, cursor).Ok?
    ensures var start := SpacingEnd(payload, cursor).value;
      && cursor <= start <= |payload| && IsSpacing(payload[cursor..start])
      && (start < |payload| ==> !EndsToken(payload[start]))
    decreases |payload| - cursor
  {
    hide EndsToken, IsSpacing, Find;
    var start := SpacingEnd(payload, cursor).value;
    if cursor < |payload| && IsWhitespace(payload[cursor]) {
      SkippedIsSpacing(payload, cursor + 1);
      SpaceBefore(payload, cursor, start);
    } else if cursor < |payload| && payload[cursor] == HASH {
      var newline := Find(payload, NEWLINE, cursor).value;
      SkippedIsSpacing(payload, newline + 1);
      CommentBefore(payload, cursor, start);
    } else {
      NothingSkipped(payload, cursor);
    }
  }

  lemma NothingSkipped(payload: seq<byte>, cursor: nat)
    requires cursor <= |payload|
    requires cursor < |payload| ==> !IsWhitespace(payload[cursor]) && payload[cursor] != HASH
    ensures IsSpacing(payload[cursor..cursor]) && (cursor < |payload| ==> !EndsToken(payload[cursor]))
  {
    assert payload[cursor..cursor] == [];
  }

  lemma SpaceBefore(payload: seq<byte>, cursor: nat, start: nat)
    requires cursor < start <= |payload| && IsWhitespace(payload[cursor]) && IsSpacing(payload[cursor + 1..start])
    ensures IsSpacing(payload[cursor..start])
  {
    SliceTail(payload, cursor, cursor + 1, start);
    SpaceIsSpacing(payload[cursor..start], payload[cursor + 1..start]);
  }

  lemma CommentBefore(payload: seq<byte>, cursor: nat, start: nat)
    requires cursor < start <= |payload| && payload[cursor] == HASH && Find(payload, NEWLINE, cursor).Some?
    requires Find(payload, NEWLINE, cursor).value < start
    requires IsSpacing(payload[Find(payload, NEWLINE, cursor).value + 1..start])
    ensures IsSpacing(payload[cursor..start])
  {
    hide IsSpacing;
    var newline := Find(payload, NEWLINE, cursor).value;
    FindInSlice(payload, NEWLINE, cursor, start);
    SliceTail(payload, cursor, newline + 1, start);
    CommentIsSpacing(payload[cursor..start], newline - cursor, payload[newline + 1..start]);
  }

  lemma SliceTail(payload: seq<byte>, from: nat, middle: nat, to: nat)
    requires from <= middle <= to <= |payload|
    ensures payload[from..to][middle - from..] == payload[middle..to]
  {}

  lemma SpaceIsSpacing(run: seq<byte>, rest: seq<byte>)
    requires run != [] && IsWhitespace(run[0]) && rest == run[1..] && IsSpacing(rest)
    ensures IsSpacing(run)
  {}

  lemma CommentIsSpacing(run: seq<byte>, newline: nat, rest: seq<byte>)
    requires run != [] && run[0] == HASH && Find(run, NEWLINE, 0) == Some(newline) && newline < |run|
    requires rest == run[newline + 1..] && IsSpacing(rest)
    ensures IsSpacing(run)
  {
    hide Find;
    assert !IsWhitespace(run[0]);
  }

  lemma {:induction false} TokenIsText(payload: seq<byte>, cursor: nat)
    requires cursor <= |payload|
    ensures var end := TokenEnd(payload, cursor);
      && cursor <= end <= |payload| && (forall i :: cursor <= i < end ==> !EndsToken(payload[i]))
      && (end < |payload| ==> EndsToken(payload[end]))
    decreases |payload| - cursor
  {
    if cursor < |payload| && !EndsToken(payload[cursor]) { TokenIsText(payload, cursor + 1); }
  }

  /** A token that was read lies after spacing, up to a byte that ends it. */
  lemma TokenFound(payload: seq<byte>, cursor: nat) returns (start: nat)
    requires cursor <= |payload| && NextToken(payload, cursor).Ok?
    ensures var token := NextToken(payload, cursor).value;
      && cursor <= start < token.end <= |payload| && IsSpacing(payload[cursor..start])
      && token.text == payload[start..token.end] && IsToken(token.text) && !EndsToken(payload[start])
      && (token.end < |payload| ==> EndsToken(payload[token.end]))
  {
    start := SpacingEnd(payload, cursor).value;
    SkippedIsSpacing(payload, cursor);
    TokenIsText(payload, start);
    hide SpacingEnd, TokenEnd, IsSpacing;
    var end := TokenEnd(payload, start);
    forall i | 0 <= i < end - start ensures !EndsToken(payload[start..end][i]) {
      assert payload[start..end][i] == payload[start + i];
    }
  }

  /** The places where a successfully parsed payload is cut. */
  lemma FourFound(payload: seq<byte>) returns (places: seq<nat>)
    requires ParseBinary(payload).Ok?
    ensures |places| == 8 && forall i :: 0 <= i < 8 ==> places[i] <= |payload|
    ensures places[0] < places[1] < places[2] < places[3] < places[4] < places[5] < places[6] < places[7] <= |payload|
    ensures IsSpacing(payload[0..places[0]]) && IsSpacing(payload[places[1]..places[2]])
      && IsSpacing(payload[places[3]..places[4]]) && IsSpacing(payload[places[5]..places[6]])
    ensures IsToken(payload[places[2]..places[3]]) && IsToken(payload[places[4]..places[5]])
      && IsToken(payload[places[6]..places[7]])
    ensures ParseBinary(payload)
      == ParseBody(payload[places[0]..places[1]], payload[places[2]..places[3]], payload[places[4]..places[5]],
                   payload[places[6]..places[7]], payload[places[7]..])
  {
    hide NextToken, ParseBody, IsSpacing, IsToken, EndsToken;
    var magic := NextToken(payload, 0).value;
    var width := NextToken(payload, magic.end).value;
    var height := NextToken(payload, width.end).value;
    var maxValue := NextToken(payload, height.end).value;
    var s0 := TokenFound(payload, 0);
    var s1 := TokenFound(payload, magic.end);
    var s2 := TokenFound(payload, width.end);
    var s3 := TokenFound(payload, height.end);
    assert s1 != magic.end && s2 != width.end && s3 != height.end;
    places := [s0, magic.end, s1, width.end, s2, height.end, s3, maxValue.end];
  }

  lemma SlicesLaidOut(payload: seq<byte>, a: nat, b: nat, c: nat, d: nat, e: nat, f: nat, g: nat, h: nat)
    requires a < b < c < d < e < f < g < h <= |payload|
    ensures payload == Layout(payload[0..a], payload[a..b], payload[b..c], payload[c..d], payload[d..e], payload[e..f],
                              payload[f..g], payload[g..h], payload[h..])
  {
    hide Lead;
    SliceLead(payload, 0, a, b);
    SliceLead(payload, b, c, d);
    SliceLead(payload, d, e, f);
    SliceLead(payload, f, g, h);
    FromStart(payload);
  }

  /** A parsed payload is laid out as it should be. */
  lemma ParsedIsLaidOut(payload: seq<byte>, frame: Frame) returns (p: Pieces)
    requires ParseBinary(payload) == Ok(frame)
    ensures IsLaidOut(p, payload, frame)
  {
    hide *;
    var at := FourFound(payload);
    var width, height, maxValue, tail :=
      payload[at[2]..at[3]], payload[at[4]..at[5]], payload[at[6]..at[7]], payload[at[7]..];
    BodyMagic(payload[at[0]..at[1]], width, height, maxValue, tail);
    BodyExactly(width, height, maxValue, tail, frame);
    var separator :| Separates(separator, frame.rgb) && tail == separator + frame.rgb;
    SlicesLaidOut(payload, at[0], at[1], at[2], at[3], at[4], at[5], at[6], at[7]);
    p := Pieces(payload[0..at[0]], payload[at[1]..at[2]], width, payload[at[3]..at[4]], height, payload[at[5]..at[6]],
                maxValue, separator);
    LaidOutIs(p, payload, frame);
  }

  lemma LaidOutIs(p: Pieces, payload: seq<byte>, frame: Frame)
    requires payload
      == Layout(p.run0, MAGIC, p.run1, p.width, p.run2, p.height, p.run3, p.maxValue, p.separator + frame.rgb)
    requires IsSpacing(p.run0) && IsSpacing(p.run1) && IsSpacing(p.run2) && IsSpacing(p.run3)
    requires p.run1 != [] && p.run2 != [] && p.run3 != []
    requires IsToken(p.width) && IsToken(p.height) && IsToken(p.maxValue)
    requires Describe(p.width, p.height, p.maxValue, frame) && Separates(p.separator, frame.rgb)
    ensures IsLaidOut(p, payload, frame)
  {
    hide Layout, IsSpacing, IsToken, Describe, Separates;
  }

  lemma BodyMagic(magic: seq<byte>, width: seq<byte>, height: seq<byte>, maxValue: seq<byte>, tail: seq<byte>)
    requires ParseBody(magic, width, height, maxValue, tail).Ok?
    ensures magic == MAGIC
  {
    hide ParseInt;
  }

  lemma LaidOutIsParsed(payload: seq<byte>, frame: Frame, p: Pieces)
    requires IsLaidOut(p, payload, frame)
    ensures ParseBinary(payload) == Ok(frame)
  {
    FixedTokens();
    SeparatorTerminates(p.separator, frame.rgb);
    hide ParseBinary, ParseBody, Layout, IsSpacing, IsToken, Terminates, Separates, Describe;
    SpacingIrrelevant(p.run0, MAGIC, p.run1, p.width, p.run2, p.height, p.run3, p.maxValue, p.separator + frame.rgb);
    BodyExactly(p.width, p.height, p.maxValue, p.separator + frame.rgb, frame);
  }

  lemma SeparatorTerminates(separator: seq<byte>, rgb: seq<byte>)
    requires Separates(separator, rgb)
    ensures Terminates(separator + rgb)
  {
    assert (separator + rgb)[0] == separator[0];
  }

  /**
   * `_parse_binary_ppm` reads a payload as a frame exactly if the payload is laid out as its header tokens,
   * spacing around them, one separator and the raster.
   */
  lemma CaptureExactly(payload: seq<byte>, frame: Frame)
    ensures ParseBinary(payload) == Ok(frame) <==> exists p :: IsLaidOut(p, payload, frame)
  {
    hide ParseBinary, IsLaidOut;
    if ParseBinary(payload) == Ok(frame) {
      var p := ParsedIsLaidOut(payload, frame);
    }
    forall p | IsLaidOut(p, payload, frame) ensures ParseBinary(payload) == Ok(frame) {
      LaidOutIsParsed(payload, frame, p);
    }
  }

  // ----- the fixture reader -----

  /** Three parts after the magic, each ended by a space or a line feed. */
  datatype Parted = Parted(s1: byte, width: seq<byte>, s2: byte, height: seq<byte>, s3: byte, maxValue: seq<byte>,
                           s4: byte)

  predicate IsParted(p: Parted, payload: seq<byte>, frame: Frame) {
    && payload == MAGIC + ([p.s1] + (p.width + ([p.s2] + (p.height + ([p.s3] + (p.maxValue + ([p.s4] + frame.rgb)))))))
    && IsSeparator(p.s1) && IsSeparator(p.s2) && IsSeparator(p.s3) && IsSeparator(p.s4)
    && IsPart(p.width) && IsPart(p.height) && IsPart(p.maxValue)
    && Describe(p.width, p.height, p.maxValue, frame)
  }

  lemma PartsDescribe(width: seq<byte>, height: seq<byte>, maxValue: seq<byte>, rgb: seq<byte>, frame: Frame)
    ensures FrameFromParts(MAGIC, width, height, maxValue, rgb) == Ok(frame)
      <==> rgb == frame.rgb && Describe(width, height, maxValue, frame)
  {
    hide ParseInt;
  }

  /** Cutting a payload at a part's end. */
  lemma PartCut(payload: seq<byte>, cursor: nat, count: nat) returns (k: nat)
    requires cursor <= |payload| && count > 0 && Parts(payload, cursor, count).Some?
    ensures cursor <= k < |payload| && IsSeparator(payload[k]) && IsPart(payload[cursor..k])
    ensures Parts(payload, k + 1, count - 1).Some?
    ensures Parts(payload, cursor, count) == Some(Part(payload[cursor..k], Parts(payload, k + 1, count - 1).value))
  {
    k := NextSeparator(payload, cursor).value;
    forall i | 0 <= i < k - cursor ensures payload[cursor..k][i] != SPACE && payload[cursor..k][i] != NEWLINE {
      assert payload[cursor..k][i] == payload[cursor + i];
    }
  }

  lemma LoadedIsParted(payload: seq<byte>, frame: Frame) returns (p: Parted)
    requires LoadP6(payload) == Ok(frame)
    ensures IsParted(p, payload, frame)
  {
    hide FrameFromParts, Parts, IsSeparator, IsPart, Describe;
    var k1 := PartCut(payload, 0, 4);
    var k2 := PartCut(payload, k1 + 1, 3);
    var k3 := PartCut(payload, k2 + 1, 2);
    var k4 := PartCut(payload, k3 + 1, 1);
    NoMoreParts(payload, k4 + 1);
    var width, height, maxValue := payload[k1 + 1..k2], payload[k2 + 1..k3], payload[k3 + 1..k4];
    var rgb := payload[k4 + 1..];
    assert FrameFromParts(payload[0..k1], width, height, maxValue, rgb) == Ok(frame);
    LoadedMagic(payload[0..k1], width, height, maxValue, rgb);
    PartsDescribe(width, height, maxValue, rgb, frame);
    hide LoadP6;
    CutsJoin(payload, k1, k2, k3, k4);
    p := Parted(payload[k1], width, payload[k2], height, payload[k3], maxValue, payload[k4]);
  }

  lemma CutsJoin(payload: seq<byte>, k1: nat, k2: nat, k3: nat, k4: nat)
    requires k1 < k2 < k3 < k4 < |payload|
    ensures payload == payload[0..k1] + ([payload[k1]] + (payload[k1 + 1..k2] + ([payload[k2]] + (payload[k2 + 1..k3]
      + ([payload[k3]] + (payload[k3 + 1..k4] + ([payload[k4]] + payload[k4 + 1..])))))))
  {
    TwoCuts(payload, k2 + 1, k3, k4);
    TwoCuts(payload, 0, k1, k2);
    FromStart(payload);
  }

  lemma TwoCuts(payload: seq<byte>, from: nat, j: nat, k: nat)
    requires from <= j < k < |payload|
    ensures payload[from..]
      == payload[from..j] + ([payload[j]] + (payload[j + 1..k] + ([payload[k]] + payload[k + 1..])))
  {
    CutJoins(payload, j + 1, k);
    CutJoins(payload, from, j);
  }

  lemma CutJoins(payload: seq<byte>, from: nat, k: nat)
    requires from <= k < |payload|
    ensures payload[from..] == payload[from..k] + ([payload[k]] + payload[k + 1..])
  {}

  lemma LoadedMagic(magic: seq<byte>, width: seq<byte>, height: seq<byte>, maxValue: seq<byte>, rgb: seq<byte>)
    requires FrameFromParts(magic, width, height, maxValue, rgb).Ok?
    ensures magic == MAGIC
  {
    hide ParseInt;
  }

  /** The binary branch of `load_ppm_frame` reads a payload as a frame exactly if it is such parts and the raster. */
  lemma FixtureExactly(payload: seq<byte>, frame: Frame)
    ensures LoadP6(payload) == Ok(frame) <==> exists p :: IsParted(p, payload, frame)
  {
    hide LoadP6, FrameFromParts, Describe;
    if LoadP6(payload) == Ok(frame) {
      var p := LoadedIsParted(payload, frame);
    }
    forall p | IsParted(p, payload, frame) ensures LoadP6(payload) == Ok(frame) {
      FixedParts();
      FourParts(payload, MAGIC, p.s1, p.width, p.s2, p.height, p.s3, p.maxValue, p.s4, frame.rgb);
      PartsDescribe(p.width, p.height, p.maxValue, frame.rgb, frame);
    }
  }
}
