/**
 * One observation through the bridge: capture, evidence log, request, response, relay,
 * append-only feed, incremental reader and the check that the evidence is current.
 */
module BridgeCycle {
  import opened Prelude
  import opened JsonText
  import opened JsonlFeed
  import JsonReader

  // ----- screenshot evidence -----

  datatype EventRecord = EventRecord(runId: string, eventType: string, kind: Option<string>, evidenceIds: seq<string>)

  predicate IsScreenshot(e: EventRecord, runId: string) {
    && e.runId == runId && e.eventType == "evidence" && e.kind == Some("screenshot")
    && |e.evidenceIds| == 1 && e.evidenceIds[0] != ""
  }

  function LatestScreenshot(log: seq<EventRecord>, runId: string): Option<string> {
    if log == [] then None
    else if IsScreenshot(log[|log| - 1], runId) then Some(log[|log| - 1].evidenceIds[0])
    else LatestScreenshot(log[..|log| - 1], runId)
  }

  /** Record `i` logs a screenshot of the run under this one id, and no later record logs another. */
  ghost predicate LoggedLast(log: seq<EventRecord>, runId: string, i: nat, id: string) {
    && i < |log| && log[i] == EventRecord(runId, "evidence", Some("screenshot"), [id]) && id != ""
    && forall j, other :: i < j < |log| && other != "" ==>
         log[j] != EventRecord(runId, "evidence", Some("screenshot"), [other])
  }

  /** The latest id is that of the last matching record, and there is none only if no record matches. */
  lemma {:induction false} LatestIsLast(log: seq<EventRecord>, runId: string)
    ensures LatestScreenshot(log, runId).None? ==>
      forall i, id :: 0 <= i < |log| && id != "" ==> log[i] != EventRecord(runId, "evidence", Some("screenshot"), [id])
    ensures LatestScreenshot(log, runId).Some? ==>
      exists i :: LoggedLast(log, runId, i, LatestScreenshot(log, runId).value)
  {
    if log != [] {
      var front, last := log[..|log| - 1], log[|log| - 1];
      ScreenshotIs(last, runId);
      hide IsScreenshot;
      if IsScreenshot(last, runId) {
        assert LatestScreenshot(log, runId) == Some(last.evidenceIds[0]);
        var i: nat := |log| - 1;
        assert LoggedLast(log, runId, i, last.evidenceIds[0]);
      } else {
        LatestIsLast(front, runId);
        if LatestScreenshot(front, runId).Some? {
          var i :| LoggedLast(front, runId, i, LatestScreenshot(front, runId).value);
          assert LoggedLast(log, runId, i, LatestScreenshot(front, runId).value);
        }
      }
    }
  }

  lemma ScreenshotIs(e: EventRecord, runId: string)
    ensures IsScreenshot(e, runId) ==>
      && |e.evidenceIds| == 1 && e.evidenceIds[0] != ""
      && e == EventRecord(runId, "evidence", Some("screenshot"), [e.evidenceIds[0]])
    ensures !IsScreenshot(e, runId) ==>
      forall id :: id != "" ==> e != EventRecord(runId, "evidence", Some("screenshot"), [id])
  {}

  /** `latest_screenshot_evidence_id`. */
  method LatestScreenshotEvidenceId(log: seq<EventRecord>, runId: string) returns (latest: Option<string>)
    ensures latest == LatestScreenshot(log, runId)
  {
    latest := None;
    for i := 0 to |log|
      invariant latest == LatestScreenshot(log[..i], runId)
    {
      assert log[..i + 1][..i] == log[..i];
      if IsScreenshot(log[i], runId) {
        latest := Some(log[i].evidenceIds[0]);
      }
    }
    assert log[..|log|] == log;
  }

  // ----- request -----

  predicate IsSpace(c: char) {
    c == ' ' || 9 <= c as int <= 13 || 28 <= c as int <= 31
  }

  predicate Blank(s: string) {
    forall i :: 0 <= i < |s| ==> IsSpace(s[i])
  }

  const RUN_MODE := "bridge-assisted"

  datatype Request = Request(requestId: string, runId: string, screenshotId: string)

  datatype CycleError =
    | RunIdsDiffer | MissingDirectory | UnsafeRequestId | RequestExists | ResponseExists | FeedNotEmpty
    | CaptureFailed | BlankRequest | NoEvidence | NotLatestEvidence | NotPublished
    | ResponseTimedOut
    | ResponseIncomplete | ResponseNotJson | EnvelopeInvalid | NotCorrelated | NotSerializable | AppendFailed
    | FeedExhausted | FeedInvalid | FeedInconsistent | PayloadRejected | WrongRunMode | MissingScreenshotId
        | StaleScreenshot

  /** `create_bridge_snapshot_request`. */
  function CreateRequest(requestId: string, runId: string, screenshotId: string,
                         log: seq<EventRecord>): Result<Request, CycleError> {
    if Blank(requestId) || Blank(runId) || Blank(screenshotId) then Err(BlankRequest)
    else
      var latest := LatestScreenshot(log, runId);
      if latest.None? then Err(NoEvidence)
      else if latest.value != screenshotId then Err(NotLatestEvidence)
      else Ok(Request(requestId, runId, screenshotId))
  }

  // ----- response -----

  /** The value of a key; a repeated key counts where it comes last. */
  function Get(fields: seq<Field>, key: string): Option<Json> {
    if fields == [] then None
    else if fields[|fields| - 1].key == key then Some(fields[|fields| - 1].value)
    else Get(fields[..|fields| - 1], key)
  }

  predicate OnlyKeys(fields: seq<Field>, keys: seq<string>) {
    forall i :: 0 <= i < |fields| ==> fields[i].key in keys
  }

  datatype Response = Response(requestId: string, runId: string, payload: seq<Field>)

  /** The envelope model: two ids that are not blank, one object, nothing else. */
  function ParseEnvelope(j: Json): Result<Response, CycleError> {
    if !j.Object? then Err(ResponseNotJson)
    else
      var requestId, runId, payload := Get(j.fields, "request_id"), Get(j.fields, "run_id"), Get(j.fields, "payload");
      if !OnlyKeys(j.fields, ["request_id", "run_id", "payload"]) then Err(EnvelopeInvalid)
      else
        match (requestId, runId, payload)
        case (Some(Str(r)), Some(Str(u)), Some(Object(fields))) =>
          if Blank(r) || Blank(u) then Err(EnvelopeInvalid) else Ok(Response(r, u, fields))
        case _ => Err(EnvelopeInvalid)
  }

  /** `unwrap_bridge_snapshot_response`: four correlations, and the payload unchanged. */
  function Unwrap(response: Response, request: Request): Result<seq<Field>, CycleError> {
    if response.requestId != request.requestId || response.runId != request.runId then Err(NotCorrelated)
    else if Get(response.payload, "run_mode") != Some(Str(RUN_MODE)) then Err(NotCorrelated)
    else if Get(response.payload, "screenshot_id") != Some(Str(request.screenshotId)) then Err(NotCorrelated)
    else Ok(response.payload)
  }

  /** What an accepted payload becomes. */
  datatype BridgeObservation = BridgeObservation(runMode: string, screenshotId: Option<string>, visible: Json)

  /** Text decoding and sanitising, taken as arbitrary functions. */
  datatype Codec = Codec(decode: seq<byte> -> Option<Json>, parse: Parse, accept: Json -> Option<BridgeObservation>)

  /** The record of a response that may be relayed for the request. */
  function RelayRecord(codec: Codec, request: Request, bytes: seq<byte>): Result<seq<byte>, CycleError> {
    if bytes == [] || bytes[|bytes| - 1] != LINE_FEED then Err(ResponseIncomplete)
    else
      var decoded := codec.decode(bytes);
      if decoded.None? then Err(ResponseNotJson)
      else
        var response := ParseEnvelope(decoded.value);
        if response.Err? then Err(response.error)
        else
          var payload := Unwrap(response.value, request);
          if payload.Err? then Err(payload.error)
          else
            var record := Record(Object(payload.value));
            if record.None? then Err(NotSerializable) else Ok(record.value)
  }

  // ----- what a response must say -----

  /** The last field of this name has this value. */
  ghost predicate LastField(fields: seq<Field>, key: string, value: Json) {
    exists k :: 0 <= k < |fields| && fields[k] == Field(key, value) && NoneAfter(fields, key, k)
  }

  predicate NoneAfter(fields: seq<Field>, key: string, k: int) {
    forall j :: k < j < |fields| && j >= 0 ==> fields[j].key != key
  }

  lemma {:induction false} GetIsLast(fields: seq<Field>, key: string, value: Json)
    ensures Get(fields, key) == Some(value) <==> LastField(fields, key, value)
  {
    if fields != [] {
      var n := |fields| - 1;
      var front := fields[..n];
      GetIsLast(front, key, value);
      if fields[n].key == key {
        assert fields[n] == Field(key, fields[n].value) && NoneAfter(fields, key, n);
      } else {
        if LastField(front, key, value) {
          var k :| 0 <= k < |front| && front[k] == Field(key, value) && NoneAfter(front, key, k);
          assert fields[k] == Field(key, value) && NoneAfter(fields, key, k);
        }
        if LastField(fields, key, value) {
          var k :| 0 <= k < |fields| && fields[k] == Field(key, value) && NoneAfter(fields, key, k);
          assert front[k] == Field(key, value) && NoneAfter(front, key, k);
        }
      }
    }
  }

  /** An envelope of exactly the three fields, for this request of this run, around a payload for this screenshot. */
  ghost predicate Correlated(j: Json, requestId: string, runId: string, screenshotId: string, payload: seq<Field>) {
    && j.Object?
    && (forall k :: 0 <= k < |j.fields| ==>
          j.fields[k].key == "request_id" || j.fields[k].key == "run_id" || j.fields[k].key == "payload")
    && LastField(j.fields, "request_id", Str(requestId)) && LastField(j.fields, "run_id", Str(runId))
    && LastField(j.fields, "payload", Object(payload))
    && LastField(payload, "run_mode", Str("bridge-assisted")) && LastField(payload, "screenshot_id", Str(screenshotId))
  }

  /** A complete response whose text is such an envelope. */
  ghost predicate Answered(codec: Codec, bytes: seq<byte>, requestId: string, runId: string, screenshotId: string,
                           payload: seq<Field>) {
    && bytes != [] && bytes[|bytes| - 1] == LINE_FEED && codec.decode(bytes).Some?
    && Correlated(codec.decode(bytes).value, requestId, runId, screenshotId, payload)
  }

  ghost predicate Relayable(codec: Codec, request: Request, bytes: seq<byte>, payload: seq<Field>) {
    && Answered(codec, bytes, request.requestId, request.runId, request.screenshotId, payload)
    && Record(Object(payload)).Some?
  }

  lemma EnvelopeExactly(j: Json, request: Request, payload: seq<Field>)
    requires !Blank(request.requestId) && !Blank(request.runId)
    ensures Correlated(j, request.requestId, request.runId, request.screenshotId, payload)
      <==> ParseEnvelope(j).Ok? && Unwrap(ParseEnvelope(j).value, request) == Ok(payload)
  {
    hide Blank, Get, LastField;
    if j.Object? {
      GetIsLast(j.fields, "request_id", Str(request.requestId));
      GetIsLast(j.fields, "run_id", Str(request.runId));
      GetIsLast(j.fields, "payload", Object(payload));
      GetIsLast(payload, "run_mode", Str("bridge-assisted"));
      GetIsLast(payload, "screenshot_id", Str(request.screenshotId));
    }
  }

  /** A response is relayed exactly if it answers the request and can be printed, and then as its payload's record. */
  lemma RelayedExactly(codec: Codec, request: Request, bytes: seq<byte>)
    requires !Blank(request.requestId) && !Blank(request.runId)
    ensures RelayRecord(codec, request, bytes).Ok? ==>
      exists payload :: Relayable(codec, request, bytes, payload)
                        && Record(Object(payload)).value == RelayRecord(codec, request, bytes).value
    ensures forall payload :: Relayable(codec, request, bytes, payload) ==>
                                RelayRecord(codec, request, bytes) == Ok(Record(Object(payload)).value)
  {
    hide Blank, Record, ParseEnvelope, Unwrap, Correlated;
    if bytes != [] && bytes[|bytes| - 1] == LINE_FEED && codec.decode(bytes).Some? {
      var j := codec.decode(bytes).value;
      forall payload: seq<Field>
        ensures Correlated(j, request.requestId, request.runId, request.screenshotId, payload)
          <==> ParseEnvelope(j).Ok? && Unwrap(ParseEnvelope(j).value, request) == Ok(payload)
      {
        EnvelopeExactly(j, request, payload);
      }
    }
  }

  /** A request is made exactly for ids that are not blank, about the run's last logged screenshot. */
  lemma RequestExactly(requestId: string, runId: string, screenshotId: string, log: seq<EventRecord>)
    ensures CreateRequest(requestId, runId, screenshotId, log) == Ok(Request(requestId, runId, screenshotId)) <==>
      && !Blank(requestId) && !Blank(runId) && !Blank(screenshotId)
      && exists i :: LoggedLast(log, runId, i, screenshotId)
  {
    hide Blank;
    LatestIsLast(log, runId);
    hide LatestScreenshot;
    if i :| LoggedLast(log, runId, i, screenshotId) {
      assert LatestScreenshot(log, runId).Some?;
      var j :| LoggedLast(log, runId, j, LatestScreenshot(log, runId).value);
      assert i == j;
    }
  }

  // ----- a cycle -----

  datatype Ids = Ids(run: string, store: string, logger: string)

  /**
   * What the world does during one cycle: names taken, the captured evidence id, and the response,
   * if one arrives in time.
   */
  datatype Input = Input(requestId: string, directoriesOk: bool, requestTaken: bool, responseTaken: bool,
                         evidence: Option<string>, published: bool, response: Option<seq<byte>>, appends: bool)

  datatype Bridge = Bridge(started: bool, feed: Feed, reader: Reader, log: seq<EventRecord>,
                           requests: map<string, Request>)

  predicate TokenChar(c: char) {
    'a' <= c <= 'z' || 'A' <= c <= 'Z' || '0' <= c <= '9'
  }

  predicate SafeToken(s: string) {
    s != "" && TokenChar(s[0]) && forall i :: 0 <= i < |s| ==> TokenChar(s[i]) || s[i] == '_' || s[i] == '-'
  }

  function Preflight(ids: Ids, s: Bridge, i: Input): Option<CycleError> {
    if ids.run != ids.store || ids.run != ids.logger then Some(RunIdsDiffer)
    else if !i.directoriesOk then Some(MissingDirectory)
    else if !SafeToken(i.requestId) then Some(UnsafeRequestId)
    else if i.requestTaken || i.requestId in s.requests then Some(RequestExists)
    else if i.responseTaken then Some(ResponseExists)
    else if !s.started && Bytes(s.feed) != [] then Some(FeedNotEmpty)
    else None
  }

  function ScreenshotEvent(ids: Ids, evidence: string): EventRecord {
    EventRecord(ids.run, "evidence", Some("screenshot"), [evidence])
  }

  /** `capture_and_publish_bridge_snapshot_request`. */
  function Host(ids: Ids, s: Bridge, i: Input): (Result<Request, CycleError>, Bridge) {
    if i.evidence.None? then (Err(CaptureFailed), s)
    else
      var logged := s.(log := s.log + [ScreenshotEvent(ids, i.evidence.value)]);
      var request := CreateRequest(i.requestId, ids.run, i.evidence.value, logged.log);
      if request.Err? then (Err(request.error), logged)
      else if !i.published then (Err(NotPublished), logged)
      else (Ok(request.value), logged.(requests := s.requests[i.requestId := request.value]))
  }

  /** `BridgeObservationSource.observe` after the reader's answer. */
  function Judge(codec: Codec, ids: Ids, log: seq<EventRecord>, answer: Answer): Result<BridgeObservation, CycleError> {
    match answer
    case Exhausted => Err(FeedExhausted)
    case InvalidRecord => Err(FeedInvalid)
    case FeedVanished => Err(FeedInconsistent)
    case FeedTruncated => Err(FeedInconsistent)
    case Payload(payload) =>
      var observation := codec.accept(payload);
      if observation.None? then Err(PayloadRejected)
      else if observation.value.runMode != RUN_MODE then Err(WrongRunMode)
      else
        var id := observation.value.screenshotId;
        if id.None? || id.value == "" then Err(MissingScreenshotId)
        else
          var latest := LatestScreenshot(log, ids.run);
          if latest.None? then Err(NoEvidence)
          else if id != latest then Err(StaleScreenshot)
          else Ok(observation.value)
  }

  /** Waiting for the response, relaying it, and reading one payload back. */
  function Exchange(codec: Codec, ids: Ids, s: Bridge, request: Request, i: Input)
    : (Result<BridgeObservation, CycleError>, Bridge)
  {
    if i.response.None? then (Err(ResponseTimedOut), s)
    else
      var record := RelayRecord(codec, request, i.response.value);
      if record.Err? then (Err(record.error), s)
      else if !i.appends then (Err(AppendFailed), s)
      else
        var feed := File(Bytes(s.feed) + record.value);
        var (answer, reader) := Next(s.reader, feed, codec.parse);
        (Judge(codec, ids, s.log, answer), s.(feed := feed, reader := reader))
  }

  /** `BridgeSnapshotObservationSource.observe`. */
  function Cycle(codec: Codec, ids: Ids, s: Bridge, i: Input): (Result<BridgeObservation, CycleError>, Bridge) {
    var error := Preflight(ids, s, i);
    if error.Some? then (Err(error.value), s)
    else
      var (request, hosted) := Host(ids, s.(started := true), i);
      if request.Err? then (Err(request.error), hosted) else Exchange(codec, ids, hosted, request.value, i)
  }

  // ----- what every cycle keeps -----

  /** Every record the relay writes is one the reader takes. */
  ghost predicate ReadsRecords(codec: Codec) {
    forall fields: seq<Field> :: Record(Object(fields)).Some? ==> codec.parse(Record(Object(fields)).value).Some?
  }

  /** Once a cycle has started the reader is at the end of the feed; before, it has read nothing. */
  predicate Synced(s: Bridge) {
    if s.started then
      s.reader.offset == |Bytes(s.feed)| && (s.reader.consumed ==> s.feed.File?)
    else s.reader == Reader(0, false)
  }

  lemma LatestOfAppended(log: seq<EventRecord>, e: EventRecord, runId: string)
    ensures LatestScreenshot(log + [e], runId) == if IsScreenshot(e, runId) then Some(e.evidenceIds[0])
      else LatestScreenshot(log, runId)
  {
    assert (log + [e])[..|log|] == log;
  }

  lemma RelayedIsRecord(codec: Codec, request: Request, bytes: seq<byte>)
    requires RelayRecord(codec, request, bytes).Ok?
    ensures exists fields: seq<Field> :: Record(Object(fields)) == Some(RelayRecord(codec, request, bytes).value)
  {
    var payload := Unwrap(ParseEnvelope(codec.decode(bytes).value).value, request).value;
    assert Record(Object(payload)) == Some(RelayRecord(codec, request, bytes).value);
  }

  lemma ReadsWholeTail(parse: Parse, bytes: seq<byte>, record: seq<byte>, reader: Reader)
    requires reader.offset == |bytes| && LineEnd(bytes + record, |bytes|) == Some(|bytes + record|)
      && parse(record).Some?
    ensures Next(reader, File(bytes + record), parse)
      == (Payload(parse(record).value), Reader(|bytes| + |record|, true))
  {
    hide LineEnd;
    assert (bytes + record)[|bytes|..|bytes + record|] == record;
  }

  /** A relayed record is read back at once, as a whole, and leaves the reader at the end of the feed. */
  lemma ReadsOwnRecord(codec: Codec, request: Request, bytes: seq<byte>, feed: Feed, reader: Reader)
    requires ReadsRecords(codec) && RelayRecord(codec, request, bytes).Ok? && reader.offset == |Bytes(feed)|
    ensures var record := RelayRecord(codec, request, bytes).value;
      var (answer, next) := Next(reader, File(Bytes(feed) + record), codec.parse);
      && codec.parse(record).Some? && answer == Payload(codec.parse(record).value)
      && next == Reader(|Bytes(feed)| + |record|, true)
  {
    hide RelayRecord, LineEnd, Record, Next;
    RelayedIsRecord(codec, request, bytes);
    var record := RelayRecord(codec, request, bytes).value;
    var fields: seq<Field> :| Record(Object(fields)) == Some(record);
    RecordIsNextLine(Bytes(feed), Object(fields));
    ReadsWholeTail(codec.parse, Bytes(feed), record, reader);
  }

  lemma HostKeeps(ids: Ids, s: Bridge, i: Input)
    ensures var (request, t) := Host(ids, s, i);
      && t.started == s.started && t.feed == s.feed && t.reader == s.reader
      && (request.Ok? ==>
            && i.evidence.Some? && !Blank(i.evidence.value) && !Blank(i.requestId) && !Blank(ids.run)
            && request.value == Request(i.requestId, ids.run, i.evidence.value)
            && LatestScreenshot(t.log, ids.run) == i.evidence)
  {
    hide LatestScreenshot;
    if i.evidence.Some? { LatestOfAppended(s.log, ScreenshotEvent(ids, i.evidence.value), ids.run); }
  }

  /**
   * One cycle: the reader ends at the end of the feed, whether the cycle succeeds or fails at any
   * point; a returned observation is what the payload of the cycle's own response was accepted as.
   * A response that does not answer the cycle's own request for its own capture leaves the feed unchanged.
   */
  lemma CycleKeeps(codec: Codec, ids: Ids, s: Bridge, i: Input)
    requires Synced(s) && ReadsRecords(codec)
    ensures var (result, t) := Cycle(codec, ids, s, i);
      && Synced(t)
      && (result.Ok? ==> CitesOwnCapture(codec, ids, i, result.value))
      && (!HasAnswer(codec, ids, i) ==> t.feed == s.feed && result.Err?)
  {
    hide LatestScreenshot, Next, ReadsRecords, RelayRecord, CreateRequest, OwnAnswer, Blank;
    if Preflight(ids, s, i).None? {
      HostKeeps(ids, s.(started := true), i);
      var (request, hosted) := Host(ids, s.(started := true), i);
      hide Host;
      if request.Ok? && i.response.Some? {
        OwnAnswerRelayed(codec, ids, i, request.value);
        if RelayRecord(codec, request.value, i.response.value).Ok? {
          ReadsOwnRecord(codec, request.value, i.response.value, hosted.feed, hosted.reader);
        }
      }
    }
  }

  /** The response answers the cycle's own request, citing the screenshot captured in it. */
  ghost predicate OwnAnswer(codec: Codec, ids: Ids, i: Input, payload: seq<Field>) {
    && i.evidence.Some? && i.response.Some?
    && Answered(codec, i.response.value, i.requestId, ids.run, i.evidence.value, payload)
    && Record(Object(payload)).Some?
  }

  /** The cycle's own answer is what is relayed, and nothing else is. */
  lemma OwnAnswerRelayed(codec: Codec, ids: Ids, i: Input, request: Request)
    requires i.evidence.Some? && i.response.Some? && request == Request(i.requestId, ids.run, i.evidence.value)
    requires !Blank(request.requestId) && !Blank(request.runId)
    ensures RelayRecord(codec, request, i.response.value).Ok? <==> HasAnswer(codec, ids, i)
    ensures forall payload :: OwnAnswer(codec, ids, i, payload) ==>
              && Record(Object(payload)) == Some(RelayRecord(codec, request, i.response.value).value)
    ensures HasAnswer(codec, ids, i) ==> exists payload :: OwnAnswer(codec, ids, i, payload)
  {
    hide RelayRecord, Record, Answered, Blank;
    RelayedExactly(codec, request, i.response.value);
    if RelayRecord(codec, request, i.response.value).Ok? {
      var payload :| Relayable(codec, request, i.response.value, payload);
      assert OwnAnswer(codec, ids, i, payload);
    }
    forall payload | OwnAnswer(codec, ids, i, payload)
      ensures RelayRecord(codec, request, i.response.value).Ok?
              && Record(Object(payload)) == Some(RelayRecord(codec, request, i.response.value).value)
    {
      assert Relayable(codec, request, i.response.value, payload);
    }
  }

  ghost predicate HasAnswer(codec: Codec, ids: Ids, i: Input) {
    exists payload :: OwnAnswer(codec, ids, i, payload)
  }

  /** What the record of a payload was read back and accepted as. */
  function Accepted(codec: Codec, payload: seq<Field>): Option<BridgeObservation> {
    var record := Record(Object(payload));
    if record.None? || codec.parse(record.value).None? then None else codec.accept(codec.parse(record.value).value)
  }

  /** The observation is what the cycle's own response was accepted as, and cites the screenshot captured in it. */
  ghost predicate CitesOwnCapture(codec: Codec, ids: Ids, i: Input, observation: BridgeObservation) {
    && i.evidence.Some? && observation.screenshotId == i.evidence && observation.runMode == "bridge-assisted"
    && exists payload :: OwnAnswer(codec, ids, i, payload) && Accepted(codec, payload) == Some(observation)
  }

  // ----- when a cycle succeeds -----

  /** Nothing stands in the way before the capture. */
  ghost predicate MayStart(ids: Ids, s: Bridge, i: Input) {
    && ids.run == ids.store && ids.run == ids.logger && i.directoriesOk && SafeToken(i.requestId)
    && !i.requestTaken && !i.responseTaken && i.requestId !in s.requests
    && (s.started || s.feed == Missing || s.feed == File([]))
  }

  /** Safe tokens are file names: no separators, dots, blanks or control characters, and no leading dash. */
  lemma SafeTokensName(token: string)
    requires SafeToken(token)
    ensures token != "" && token[0] != '-' && token[0] != '_'
    ensures forall c :: c in token ==> ' ' < c < (127 as char) && c != '/' && c != '.' && c != 92 as char
  {}

  /** The cycle's own answer, read back from the feed, is accepted as an observation of its own capture. */
  ghost predicate AcceptedAnswer(codec: Codec, ids: Ids, i: Input, payload: seq<Field>) {
    && OwnAnswer(codec, ids, i, payload) && Accepted(codec, payload).Some?
    && Accepted(codec, payload).value.runMode == "bridge-assisted"
    && Accepted(codec, payload).value.screenshotId == i.evidence
  }

  lemma ExchangeExactly(codec: Codec, ids: Ids, s: Bridge, request: Request, i: Input)
    requires ReadsRecords(codec) && s.reader.offset == |Bytes(s.feed)| && LatestScreenshot(s.log, ids.run) == i.evidence
    requires i.evidence.Some? && i.evidence.value != "" && request == Request(i.requestId, ids.run, i.evidence.value)
    requires !Blank(request.requestId) && !Blank(request.runId)
    ensures Exchange(codec, ids, s, request, i).0.Ok?
      <==> i.appends && exists payload :: AcceptedAnswer(codec, ids, i, payload)
  {
    hide LatestScreenshot, Next, ReadsRecords, RelayRecord, OwnAnswer, Blank;
    if i.response.Some? {
      OwnAnswerRelayed(codec, ids, i, request);
      if RelayRecord(codec, request, i.response.value).Ok? {
        ReadsOwnRecord(codec, request, i.response.value, s.feed, s.reader);
        var payload :| OwnAnswer(codec, ids, i, payload);
        assert Exchange(codec, ids, s, request, i).0.Ok? && i.appends ==> AcceptedAnswer(codec, ids, i, payload);
      }
    } else {
      NoResponse(codec, ids, i);
    }
  }

  lemma NoResponse(codec: Codec, ids: Ids, i: Input)
    requires i.response.None?
    ensures forall payload :: !OwnAnswer(codec, ids, i, payload)
  {}

  /** A cycle succeeds exactly if it may start, captures, publishes, and gets and appends its own answer. */
  lemma CycleSucceedsExactly(codec: Codec, ids: Ids, s: Bridge, i: Input)
    requires Synced(s) && ReadsRecords(codec)
    ensures Cycle(codec, ids, s, i).0.Ok? <==>
      && MayStart(ids, s, i) && i.published && i.appends
      && i.evidence.Some? && !Blank(i.evidence.value) && !Blank(ids.run)
      && exists payload :: AcceptedAnswer(codec, ids, i, payload)
  {
    hide LatestScreenshot, ReadsRecords, SafeToken, AcceptedAnswer, Exchange, Blank;
    PreflightExactly(ids, s, i);
    if MayStart(ids, s, i) {
      TokenNotBlank(i.requestId);
      HostKeeps(ids, s.(started := true), i);
      HostSucceeds(ids, s.(started := true), i);
      var (request, hosted) := Host(ids, s.(started := true), i);
      hide Host, Preflight;
      if request.Ok? {
        BlankIsNot(i.evidence.value);
        ExchangeExactly(codec, ids, hosted, request.value, i);
      }
    }
  }

  lemma BlankIsNot(text: string)
    requires !Blank(text)
    ensures text != ""
  {}

  lemma PreflightExactly(ids: Ids, s: Bridge, i: Input)
    ensures Preflight(ids, s, i).None? <==> MayStart(ids, s, i)
  {}

  lemma TokenNotBlank(token: string)
    requires SafeToken(token)
    ensures !Blank(token)
  {}

  lemma HostSucceeds(ids: Ids, s: Bridge, i: Input)
    requires !Blank(i.requestId)
    ensures Host(ids, s, i).0.Ok? <==> i.evidence.Some? && !Blank(i.evidence.value) && !Blank(ids.run) && i.published
  {
    hide LatestScreenshot, Blank;
    if i.evidence.Some? {
      LatestOfAppended(s.log, ScreenshotEvent(ids, i.evidence.value), ids.run);
      if !Blank(i.evidence.value) { BlankIsNot(i.evidence.value); }
    }
  }

  // ----- a reader that does -----

  /** The reader of the JSON text itself takes every record the relay writes. */
  lemma ReaderReadsRecords(codec: Codec)
    requires forall line :: codec.parse(line) == JsonReader.ParseLine(line)
    ensures ReadsRecords(codec)
  {
    forall fields: seq<Field> | Record(Object(fields)).Some? ensures codec.parse(Record(Object(fields)).value).Some? {
      JsonReader.RecordRoundTrip(fields);
    }
  }

  /** From response to observation the payload is unchanged but for the order of its keys. */
  lemma PayloadArrivesUnchanged(codec: Codec, ids: Ids, s: Bridge, i: Input)
    requires Synced(s) && forall line :: codec.parse(line) == JsonReader.ParseLine(line)
    ensures var result := Cycle(codec, ids, s, i).0;
      result.Ok? ==> exists payload :: OwnAnswer(codec, ids, i, payload)
                                       && codec.accept(JsonReader.KeySorted(Object(payload))) == Some(result.value)
  {
    hide Cycle, Synced, ReadsRecords, Record, JsonReader.ParseLine, JsonReader.KeySorted, OwnAnswer;
    ReaderReadsRecords(codec);
    CycleKeeps(codec, ids, s, i);
    var result := Cycle(codec, ids, s, i).0;
    if result.Ok? {
      var payload :| OwnAnswer(codec, ids, i, payload) && Accepted(codec, payload) == Some(result.value);
      OwnAnswerHas(codec, ids, i, payload);
      JsonReader.RecordRoundTrip(payload);
    }
  }

  lemma OwnAnswerHas(codec: Codec, ids: Ids, i: Input, payload: seq<Field>)
    requires OwnAnswer(codec, ids, i, payload)
    ensures Record(Object(payload)).Some?
  {}

  // ----- any sequence of cycles -----

  function RunCycles(codec: Codec, ids: Ids, s: Bridge, inputs: seq<Input>): Bridge
    decreases |inputs|
  {
    if inputs == [] then s else RunCycles(codec, ids, Cycle(codec, ids, s, inputs[0]).1, inputs[1..])
  }

  function Outcomes(codec: Codec, ids: Ids, s: Bridge, inputs: seq<Input>)
    : (r: seq<Result<BridgeObservation, CycleError>>)
    ensures |r| == |inputs|
    decreases |inputs|
  {
    if inputs == [] then []
    else [Cycle(codec, ids, s, inputs[0]).0] + Outcomes(codec, ids, Cycle(codec, ids, s, inputs[0]).1, inputs[1..])
  }

  /** A failed cycle never desynchronises a later one. */
  lemma {:induction false} EveryObservationIsCurrent(codec: Codec, ids: Ids, s: Bridge, inputs: seq<Input>, k: nat)
    requires Synced(s) && ReadsRecords(codec) && k < |inputs|
    ensures Synced(RunCycles(codec, ids, s, inputs))
    ensures Outcomes(codec, ids, s, inputs)[k].Ok?
      ==> CitesOwnCapture(codec, ids, inputs[k], Outcomes(codec, ids, s, inputs)[k].value)
    decreases |inputs|
  {
    CycleKeeps(codec, ids, s, inputs[0]);
    hide Cycle, Synced, ReadsRecords, CitesOwnCapture;
    var t := Cycle(codec, ids, s, inputs[0]).1;
    if |inputs| > 1 {
      EveryObservationIsCurrent(codec, ids, t, inputs[1..], if k > 0 then k - 1 else 0);
    }
  }

  // ----- the class -----

  class SnapshotSource {
    const codec: Codec
    const ids: Ids
    const reader: Source
    var started: bool
    var feed: Feed
    var log: seq<EventRecord>
    var requests: map<string, Request>

    ghost function Value(): Bridge
      reads this, reader
    {
      Bridge(started, feed, reader.Value(), log, requests)
    }

    ghost predicate Valid()
      reads this, reader
    {
      reader.parse == codec.parse && Synced(Value())
    }

    constructor (codec: Codec, ids: Ids, feed: Feed, log: seq<EventRecord>)
      ensures Valid() && fresh(reader) && Value() == Bridge(false, feed, Reader(0, false), log, map[])
    {
      this.codec, this.ids := codec, ids;
      reader := new Source(codec.parse);
      started, this.feed, this.log, requests := false, feed, log, map[];
    }

    method PublishRequest(i: Input) returns (request: Result<Request, CycleError>)
      modifies this
      ensures (request, Value()) == Host(ids, old(Value()), i)
      ensures reader.Value() == old(reader.Value())
    {
      if i.evidence.None? { return Err(CaptureFailed); }
      log := log + [ScreenshotEvent(ids, i.evidence.value)];
      var latest := LatestScreenshotEvidenceId(log, ids.run);
      if Blank(i.requestId) || Blank(ids.run) || Blank(i.evidence.value) { return Err(BlankRequest); }
      if latest.None? { return Err(NoEvidence); }
      if latest.value != i.evidence.value { return Err(NotLatestEvidence); }
      if !i.published { return Err(NotPublished); }
      requests := requests[i.requestId := Request(i.requestId, ids.run, i.evidence.value)];
      return Ok(Request(i.requestId, ids.run, i.evidence.value));
    }

    /** Waits for the response, relays it and reads it back. */
    method Receive(request: Request, i: Input) returns (result: Result<BridgeObservation, CycleError>)
      requires reader.parse == codec.parse
      modifies this, reader
      ensures (result, Value()) == Exchange(codec, ids, old(Value()), request, i)
    {
      hide RelayRecord, Next, Judge;
      if i.response.None? { return Err(ResponseTimedOut); }
      var record := RelayRecord(codec, request, i.response.value);
      if record.Err? { return Err(record.error); }
      if !i.appends { return Err(AppendFailed); }
      feed := File(Bytes(feed) + record.value);
      var answer := reader.NextPayload(feed);
      result := Judge(codec, ids, log, answer);
    }

    /** `observe`, from preflight to the current-evidence check. */
    method Observe(i: Input) returns (result: Result<BridgeObservation, CycleError>)
      requires Valid() && ReadsRecords(codec)
      modifies this, reader
      ensures Valid() && (result, Value()) == Cycle(codec, ids, old(Value()), i)
      ensures result.Ok? ==> CitesOwnCapture(codec, ids, i, result.value)
      ensures !HasAnswer(codec, ids, i) ==> result.Err? && feed == old(feed)
    {
      CycleKeeps(codec, ids, Value(), i);
      hide CitesOwnCapture, HasAnswer, ReadsRecords, Exchange, Host, Synced;
      var error := Preflight(ids, Bridge(started, feed, Reader(reader.offset, reader.consumed), log, requests), i);
      if error.Some? { return Err(error.value); }
      started := true;
      var request := PublishRequest(i);
      if request.Err? { return Err(request.error); }
      result := Receive(request.value, i);
    }
  }
}
