/**
  The wire format of one relay record: a fixed 14-byte header ("!4sBBII"), a JSON
  metadata object and, for audio only, a PCM payload. JSON text, timestamps and reason
  names are read and written by the functions of a `TextLayer`; everything around them
  is concrete.
 */
module RelayFraming {
  import opened Common

  const HEADER_BYTES := 14
  const MAX_METADATA_BYTES := 2048
  const MAX_AUDIO_BYTES := 64000
  const MAX_RECORD_BYTES := HEADER_BYTES + MAX_METADATA_BYTES + MAX_AUDIO_BYTES
  const MAX_IDENTIFIER := 128
  const MIN_TOKEN := 16
  const MAX_TOKEN := 256
  const MAGIC: Bytes := [67, 77, 82, 76]
  const VERSION: Byte := 1

  datatype MessageType = START | AUDIO | PAUSE | RESUME | END | ACK | ERROR

  datatype Reason =
    | Started | AudioAccepted | Paused | Resumed | Ended | ExactDuplicate
    | BadMagic | UnsupportedVersion | UnknownMessageType | MetadataTooLarge | PayloadTooLarge
    | UnexpectedPayload | AudioPayloadRequired | OddAudioPayload | InvalidUtf8 | MalformedJson
    | DuplicateJsonKey | NonFiniteNumber | UnknownMetadataField | MissingMetadataField
    | InvalidMetadata | InvalidIdentifier | InvalidToken | InvalidFormat | InvalidSampleCount
    | AuthenticationFailed | ScopeMismatch | UnexpectedMessageOrder | SequenceGap | StaleSequence
    | StaleGeneration | GenerationMismatch | ConflictingDuplicate | TerminalState | BufferLimit
    | ReceiverDisabled | InvalidBind | ClientActive | IoTimeout | ConnectionClosed
    | SessionRejected | MicrophoneUnavailable | MicrophoneOpenFailed

  datatype EndReason = COMPLETED | CANCELLED

  /** A decoded JSON member: text, integer, or anything else. */
  datatype Json = Text(text: string) | Number(number: int) | Other

  datatype Metadata =
    | StartMeta(token: string, tenantId: string, callId: string, streamId: string, sequence: nat, generation: nat)
    | AudioMeta(sequence: nat, generation: nat, sampleCount: nat, capturedAt: int)
    | ControlMeta(sequence: nat, generation: nat)
    | EndMeta(sequence: nat, generation: nat, endReason: EndReason)
    | ResponseMeta(sequence: nat, reason: Reason)

  /** `fingerprint` is the digested byte string; two digests are taken to agree exactly when these do. */
  datatype Record = Record(kind: MessageType, meta: Metadata, payload: Bytes, fingerprint: Bytes)

  /** One record as it travels: its type, its metadata text and its payload. */
  datatype Frame = Frame(kind: MessageType, metadata: Bytes, payload: Bytes)

  /** The text layer: JSON objects, ISO timestamps and reason names, each read and written. */
  datatype TextLayer = TextLayer(
    loads: Bytes -> Result<map<string, Json>, Reason>,
    dumps: map<string, Json> -> Option<Bytes>,
    parseTime: string -> Option<int>,
    formatTime: int -> string,
    parseReason: string -> Option<Reason>,
    formatReason: Reason -> string)

  /** Members that are all text or integers, as every member a relay record carries is. */
  predicate Plain(values: map<string, Json>) {
    forall name :: name in values ==> values[name] != Other
  }

  /** A written moment reads back as itself, if at all; a moment that was ever read can be written. */
  ghost predicate TimesReadBack(text: TextLayer) {
    && (forall t :: text.parseTime(text.formatTime(t)).Some? ==> text.parseTime(text.formatTime(t)).value == t)
    && (forall s :: text.parseTime(s).Some? ==> WritableTime(text, text.parseTime(s).value))
  }

  /** What the standard library promises of the text layer: reading undoes writing, where writing succeeds. */
  ghost predicate Lawful(text: TextLayer) {
    && (forall values :: Plain(values) && text.dumps(values).Some? ==>
          text.loads(text.dumps(values).value) == Ok(values))
    && TimesReadBack(text)
    && (forall r :: IsText(Text(text.formatReason(r))) && text.parseReason(text.formatReason(r)) == Some(r))
  }

  ghost predicate WritableTime(text: TextLayer, t: int) {
    IsText(Text(text.formatTime(t))) && text.parseTime(text.formatTime(t)) == Some(t)
  }

  function TypeCode(kind: MessageType): Byte {
    match kind
    case START => 1 case AUDIO => 2 case PAUSE => 3 case RESUME => 4
    case END => 5 case ACK => 6 case ERROR => 7
  }

  function TypeOf(code: Byte): Option<MessageType> {
    match code
    case 1 => Some(START) case 2 => Some(AUDIO) case 3 => Some(PAUSE) case 4 => Some(RESUME)
    case 5 => Some(END) case 6 => Some(ACK) case 7 => Some(ERROR)
    case _ => None
  }

  // ----- Header -----

  type Word = n: nat | n < 0x1_0000_0000

  function PackWord(n: Word): (b: Bytes)
    ensures |b| == 4
  {
    [n / 256 / 256 / 256, n / 256 / 256 % 256, n / 256 % 256, n % 256]
  }

  /** One more base-256 digit. */
  function Shift(high: nat, low: Byte): (n: nat)
    ensures n / 256 == high && n % 256 == low
  {
    var h: int, l: int := high, low;
    h * 256 + l
  }

  function UnpackWord(b: Bytes): Word
    requires |b| == 4
  {
    Shift(Shift(Shift(b[0], b[1]), b[2]), b[3])
  }

  lemma {:induction false} WordRoundTrip(n: Word)
    ensures UnpackWord(PackWord(n)) == n
  {
  }

  lemma {:induction false} WordRoundTripBack(b: Bytes)
    requires |b| == 4
    ensures PackWord(UnpackWord(b)) == b
  {
  }

  function LengthFault(kind: MessageType, metadataLength: nat, payloadLength: nat): Option<Reason> {
    if metadataLength > MAX_METADATA_BYTES then Some(MetadataTooLarge)
    else if kind == AUDIO then
      if payloadLength == 0 then Some(AudioPayloadRequired)
      else if payloadLength > MAX_AUDIO_BYTES then Some(PayloadTooLarge)
      else if payloadLength % 2 != 0 then Some(OddAudioPayload)
      else None
    else if payloadLength != 0 then Some(UnexpectedPayload)
    else None
  }

  datatype Header = Header(kind: MessageType, metadataLength: nat, payloadLength: nat)
  {
    function RecordBytes(): nat {
      HEADER_BYTES + metadataLength + payloadLength
    }

    predicate Valid() {
      LengthFault(kind, metadataLength, payloadLength).None?
    }
  }

  function EncodeHeader(h: Header): (b: Bytes)
    requires h.Valid()
    ensures |b| == HEADER_BYTES
  {
    MAGIC + [VERSION, TypeCode(h.kind)] + PackWord(h.metadataLength) + PackWord(h.payloadLength)
  }

  /** Checks in order: magic, version, type, then the declared lengths. */
  function DecodeHeader(b: Bytes): (r: Result<Header, Reason>)
    requires |b| == HEADER_BYTES
    ensures r.Ok? ==> r.value.Valid() && r.value.RecordBytes() <= MAX_RECORD_BYTES
  {
    if b[..4] != MAGIC then Err(BadMagic)
    else if b[4] != VERSION then Err(UnsupportedVersion)
    else if TypeOf(b[5]).None? then Err(UnknownMessageType)
    else
      var h := Header(TypeOf(b[5]).value, UnpackWord(b[6..10]), UnpackWord(b[10..14]));
      var fault := LengthFault(h.kind, h.metadataLength, h.payloadLength);
      if fault.Some? then Err(fault.value) else Ok(h)
  }

  /** A header is accepted exactly when it is the encoding of a valid header, and then decodes to it. */
  lemma {:induction false} HeaderRoundTrip(b: Bytes, h: Header)
    requires |b| == HEADER_BYTES
    ensures DecodeHeader(b) == Ok(h) <==> h.Valid() && b == EncodeHeader(h)
  {
    if h.Valid() && b == EncodeHeader(h) {
      WordRoundTrip(h.metadataLength);
      WordRoundTrip(h.payloadLength);
      assert b[..4] == MAGIC && b[4] == VERSION && b[5] == TypeCode(h.kind);
      assert b[6..10] == PackWord(h.metadataLength) && b[10..14] == PackWord(h.payloadLength);
    }
    if DecodeHeader(b) == Ok(h) {
      WordRoundTripBack(b[6..10]);
      WordRoundTripBack(b[10..14]);
      assert b == b[..4] + [b[4], b[5]] + b[6..10] + b[10..14];
    }
  }

  // ----- Metadata -----

  predicate IsSpace(c: char) {
    var n := c as int;
    9 <= n <= 13 || 28 <= n <= 32 || n == 0x85 || n == 0xA0 || n == 0x1680 || 0x2000 <= n <= 0x200A
    || n == 0x2028 || n == 0x2029 || n == 0x202F || n == 0x205F || n == 0x3000
  }

  predicate Stripped(s: string) {
    s != "" ==> !IsSpace(s[0]) && !IsSpace(s[|s| - 1])
  }

  predicate ValidIdentifier(s: string) {
    s != "" && Stripped(s) && |s| <= MAX_IDENTIFIER
  }

  predicate ValidToken(s: string) {
    Stripped(s) && MIN_TOKEN <= |s| <= MAX_TOKEN
  }

  function Field(values: map<string, Json>, name: string): Json {
    if name in values then values[name] else Other
  }

  predicate IsText(j: Json) {
    j.Text? && j.text != "" && Stripped(j.text)
  }

  predicate IsNatural(j: Json) {
    j.Number? && j.number >= 0
  }

  predicate IsPositive(j: Json) {
    j.Number? && j.number > 0
  }

  function FieldsFault(values: map<string, Json>, required: set<string>): Option<Reason> {
    if values.Keys - required != {} then Some(UnknownMetadataField)
    else if required - values.Keys != {} then Some(MissingMetadataField)
    else None
  }

  /** Field checks run in the listed order; the first failing one gives the reason. */
  function FirstFault(checks: seq<(bool, Reason)>): (fault: Option<Reason>)
    ensures fault.None? <==> forall i :: 0 <= i < |checks| ==> checks[i].0
  {
    if checks == [] then None
    else if !checks[0].0 then Some(checks[0].1)
    else FirstFault(checks[1..])
  }

  const START_FIELDS: set<string> := {"token", "tenant_id", "call_id", "stream_id", "sequence_number",
                                      "generation", "codec_name", "sample_rate_hz", "channel_count"}
  const AUDIO_FIELDS: set<string> := {"sequence_number", "generation", "sample_count", "captured_at_utc"}
  const CONTROL_FIELDS: set<string> := {"sequence_number", "generation"}
  const END_FIELDS: set<string> := {"sequence_number", "generation", "end_reason"}
  const RESPONSE_FIELDS: set<string> := {"sequence_number", "reason"}

  function StartChecks(values: map<string, Json>): seq<(bool, Reason)> {
    var token, tenant := Field(values, "token"), Field(values, "tenant_id");
    var call, stream := Field(values, "call_id"), Field(values, "stream_id");
    var sequence, generation := Field(values, "sequence_number"), Field(values, "generation");
    var codec, rate, channels :=
      Field(values, "codec_name"), Field(values, "sample_rate_hz"), Field(values, "channel_count");
    [(IsText(token), InvalidMetadata), (token.Text? && ValidToken(token.text), InvalidToken),
     (IsText(tenant), InvalidMetadata), (tenant.Text? && ValidIdentifier(tenant.text), InvalidIdentifier),
     (IsText(call), InvalidMetadata), (call.Text? && ValidIdentifier(call.text), InvalidIdentifier),
     (IsText(stream), InvalidMetadata), (stream.Text? && ValidIdentifier(stream.text), InvalidIdentifier),
     (IsNatural(sequence), InvalidMetadata), (IsPositive(generation), InvalidMetadata),
     (IsText(codec), InvalidMetadata), (IsPositive(rate), InvalidMetadata), (IsPositive(channels), InvalidMetadata),
     (codec == Text("pcm_s16le") && rate == Number(16000) && channels == Number(1), InvalidFormat)]
  }

  function ValidateStart(values: map<string, Json>): Result<Metadata, Reason> {
    var fault := FirstFault(StartChecks(values));
    var token, tenant := Field(values, "token"), Field(values, "tenant_id");
    var call, stream := Field(values, "call_id"), Field(values, "stream_id");
    var sequence, generation := Field(values, "sequence_number"), Field(values, "generation");
    if fault.Some? then Err(fault.value)
    else if token.Text? && tenant.Text? && call.Text? && stream.Text? && IsNatural(sequence)
      && IsPositive(generation) then
      Ok(StartMeta(token.text, tenant.text, call.text, stream.text, sequence.number, generation.number))
    else Err(InvalidMetadata)
  }

  function ValidateAudio(text: TextLayer, values: map<string, Json>, payload: Bytes): Result<Metadata, Reason> {
    var sequence, generation := Field(values, "sequence_number"), Field(values, "generation");
    var count, captured := Field(values, "sample_count"), Field(values, "captured_at_utc");
    if !IsNatural(sequence) || !IsPositive(generation) || !IsPositive(count) || !IsText(captured) then
      Err(InvalidMetadata)
    else if text.parseTime(captured.text).None? then Err(InvalidMetadata)
    else if count.number != |payload| / 2 then Err(InvalidSampleCount)
    else Ok(AudioMeta(sequence.number, generation.number, count.number, text.parseTime(captured.text).value))
  }

  function ValidateEnd(values: map<string, Json>): Result<Metadata, Reason> {
    var sequence, generation := Field(values, "sequence_number"), Field(values, "generation");
    var reason := Field(values, "end_reason");
    if reason != Text("completed") && reason != Text("cancelled") then Err(InvalidMetadata)
    else if !IsNatural(sequence) || !IsPositive(generation) then Err(InvalidMetadata)
    else Ok(EndMeta(sequence.number, generation.number, if reason == Text("completed") then COMPLETED else CANCELLED))
  }

  function ValidateControl(values: map<string, Json>): Result<Metadata, Reason> {
    var sequence, generation := Field(values, "sequence_number"), Field(values, "generation");
    if !IsNatural(sequence) || !IsPositive(generation) then Err(InvalidMetadata)
    else Ok(ControlMeta(sequence.number, generation.number))
  }

  function ValidateResponse(text: TextLayer, values: map<string, Json>): Result<Metadata, Reason> {
    var sequence, reason := Field(values, "sequence_number"), Field(values, "reason");
    if !IsText(reason) || text.parseReason(reason.text).None? || !IsNatural(sequence) then Err(InvalidMetadata)
    else Ok(ResponseMeta(sequence.number, text.parseReason(reason.text).value))
  }

  function RequiredFields(kind: MessageType): set<string> {
    match kind
    case START => START_FIELDS
    case AUDIO => AUDIO_FIELDS
    case PAUSE => CONTROL_FIELDS
    case RESUME => CONTROL_FIELDS
    case END => END_FIELDS
    case ACK => RESPONSE_FIELDS
    case ERROR => RESPONSE_FIELDS
  }

  /** Accepted metadata always has the shape of its message type and a sample count that fits the payload. */
  function ValidateMetadata(text: TextLayer, kind: MessageType, values: map<string, Json>, payload: Bytes)
    : (r: Result<Metadata, Reason>)
    ensures r.Ok? ==> Shaped(kind, r.value, payload)
  {
    var fault := FieldsFault(values, RequiredFields(kind));
    if fault.Some? then Err(fault.value)
    else match kind
      case START => ValidateStart(values)
      case AUDIO => ValidateAudio(text, values, payload)
      case PAUSE => ValidateControl(values)
      case RESUME => ValidateControl(values)
      case END => ValidateEnd(values)
      case ACK => ValidateResponse(text, values)
      case ERROR => ValidateResponse(text, values)
  }

  ghost predicate Shaped(kind: MessageType, meta: Metadata, payload: Bytes) {
    match kind
    case START => meta.StartMeta? && meta.generation > 0
    case AUDIO => meta.AudioMeta? && meta.generation > 0 && meta.sampleCount == |payload| / 2
    case PAUSE => meta.ControlMeta? && meta.generation > 0
    case RESUME => meta.ControlMeta? && meta.generation > 0
    case END => meta.EndMeta? && meta.generation > 0
    case ACK => meta.ResponseMeta?
    case ERROR => meta.ResponseMeta?
  }

  /** The JSON members of a record's metadata. */
  function FieldsOf(text: TextLayer, meta: Metadata): map<string, Json> {
    match meta
    case StartMeta(token, tenant, call, stream, sequence, generation) =>
      map["token" := Text(token), "tenant_id" := Text(tenant), "call_id" := Text(call), "stream_id" := Text(stream),
          "sequence_number" := Number(sequence), "generation" := Number(generation),
          "codec_name" := Text("pcm_s16le"), "sample_rate_hz" := Number(16000), "channel_count" := Number(1)]
    case AudioMeta(sequence, generation, count, captured) =>
      map["sequence_number" := Number(sequence), "generation" := Number(generation),
          "sample_count" := Number(count), "captured_at_utc" := Text(text.formatTime(captured))]
    case ControlMeta(sequence, generation) =>
      map["sequence_number" := Number(sequence), "generation" := Number(generation)]
    case EndMeta(sequence, generation, reason) =>
      map["sequence_number" := Number(sequence), "generation" := Number(generation), "end_reason" := EndText(reason)]
    case ResponseMeta(sequence, reason) =>
      map["sequence_number" := Number(sequence), "reason" := Text(text.formatReason(reason))]
  }

  function EndText(reason: EndReason): Json {
    if reason == COMPLETED then Text("completed") else Text("cancelled")
  }

  /** The two members every record in a generation carries. */
  predicate Numbered(values: map<string, Json>, sequence: nat, generation: nat) {
    Field(values, "sequence_number") == Number(sequence) && Field(values, "generation") == Number(generation)
  }

  /** The members of `values` are those of `meta`: the same names, and every one spells the field it stands for. */
  ghost predicate Describes(text: TextLayer, kind: MessageType, values: map<string, Json>, meta: Metadata) {
    && values.Keys == RequiredFields(kind)
    && match meta
       case StartMeta(token, tenant, call, stream, sequence, generation) =>
         && Field(values, "token") == Text(token) && Field(values, "tenant_id") == Text(tenant)
         && Field(values, "call_id") == Text(call) && Field(values, "stream_id") == Text(stream)
         && Numbered(values, sequence, generation)
         && Field(values, "codec_name") == Text("pcm_s16le")
         && Field(values, "sample_rate_hz") == Number(16000) && Field(values, "channel_count") == Number(1)
       case AudioMeta(sequence, generation, count, captured) =>
         && Numbered(values, sequence, generation) && Field(values, "sample_count") == Number(count)
         && IsText(Field(values, "captured_at_utc"))
         && text.parseTime(Field(values, "captured_at_utc").text) == Some(captured)
       case ControlMeta(sequence, generation) => Numbered(values, sequence, generation)
       case EndMeta(sequence, generation, reason) =>
         Numbered(values, sequence, generation) && Field(values, "end_reason") == EndText(reason)
       case ResponseMeta(sequence, reason) =>
         && Field(values, "sequence_number") == Number(sequence) && IsText(Field(values, "reason"))
         && text.parseReason(Field(values, "reason").text) == Some(reason)
  }

  /** What a decoded record's metadata satisfies beyond having the shape of its type. */
  predicate InRange(meta: Metadata) {
    match meta
    case StartMeta(token, tenant, call, stream, _, _) =>
      ValidToken(token) && ValidIdentifier(tenant) && ValidIdentifier(call) && ValidIdentifier(stream)
    case AudioMeta(_, _, count, _) => count > 0
    case _ => true
  }

  /** Metadata is read exactly from the members that describe it, and only if it is of its type's shape and in range. */
  lemma {:induction false} MetadataIsItsFields(text: TextLayer, kind: MessageType, values: map<string, Json>,
                                               payload: Bytes, meta: Metadata)
    ensures ValidateMetadata(text, kind, values, payload) == Ok(meta)
      <==> Describes(text, kind, values, meta) && Shaped(kind, meta, payload) && InRange(meta)
  {
    FieldsAreExact(values, RequiredFields(kind));
    match kind
    case START =>
      if values.Keys == RequiredFields(START) {
        StartIsItsFields(text, values, payload, meta);
      }
    case AUDIO =>
    case PAUSE =>
    case RESUME =>
    case END =>
    case ACK =>
    case ERROR =>
  }

  /** Metadata a record of this type can carry beside this payload. */
  ghost predicate ValidMetadata(text: TextLayer, kind: MessageType, meta: Metadata, payload: Bytes) {
    Shaped(kind, meta, payload) && InRange(meta) && (meta.AudioMeta? ==> WritableTime(text, meta.capturedAt))
  }

  lemma {:induction false} FieldsDescribe(text: TextLayer, kind: MessageType, payload: Bytes, meta: Metadata)
    requires Lawful(text)
    ensures Describes(text, kind, FieldsOf(text, meta), meta) && Shaped(kind, meta, payload)
      <==> Shaped(kind, meta, payload) && (meta.AudioMeta? ==> WritableTime(text, meta.capturedAt))
  {
    hide TimesReadBack;
    if Shaped(kind, meta, payload) {
      FieldNames(text, kind, meta, payload);
    }
  }

  lemma {:induction false} FieldNames(text: TextLayer, kind: MessageType, meta: Metadata, payload: Bytes)
    requires Shaped(kind, meta, payload)
    ensures FieldsOf(text, meta).Keys == RequiredFields(kind)
  {
  }

  /** No other metadata is described by the members written for this one. */
  lemma {:induction false} FieldsAreFaithful(text: TextLayer, kind: MessageType, payload: Bytes, meta: Metadata,
                                             other: Metadata)
    requires Lawful(text)
    requires Describes(text, kind, FieldsOf(text, meta), other) && Shaped(kind, other, payload)
    ensures other == meta
  {
    match kind
    case START =>
    case AUDIO => assert "captured_at_utc" in FieldsOf(text, meta).Keys;
    case PAUSE => ControlNames(text, meta);
    case RESUME => ControlNames(text, meta);
    case END => assert "end_reason" in FieldsOf(text, meta).Keys;
    case ACK => assert "reason" in FieldsOf(text, meta).Keys;
    case ERROR => assert "reason" in FieldsOf(text, meta).Keys;
  }

  lemma {:induction false} ControlNames(text: TextLayer, meta: Metadata)
    ensures FieldsOf(text, meta).Keys == CONTROL_FIELDS ==> meta.ControlMeta?
  {
    var names := FieldsOf(text, meta).Keys;
    assert meta.StartMeta? ==> "token" in names;
    assert meta.AudioMeta? ==> "sample_count" in names;
    assert meta.EndMeta? ==> "end_reason" in names;
    assert meta.ResponseMeta? ==> "reason" in names;
  }

  /** The members written for a record's metadata are read back as that metadata, exactly when it is valid. */
  lemma {:induction false} MetadataRoundTrip(text: TextLayer, kind: MessageType, payload: Bytes, meta: Metadata)
    requires Lawful(text)
    ensures ValidateMetadata(text, kind, FieldsOf(text, meta), payload) == Ok(meta)
      <==> ValidMetadata(text, kind, meta, payload)
    ensures ValidateMetadata(text, kind, FieldsOf(text, meta), payload).Ok? ==>
      ValidateMetadata(text, kind, FieldsOf(text, meta), payload) == Ok(meta)
  {
    hide ValidateMetadata;
    hide Describes;
    hide FieldsOf;
    hide Lawful;
    hide InRange;
    hide WritableTime;
    var values := FieldsOf(text, meta);
    MetadataIsItsFields(text, kind, values, payload, meta);
    FieldsDescribe(text, kind, payload, meta);
    var read := ValidateMetadata(text, kind, values, payload);
    if read.Ok? {
      MetadataIsItsFields(text, kind, values, payload, read.value);
      FieldsAreFaithful(text, kind, payload, meta, read.value);
    }
  }

  lemma {:induction false} FieldsAreExact(values: map<string, Json>, required: set<string>)
    ensures FieldsFault(values, required).None? <==> values.Keys == required
  {
    if FieldsFault(values, required).None? {
      forall name ensures name in values.Keys <==> name in required {
        assert name !in values.Keys - required && name !in required - values.Keys;
      }
    }
  }

  lemma {:induction false} StartIsItsFields(text: TextLayer, values: map<string, Json>, payload: Bytes, meta: Metadata)
    requires values.Keys == RequiredFields(START)
    ensures ValidateStart(values) == Ok(meta)
      <==> Describes(text, START, values, meta) && Shaped(START, meta, payload) && InRange(meta)
  {
    var checks := StartChecks(values);
    if FirstFault(checks).None? {
      assert checks[1].0 && checks[3].0 && checks[5].0 && checks[7].0 && checks[8].0 && checks[9].0 && checks[13].0;
    } else {
      var i :| 0 <= i < |checks| && !checks[i].0;
    }
  }

  /** The bytes a record's digest is taken over. */
  function Digested(frame: Frame): Bytes {
    [TypeCode(frame.kind)] + frame.metadata + frame.payload
  }

  function DecodeRecord(text: TextLayer, frame: Frame): (r: Result<Record, Reason>)
    ensures r.Ok? ==> r.value.kind == frame.kind && r.value.payload == frame.payload
                      && Shaped(frame.kind, r.value.meta, frame.payload)
  {
    var values := text.loads(frame.metadata);
    if values.Err? then Err(values.error)
    else
      var meta := ValidateMetadata(text, frame.kind, values.value, frame.payload);
      if meta.Err? then Err(meta.error)
      else Ok(Record(frame.kind, meta.value, frame.payload, Digested(frame)))
  }

  /** A frame decodes to exactly the record its members describe, its payload, and the digest of the whole. */
  lemma {:induction false} DecodesItsFields(text: TextLayer, frame: Frame, record: Record)
    ensures DecodeRecord(text, frame) == Ok(record) <==>
      && text.loads(frame.metadata).Ok?
      && Describes(text, frame.kind, text.loads(frame.metadata).value, record.meta)
      && Shaped(frame.kind, record.meta, frame.payload) && InRange(record.meta)
      && record.kind == frame.kind && record.payload == frame.payload
      && record.fingerprint == Digested(frame)
  {
    hide ValidateMetadata;
    hide Describes;
    hide Shaped;
    hide InRange;
    var values := text.loads(frame.metadata);
    if values.Ok? {
      MetadataIsItsFields(text, frame.kind, values.value, frame.payload, record.meta);
    }
  }

  // ----- Whole records -----

  predicate FrameFits(f: Frame) {
    LengthFault(f.kind, |f.metadata|, |f.payload|).None?
  }

  function EncodeFrame(f: Frame): (b: Bytes)
    requires FrameFits(f)
    ensures |b| == HEADER_BYTES + |f.metadata| + |f.payload|
  {
    EncodeHeader(Header(f.kind, |f.metadata|, |f.payload|)) + f.metadata + f.payload
  }

  /** Encoding writes the members, and refuses what decoding would refuse. */
  function EncodeRecord(text: TextLayer, kind: MessageType, values: map<string, Json>, payload: Bytes)
    : Result<Bytes, Reason>
  {
    var dumped := text.dumps(values);
    if dumped.None? then Err(NonFiniteNumber)
    else
      var f := Frame(kind, dumped.value, payload);
      var fault := LengthFault(kind, |f.metadata|, |payload|);
      if fault.Some? then Err(fault.value)
      else if DecodeRecord(text, f).Err? then Err(DecodeRecord(text, f).error)
      else Ok(EncodeFrame(f))
  }

  /** The frame a record is sent as, if its members can be written. */
  function FrameOf(text: TextLayer, kind: MessageType, meta: Metadata, payload: Bytes): Frame {
    var dumped := text.dumps(FieldsOf(text, meta));
    Frame(kind, if dumped.Some? then dumped.value else [], payload)
  }

  /** A record is encoded exactly when its members can be written, its metadata is valid and its lengths are allowed. */
  lemma {:induction false} EncodesExactlyValid(text: TextLayer, kind: MessageType, meta: Metadata, payload: Bytes)
    requires Lawful(text)
    ensures var f := FrameOf(text, kind, meta, payload);
      && (EncodeRecord(text, kind, FieldsOf(text, meta), payload).Ok? <==>
            text.dumps(FieldsOf(text, meta)).Some? && ValidMetadata(text, kind, meta, payload) && FrameFits(f))
      && (EncodeRecord(text, kind, FieldsOf(text, meta), payload).Ok? ==>
            && EncodeRecord(text, kind, FieldsOf(text, meta), payload) == Ok(EncodeFrame(f))
            && DecodeRecord(text, f) == Ok(Record(kind, meta, payload, Digested(f))))
  {
    hide ValidateMetadata;
    hide EncodeFrame;
    hide FieldsOf;
    hide ValidMetadata;
    hide Lawful;
    MetadataRoundTrip(text, kind, payload, meta);
    WrittenFieldsRead(text, meta);
  }

  lemma {:induction false} WrittenFieldsRead(text: TextLayer, meta: Metadata)
    requires Lawful(text)
    ensures var dumped := text.dumps(FieldsOf(text, meta));
      dumped.Some? ==> text.loads(dumped.value) == Ok(FieldsOf(text, meta))
  {
    assert Plain(FieldsOf(text, meta));
  }
}
