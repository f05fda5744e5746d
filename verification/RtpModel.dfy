/**
  The RTP ingress adapter as a value: one bounded G.711 source is reordered,
  gap-filled, decoded and cut into two-second chunks. Every operation of the
  adapter is a function from its state to its next state; the classes in
  RtpAdapter implement these functions by loops over mutable fields.
 */
module RtpModel {
  import opened Common
  import opened G711

  const SEQUENCE_MODULUS := 65536
  const TIMESTAMP_MODULUS := 0x1_0000_0000
  const CHUNK_BYTES := 64000

  type Seq16 = n: nat | n < SEQUENCE_MODULUS
  type Ts32 = n: nat | n < TIMESTAMP_MODULUS
  type PacketSamples = n: nat | 1 <= n <= 960 witness 160

  datatype Status = STARTED | ACCEPTED | BUFFERED | DUPLICATE | COMPLETED | RESET | REJECTED | OVERLOADED

  datatype Reason =
    | Started | PacketAccepted | PacketBuffered | ExactDuplicate | Ended | DuplicateEnd | WasReset
    | StartRequired | ActiveSourceExists | StaleSourceGeneration | SourceGenerationMismatch
    | ScopeMismatch | FormatMismatch | SsrcMismatch | MalformedPacket | PayloadSizeMismatch
    | ArrivalTimeRegression | StaleSequence | ConflictingDuplicate | ReorderWindowExceeded
    | RtpTimestampMismatch | OutputQueueFull

  datatype Acceptance = Acceptance(status: Status, reason: Reason)

  datatype Scope = Scope(tenantId: string, callId: string)

  datatype Format = Format(codec: Codec, payloadType: nat, samplesPerPacket: PacketSamples)

  datatype Start = Start(scope: Scope, generation: nat, arrival: real, arrivedAt: int, format: Format,
                         initialSeq: Seq16, initialTs: Ts32, ssrc: Option<nat>)

  datatype Packet = Packet(scope: Scope, generation: nat, arrival: real, arrivedAt: int, seq16: Seq16,
                           ts: Ts32, payloadType: nat, codec: Codec, payload: Bytes, ssrc: Option<nat>)

  datatype End = End(scope: Scope, generation: nat, arrival: real, arrivedAt: int)

  /** The hashed fields of a packet; two digests are taken to agree exactly when these do. */
  datatype Fingerprint = Fingerprint(generation: nat, seq16: Seq16, ts: Ts32, payloadType: nat,
                                     codec: Codec, ssrc: nat, payload: Bytes)

  datatype Chunk = Chunk(scope: Scope, number: nat, receivedAt: int, startSeconds: real,
                         durationSeconds: real, payload: Bytes)

  datatype Config = Config(scope: Scope, maxReorder: nat, maxJitterWait: real, maxOutputChunks: nat,
                           historyLimit: nat)
  {
    predicate Valid() {
      && 0 < maxReorder < SEQUENCE_MODULUS / 2
      && 0.0 <= maxJitterWait
      && 0 < maxOutputChunks
      && 0 < historyLimit
    }
  }

  datatype Source = Source(
    start: Start, expectedSeq: Seq16, expectedTs: Ts32, lastArrival: real, latestArrivedAt: int,
    buffer: map<Seq16, Packet>, history: seq<(Seq16, Fingerprint)>, pcm: Bytes, queue: seq<Chunk>,
    gapStarted: Option<real>, acceptedCount: nat, duplicateCount: nat, reorderedCount: nat,
    missingCount: nat, rejectedCount: nat, latestRejection: Option<Reason>,
    decodedSamples: nat, emittedChunks: nat, emittedSamples: nat)

  /** A step over a source that may end in a failure reason. */
  datatype Flow = Flow(s: Source, failure: Option<Reason>)

  datatype Adapter = Adapter(cfg: Config, active: Option<Source>, completed: Option<Source>,
                             highestGeneration: Option<nat>, completedGeneration: Option<nat>)

  function Distance(sequence: Seq16, expected: Seq16): (d: Seq16)
    ensures (expected + d) % SEQUENCE_MODULUS == sequence
  {
    (sequence - expected) % SEQUENCE_MODULUS
  }

  function AdvanceSeq(sequence: Seq16, count: nat): Seq16 {
    (sequence + count) % SEQUENCE_MODULUS
  }

  function AdvanceTs(ts: Ts32, samples: nat): Ts32 {
    (ts + samples) % TIMESTAMP_MODULUS
  }

  function FingerprintOf(p: Packet): Fingerprint {
    Fingerprint(p.generation, p.seq16, p.ts, p.payloadType, p.codec,
                if p.ssrc.Some? then p.ssrc.value else 0, p.payload)
  }

  // ----- Output -----

  function QueueChunk(cfg: Config, s: Source, payload: Bytes): Flow {
    if |s.queue| >= cfg.maxOutputChunks then
      Flow(s, Some(OutputQueueFull))
    else
      var samples := |payload| / 2;
      var chunk := Chunk(cfg.scope, s.emittedChunks, s.latestArrivedAt, s.emittedSamples as real / 16000.0,
                         samples as real / 16000.0, payload);
      Flow(s.(queue := s.queue + [chunk],
              emittedSamples := s.emittedSamples + samples,
              emittedChunks := s.emittedChunks + 1), None)
  }

  /** Only output fields of a source change. */
  ghost predicate SameButOutput(s: Source, t: Source) {
    t == s.(pcm := t.pcm, queue := t.queue, emittedChunks := t.emittedChunks, emittedSamples := t.emittedSamples)
  }

  /** Draining and expiring never touch what was taken in: only how far it was played out. */
  ghost predicate SameIntake(s: Source, t: Source) {
    t.start == s.start && t.history == s.history && t.acceptedCount == s.acceptedCount
  }

  function EmitCompleteChunks(cfg: Config, s: Source): (f: Flow)
    ensures SameButOutput(s, f.s)
    ensures f.failure.Some? ==> f.failure.value == OutputQueueFull
    decreases |s.pcm|
  {
    if |s.pcm| < CHUNK_BYTES then Flow(s, None)
    else
      var queued := QueueChunk(cfg, s.(pcm := s.pcm[CHUNK_BYTES..]), s.pcm[..CHUNK_BYTES]);
      if queued.failure.Some? then queued else EmitCompleteChunks(cfg, queued.s)
  }

  function FlushFinalChunk(cfg: Config, s: Source): Flow {
    if s.pcm == [] then Flow(s, None) else QueueChunk(cfg, s.(pcm := []), s.pcm)
  }

  // ----- Reordering -----

  /** The expected packet leaves the buffer and its audio joins the PCM buffer. */
  function Consume(s: Source): Source
    requires s.expectedSeq in s.buffer
  {
    var p := s.buffer[s.expectedSeq];
    s.(buffer := s.buffer - {s.expectedSeq},
       pcm := s.pcm + AudioBytes(p.codec, p.payload),
       decodedSamples := s.decodedSamples + |p.payload|,
       expectedSeq := AdvanceSeq(s.expectedSeq, 1),
       expectedTs := AdvanceTs(s.expectedTs, |p.payload|))
  }

  /** The expected packet is taken out, checked against the clock, played, and full chunks are cut. */
  function PlayExpected(cfg: Config, s: Source): (f: Flow)
    requires s.expectedSeq in s.buffer
    ensures |f.s.buffer| == |s.buffer| - 1
    ensures SameIntake(s, f.s)
    ensures f.failure.Some? ==> f.failure.value in {RtpTimestampMismatch, OutputQueueFull}
  {
    RemoveShrinks(s.buffer, s.expectedSeq);
    if s.buffer[s.expectedSeq].ts != s.expectedTs then
      Flow(s.(buffer := s.buffer - {s.expectedSeq}), Some(RtpTimestampMismatch))
    else
      EmitCompleteChunks(cfg, Consume(s))
  }

  function SettleGap(s: Source): Source {
    if s.buffer.Keys != {} then
      if s.gapStarted.None? then s.(gapStarted := Some(s.lastArrival)) else s
    else
      s.(gapStarted := None)
  }

  function DrainContiguous(cfg: Config, s: Source): (f: Flow)
    ensures |f.s.buffer| <= |s.buffer|
    ensures s.expectedSeq in s.buffer ==> |f.s.buffer| < |s.buffer|
    ensures SameIntake(s, f.s)
    ensures f.failure.Some? ==> f.failure.value in {RtpTimestampMismatch, OutputQueueFull}
    decreases |s.buffer|
  {
    if s.expectedSeq !in s.buffer then
      Flow(SettleGap(s), None)
    else
      var played := PlayExpected(cfg, s);
      if played.failure.Some? then played else DrainContiguous(cfg, played.s)
  }

  lemma {:induction false} RemoveShrinks(buffer: map<Seq16, Packet>, key: Seq16)
    requires key in buffer
    ensures |buffer - {key}| == |buffer| - 1
  {
    assert (buffer - {key}).Keys == buffer.Keys - {key};
  }

  /** The least forward distance, from `from` on, at which a packet is buffered. */
  function NearestDistance(buffer: map<Seq16, Packet>, expected: Seq16, from: nat): (d: nat)
    requires buffer.Keys != {}
    requires forall k :: k in buffer ==> from <= Distance(k, expected)
    ensures d < SEQUENCE_MODULUS && AdvanceSeq(expected, d) in buffer
    ensures forall k :: k in buffer ==> d <= Distance(k, expected)
    decreases SEQUENCE_MODULUS - from
  {
    var witnessKey: Seq16 :| witnessKey in buffer.Keys && (witnessKey in buffer);
    assert from <= Distance(witnessKey, expected);
    if AdvanceSeq(expected, from) in buffer then from
    else NearestDistance(buffer, expected, from + 1)
  }

  function SkipMissing(s: Source, missing: nat): Source {
    var samples := missing * s.start.format.samplesPerPacket;
    s.(missingCount := s.missingCount + missing,
       pcm := s.pcm + Zeros(4 * samples),
       expectedSeq := AdvanceSeq(s.expectedSeq, missing),
       expectedTs := AdvanceTs(s.expectedTs, samples))
  }

  predicate KeepsWaiting(cfg: Config, s: Source, now: real, force: bool) {
    !force && (s.gapStarted.None? || now - s.gapStarted.value < cfg.maxJitterWait)
  }

  /** Terminates: a drain shrinks the buffer, and a skip makes the expected packet present. */
  function ExpireGap(cfg: Config, s: Source, now: real, force: bool): (f: Flow)
    ensures SameIntake(s, f.s)
    ensures f.failure.Some? ==> f.failure.value in {RtpTimestampMismatch, OutputQueueFull, ReorderWindowExceeded}
    decreases |s.buffer|, if s.expectedSeq in s.buffer then 0 else 1
  {
    if s.buffer.Keys == {} then Flow(s, None)
    else if s.expectedSeq in s.buffer then
      var drained := DrainContiguous(cfg, s);
      if drained.failure.Some? then drained else ExpireGap(cfg, drained.s, now, force)
    else if KeepsWaiting(cfg, s, now, force) then Flow(s, None)
    else
      var missing := NearestDistance(s.buffer, s.expectedSeq, 0);
      if missing <= 0 || missing > cfg.maxReorder then Flow(s, Some(ReorderWindowExceeded))
      else
        var emitted := EmitCompleteChunks(cfg, SkipMissing(s, missing));
        if emitted.failure.Some? then emitted
        else ExpireGap(cfg, emitted.s.(gapStarted := Some(now)), now, force)
  }

  // ----- Duplicate history -----

  /** The position of the oldest entry whose packet has left the buffer. */
  function FirstRemovable(history: seq<(Seq16, Fingerprint)>, buffer: map<Seq16, Packet>): (i: nat)
    ensures i <= |history|
    ensures i < |history| ==> history[i].0 !in buffer
    ensures forall j :: 0 <= j < i ==> history[j].0 in buffer
  {
    if history == [] then 0
    else if history[0].0 !in buffer then 0
    else 1 + FirstRemovable(history[1..], buffer)
  }

  function TrimHistory(history: seq<(Seq16, Fingerprint)>, buffer: map<Seq16, Packet>, limit: nat)
    : seq<(Seq16, Fingerprint)>
  {
    var i := FirstRemovable(history, buffer);
    if |history| <= limit || i == |history| then history
    else TrimHistory(history[..i] + history[i + 1..], buffer, limit)
  }

  // ----- Adapter operations -----

  function Fresh(control: Start): Source {
    Source(control, control.initialSeq, control.initialTs, control.arrival, control.arrivedAt,
           map[], [], [], [], None, 0, 0, 0, 0, 0, None, 0, 0, 0)
  }

  function Initialize(a: Adapter, control: Start): Adapter {
    a.(active := Some(Fresh(control)), completed := None,
       highestGeneration := Some(control.generation), completedGeneration := None)
  }

  function Note(s: Source, reason: Reason): Source {
    s.(rejectedCount := s.rejectedCount + 1, latestRejection := Some(reason))
  }

  function Reject(a: Adapter, reason: Reason): (Adapter, Acceptance) {
    (if a.active.Some? then a.(active := Some(Note(a.active.value, reason))) else a,
     Acceptance(REJECTED, reason))
  }

  function Cleared(s: Source): Source {
    s.(buffer := map[], history := [], pcm := [], queue := [])
  }

  /** A failure drops every retained packet and chunk and closes the source. */
  function Fail(a: Adapter, s: Source, reason: Reason): (Adapter, Acceptance) {
    (a.(active := None, completed := Some(Cleared(Note(s, reason)))),
     Acceptance(if reason == OutputQueueFull then OVERLOADED else REJECTED, reason))
  }

  predicate StaleGeneration(a: Adapter, generation: nat) {
    a.highestGeneration.Some? && generation <= a.highestGeneration.value
  }

  function StartSource(a: Adapter, control: Start): (Adapter, Acceptance) {
    if control.scope != a.cfg.scope then (a, Acceptance(REJECTED, ScopeMismatch))
    else if a.active.Some? then
      if control == a.active.value.start then (a, Acceptance(DUPLICATE, ActiveSourceExists))
      else Reject(a, ActiveSourceExists)
    else if StaleGeneration(a, control.generation) then (a, Acceptance(REJECTED, StaleSourceGeneration))
    else (Initialize(a, control), Acceptance(STARTED, Started))
  }

  function ReplaceSource(a: Adapter, control: Start): (Adapter, Acceptance) {
    if control.scope != a.cfg.scope then Reject(a, ScopeMismatch)
    else if StaleGeneration(a, control.generation) then Reject(a, StaleSourceGeneration)
    else (Initialize(a, control), Acceptance(STARTED, Started))
  }

  function GenerationReason(s: Source, generation: nat): Reason {
    if generation < s.start.generation then StaleSourceGeneration else SourceGenerationMismatch
  }

  function PacketFault(cfg: Config, s: Source, p: Packet): Option<Reason> {
    if p.scope != cfg.scope then Some(ScopeMismatch)
    else if p.generation != s.start.generation then Some(GenerationReason(s, p.generation))
    else if p.payloadType != s.start.format.payloadType || p.codec != s.start.format.codec then Some(FormatMismatch)
    else if p.ssrc != s.start.ssrc then Some(SsrcMismatch)
    else if |p.payload| != s.start.format.samplesPerPacket then Some(PayloadSizeMismatch)
    else if p.arrival < s.lastArrival then Some(ArrivalTimeRegression)
    else None
  }

  /** The fingerprint already held under a packet's sequence number, buffered or remembered. */
  function Known(s: Source, key: Seq16): Option<Fingerprint> {
    if key in s.buffer then Some(FingerprintOf(s.buffer[key])) else Remembered(s.history, key)
  }

  /** Book-keeping of a packet that passed every check, before anything is drained. */
  function Admit(cfg: Config, s: Source, p: Packet): Source {
    var distance := Distance(p.seq16, s.expectedSeq);
    var buffer := s.buffer[p.seq16 := p];
    s.(buffer := buffer,
       history := TrimHistory(s.history + [(p.seq16, FingerprintOf(p))], buffer, cfg.historyLimit),
       acceptedCount := s.acceptedCount + 1,
       latestArrivedAt := p.arrivedAt,
       lastArrival := p.arrival,
       reorderedCount := if distance > 0 then s.reorderedCount + 1 else s.reorderedCount,
       gapStarted := if distance > 0 && s.gapStarted.None? then Some(p.arrival) else s.gapStarted)
  }

  function Advance(cfg: Config, s: Source, now: real): Flow {
    var drained := DrainContiguous(cfg, s);
    if drained.failure.Some? then drained else ExpireGap(cfg, drained.s, now, false)
  }

  function AcceptPacket(a: Adapter, packet: Option<Packet>): (Adapter, Acceptance) {
    if packet.None? then Reject(a, MalformedPacket)
    else if a.active.None? then (a, Acceptance(REJECTED, StartRequired))
    else
      var p, s := packet.value, a.active.value;
      var fault := PacketFault(a.cfg, s, p);
      if fault.Some? then Reject(a, fault.value)
      else if Known(s, p.seq16).Some? then
        if Known(s, p.seq16).value == FingerprintOf(p) then
          (a.(active := Some(s.(duplicateCount := s.duplicateCount + 1))), Acceptance(DUPLICATE, ExactDuplicate))
        else Reject(a, ConflictingDuplicate)
      else
        var distance := Distance(p.seq16, s.expectedSeq);
        if distance >= SEQUENCE_MODULUS / 2 then Reject(a, StaleSequence)
        else if distance > a.cfg.maxReorder then Reject(a, ReorderWindowExceeded)
        else
          var f := Advance(a.cfg, Admit(a.cfg, s, p), p.arrival);
          if f.failure.Some? then Fail(a, f.s, f.failure.value)
          else (a.(active := Some(f.s)),
                if p.seq16 in f.s.buffer then Acceptance(BUFFERED, PacketBuffered)
                else Acceptance(ACCEPTED, PacketAccepted))
  }

  /** `now` is absent when the caller's clock value is not finite. */
  function AdvanceClock(a: Adapter, now: Option<real>): (Adapter, Acceptance) {
    if a.active.None? then (a, Acceptance(REJECTED, StartRequired))
    else if now.None? || now.value < a.active.value.lastArrival then Reject(a, ArrivalTimeRegression)
    else
      var f := ExpireGap(a.cfg, a.active.value.(lastArrival := now.value), now.value, false);
      if f.failure.Some? then Fail(a, f.s, f.failure.value)
      else (a.(active := Some(f.s)), Acceptance(ACCEPTED, PacketAccepted))
  }

  function Finish(cfg: Config, s: Source, control: End): Flow {
    var f := ExpireGap(cfg, s.(latestArrivedAt := control.arrivedAt), control.arrival, true);
    if f.failure.Some? then f else FlushFinalChunk(cfg, f.s)
  }

  function EndSource(a: Adapter, control: End): (Adapter, Acceptance) {
    if control.scope != a.cfg.scope then Reject(a, ScopeMismatch)
    else if a.active.None? then
      if a.completedGeneration == Some(control.generation) then (a, Acceptance(DUPLICATE, DuplicateEnd))
      else (a, Acceptance(REJECTED, StartRequired))
    else
      var s := a.active.value;
      if control.generation != s.start.generation then Reject(a, GenerationReason(s, control.generation))
      else if control.arrival < s.lastArrival then Reject(a, ArrivalTimeRegression)
      else
        var f := Finish(a.cfg, s, control);
        if f.failure.Some? then Fail(a, f.s, f.failure.value)
        else (a.(active := None, completed := Some(f.s.(history := [])),
                 completedGeneration := Some(s.start.generation)),
              Acceptance(COMPLETED, Ended))
  }

  function ResetSource(a: Adapter): (Adapter, Acceptance) {
    (a.(active := None, completed := None, completedGeneration := None), Acceptance(RESET, WasReset))
  }

  /** The source whose chunks a drain reads: the active one, else the completed one. */
  function Readable(a: Adapter): Option<Source> {
    if a.active.Some? then a.active else a.completed
  }

  predicate DrainMatches(a: Adapter, scope: Scope, generation: nat) {
    Readable(a).Some? && scope == a.cfg.scope && generation == Readable(a).value.start.generation
  }

  function WithQueue(a: Adapter, queue: seq<Chunk>): Adapter
    requires Readable(a).Some?
  {
    if a.active.Some? then a.(active := Some(a.active.value.(queue := queue)))
    else a.(completed := Some(a.completed.value.(queue := queue)))
  }

  /** A non-positive limit is an error; otherwise the oldest chunks leave the queue. */
  function DrainChunks(a: Adapter, scope: Scope, generation: nat, limit: int): (Adapter, Result<seq<Chunk>, string>) {
    if limit <= 0 then (a, Err("invalid_drain_limit"))
    else if !DrainMatches(a, scope, generation) then (a, Ok([]))
    else
      var queue := Readable(a).value.queue;
      var n := Min(limit, |queue|);
      (WithQueue(a, queue[n..]), Ok(queue[..n]))
  }
}
