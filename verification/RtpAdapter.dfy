/**
  The adapter as the mutable object it is: per-source fields updated in place by
  nested loops. Each method is proved to take the object from a state to exactly
  the state, and the answer, that RtpModel gives for the same operation.
 */
module RtpAdapter {
  import opened Common
  import opened G711
  import opened RtpModel
  import opened RtpTimeline

  class ActiveRtpSource {
    const start: Start
    var expectedSeq: Seq16
    var expectedTs: Ts32
    var lastArrival: real
    var latestArrivedAt: int
    var packetBuffer: map<Seq16, Packet>
    var fingerprints: seq<(Seq16, Fingerprint)>
    var pcmBuffer: Bytes
    var outputQueue: seq<Chunk>
    var gapStarted: Option<real>
    var acceptedCount: nat
    var duplicateCount: nat
    var reorderedCount: nat
    var missingCount: nat
    var rejectedCount: nat
    var latestRejection: Option<Reason>
    var decodedSamples: nat
    var emittedChunks: nat
    var emittedSamples: nat

    constructor (control: Start)
      ensures Model() == Fresh(control)
    {
      start, expectedSeq, expectedTs := control, control.initialSeq, control.initialTs;
      lastArrival, latestArrivedAt := control.arrival, control.arrivedAt;
      packetBuffer, fingerprints, pcmBuffer, outputQueue, gapStarted := map[], [], [], [], None;
      acceptedCount, duplicateCount, reorderedCount, missingCount, rejectedCount := 0, 0, 0, 0, 0;
      latestRejection := None;
      decodedSamples, emittedChunks, emittedSamples := 0, 0, 0;
    }

    ghost function Model(): Source
      reads this
    {
      Source(start, expectedSeq, expectedTs, lastArrival, latestArrivedAt, packetBuffer, fingerprints, pcmBuffer,
             outputQueue, gapStarted, acceptedCount, duplicateCount, reorderedCount, missingCount, rejectedCount,
             latestRejection, decodedSamples, emittedChunks, emittedSamples)
    }

    method ClearAudio()
      modifies this
      ensures Model() == Cleared(old(Model()))
    {
      packetBuffer, fingerprints, pcmBuffer, outputQueue := map[], [], [], [];
    }
  }

  lemma {:induction false} LeastDistance(buffer: map<Seq16, Packet>, expected: Seq16, nearest: Seq16)
    requires nearest in buffer
    requires forall k :: k in buffer ==> Distance(nearest, expected) <= Distance(k, expected)
    ensures Distance(nearest, expected) == NearestDistance(buffer, expected, 0)
  {
    hide Distance;
    hide AdvanceSeq;
    DistanceOfAdvance(expected, NearestDistance(buffer, expected, 0));
  }

  class RtpMediaIngressAdapter {
    const cfg: Config
    var active: ActiveRtpSource?
    var completed: ActiveRtpSource?
    var highestGeneration: Option<nat>
    var completedGeneration: Option<nat>

    constructor (cfg: Config)
      requires cfg.Valid()
      ensures Valid() && Model() == Adapter(cfg, None, None, None, None)
    {
      this.cfg := cfg;
      active, completed, highestGeneration, completedGeneration := null, null, None, None;
    }

    ghost predicate Valid()
      reads this
    {
      cfg.Valid() && (active == null || completed == null)
    }

    ghost function Model(): Adapter
      reads this, active, completed
    {
      Adapter(cfg, if active == null then None else Some(active.Model()),
              if completed == null then None else Some(completed.Model()),
              highestGeneration, completedGeneration)
    }

    // ----- Output -----

    method QueueChunk(s: ActiveRtpSource, payload: Bytes) returns (failure: Option<Reason>)
      modifies s
      ensures Flow(s.Model(), failure) == RtpModel.QueueChunk(cfg, old(s.Model()), payload)
    {
      if |s.outputQueue| >= cfg.maxOutputChunks {
        return Some(OutputQueueFull);
      }
      var sampleCount := |payload| / 2;
      s.outputQueue := s.outputQueue
        + [Chunk(cfg.scope, s.emittedChunks, s.latestArrivedAt, s.emittedSamples as real / 16000.0,
                 sampleCount as real / 16000.0, payload)];
      s.emittedSamples := s.emittedSamples + sampleCount;
      s.emittedChunks := s.emittedChunks + 1;
      return None;
    }

    method EmitCompleteChunks(s: ActiveRtpSource) returns (failure: Option<Reason>)
      modifies s
      ensures Flow(s.Model(), failure) == RtpModel.EmitCompleteChunks(cfg, old(s.Model()))
    {
      while |s.pcmBuffer| >= CHUNK_BYTES
        invariant RtpModel.EmitCompleteChunks(cfg, s.Model()) == RtpModel.EmitCompleteChunks(cfg, old(s.Model()))
        decreases |s.pcmBuffer|
      {
        var payload := s.pcmBuffer[..CHUNK_BYTES];
        s.pcmBuffer := s.pcmBuffer[CHUNK_BYTES..];
        failure := QueueChunk(s, payload);
        if failure.Some? {
          return;
        }
      }
      failure := None;
    }

    method FlushFinalChunk(s: ActiveRtpSource) returns (failure: Option<Reason>)
      modifies s
      ensures Flow(s.Model(), failure) == RtpModel.FlushFinalChunk(cfg, old(s.Model()))
    {
      if s.pcmBuffer == [] {
        return None;
      }
      var payload := s.pcmBuffer;
      s.pcmBuffer := [];
      failure := QueueChunk(s, payload);
    }

    // ----- Reordering -----

    /** The audio and the clock of one packet already taken from the buffer. */
    method PlayOut(s: ActiveRtpSource, packet: Packet)
      modifies s`pcmBuffer, s`decodedSamples, s`expectedSeq, s`expectedTs
      ensures s.pcmBuffer == old(s.pcmBuffer) + AudioBytes(packet.codec, packet.payload)
      ensures s.decodedSamples == old(s.decodedSamples) + |packet.payload|
      ensures s.expectedSeq == AdvanceSeq(old(s.expectedSeq), 1)
      ensures s.expectedTs == AdvanceTs(old(s.expectedTs), |packet.payload|)
    {
      var upsampled := Upsample(Decode(packet.codec, packet.payload));
      s.pcmBuffer := s.pcmBuffer + upsampled;
      s.decodedSamples := s.decodedSamples + |packet.payload|;
      s.expectedSeq := AdvanceSeq(s.expectedSeq, 1);
      s.expectedTs := AdvanceTs(s.expectedTs, |packet.payload|);
    }

    method PlayExpected(s: ActiveRtpSource) returns (failure: Option<Reason>)
      requires s.expectedSeq in s.packetBuffer
      modifies s
      ensures Flow(s.Model(), failure) == RtpModel.PlayExpected(cfg, old(s.Model()))
    {
      var packet := s.packetBuffer[s.expectedSeq];
      s.packetBuffer := s.packetBuffer - {s.expectedSeq};
      if packet.ts != s.expectedTs {
        return Some(RtpTimestampMismatch);
      }
      PlayOut(s, packet);
      assert s.Model() == Consume(old(s.Model()));
      failure := EmitCompleteChunks(s);
    }

    method DrainContiguous(s: ActiveRtpSource) returns (failure: Option<Reason>)
      modifies s
      ensures Flow(s.Model(), failure) == RtpModel.DrainContiguous(cfg, old(s.Model()))
    {
      while s.expectedSeq in s.packetBuffer
        invariant RtpModel.DrainContiguous(cfg, s.Model()) == RtpModel.DrainContiguous(cfg, old(s.Model()))
        decreases |s.packetBuffer|
      {
        failure := PlayExpected(s);
        if failure.Some? {
          return;
        }
      }
      if s.packetBuffer.Keys != {} {
        if s.gapStarted.None? {
          s.gapStarted := Some(s.lastArrival);
        }
      } else {
        s.gapStarted := None;
      }
      failure := None;
    }

    /** The buffered sequence number at the least forward distance. */
    method Nearest(buffer: map<Seq16, Packet>, expected: Seq16) returns (nearest: Seq16)
      requires buffer.Keys != {}
      ensures nearest in buffer
      ensures Distance(nearest, expected) == NearestDistance(buffer, expected, 0)
    {
      nearest :| nearest in buffer;
      var rest := buffer.Keys - {nearest};
      while rest != {}
        invariant nearest in buffer && rest <= buffer.Keys
        invariant forall k :: k in buffer.Keys - rest ==> Distance(nearest, expected) <= Distance(k, expected)
        decreases |rest|
      {
        var k: Seq16 :| k in rest;
        if Distance(k, expected) < Distance(nearest, expected) {
          nearest := k;
        }
        rest := rest - {k};
      }
      LeastDistance(buffer, expected, nearest);
    }

    /** Silence and the clock for a run of missing packets. */
    method Skip(s: ActiveRtpSource, missing: nat)
      modifies s`missingCount, s`pcmBuffer, s`expectedSeq, s`expectedTs
      ensures s.Model() == SkipMissing(old(s.Model()), missing)
    {
      var samples := missing * s.start.format.samplesPerPacket;
      s.missingCount := s.missingCount + missing;
      s.pcmBuffer := s.pcmBuffer + Zeros(2 * (samples * 2));
      s.expectedSeq := AdvanceSeq(s.expectedSeq, missing);
      s.expectedTs := AdvanceTs(s.expectedTs, samples);
    }

    method ExpireGap(s: ActiveRtpSource, now: real, force: bool) returns (failure: Option<Reason>)
      modifies s
      ensures Flow(s.Model(), failure) == RtpModel.ExpireGap(cfg, old(s.Model()), now, force)
    {
      while s.packetBuffer.Keys != {}
        invariant RtpModel.ExpireGap(cfg, s.Model(), now, force) == RtpModel.ExpireGap(cfg, old(s.Model()), now, force)
        decreases |s.packetBuffer|, if s.expectedSeq in s.packetBuffer then 0 else 1
      {
        if s.expectedSeq in s.packetBuffer {
          failure := DrainContiguous(s);
          if failure.Some? {
            return;
          }
          continue;
        }
        if !force && (s.gapStarted.None? || now - s.gapStarted.value < cfg.maxJitterWait) {
          return None;
        }
        var nearest := Nearest(s.packetBuffer, s.expectedSeq);
        var missing := Distance(nearest, s.expectedSeq);
        if missing <= 0 || missing > cfg.maxReorder {
          return Some(ReorderWindowExceeded);
        }
        Skip(s, missing);
        failure := EmitCompleteChunks(s);
        if failure.Some? {
          return;
        }
        s.gapStarted := Some(now);
      }
      failure := None;
    }

    method TrimFingerprintHistory(s: ActiveRtpSource)
      modifies s`fingerprints
      ensures s.fingerprints == TrimHistory(old(s.fingerprints), s.packetBuffer, cfg.historyLimit)
    {
      while |s.fingerprints| > cfg.historyLimit
        invariant TrimHistory(s.fingerprints, s.packetBuffer, cfg.historyLimit)
               == TrimHistory(old(s.fingerprints), s.packetBuffer, cfg.historyLimit)
        decreases |s.fingerprints|
      {
        var removable := FirstRemovable(s.fingerprints, s.packetBuffer);
        if removable == |s.fingerprints| {
          break;
        }
        s.fingerprints := s.fingerprints[..removable] + s.fingerprints[removable + 1..];
      }
    }

    // ----- Answers -----

    method Reject(reason: Reason) returns (answer: Acceptance)
      requires Valid()
      modifies active
      ensures Valid() && (Model(), answer) == RtpModel.Reject(old(Model()), reason)
    {
      if active != null {
        active.rejectedCount := active.rejectedCount + 1;
        active.latestRejection := Some(reason);
      }
      return Acceptance(REJECTED, reason);
    }

    method Fail(reason: Reason) returns (answer: Acceptance)
      requires Valid() && active != null
      modifies this, active
      ensures Valid() && (Model(), answer) == RtpModel.Fail(old(Model()), old(active.Model()), reason)
    {
      active.rejectedCount := active.rejectedCount + 1;
      active.latestRejection := Some(reason);
      active.ClearAudio();
      completed, active := active, null;
      return Acceptance(if reason == OutputQueueFull then OVERLOADED else REJECTED, reason);
    }

    // ----- Operations -----

    method Initialize(control: Start)
      modifies this
      ensures active != null && fresh(active) && completed == null
      ensures Model() == RtpModel.Initialize(old(Model()), control)
    {
      active := new ActiveRtpSource(control);
      highestGeneration, completed, completedGeneration := Some(control.generation), null, None;
    }

    method Start(control: Start) returns (answer: Acceptance)
      requires Valid()
      modifies this, active
      ensures Valid() && (Model(), answer) == StartSource(old(Model()), control)
    {
      if control.scope != cfg.scope {
        return Acceptance(REJECTED, ScopeMismatch);
      }
      if active != null {
        if control == active.start {
          return Acceptance(DUPLICATE, ActiveSourceExists);
        }
        answer := Reject(ActiveSourceExists);
        return;
      }
      if highestGeneration.Some? && control.generation <= highestGeneration.value {
        return Acceptance(REJECTED, StaleSourceGeneration);
      }
      Initialize(control);
      return Acceptance(STARTED, Started);
    }

    method ReleaseAudioState()
      modifies this, active, completed
      ensures active == null && completed == null
      ensures highestGeneration == old(highestGeneration) && completedGeneration == old(completedGeneration)
    {
      if active != null {
        active.ClearAudio();
      }
      if completed != null {
        completed.ClearAudio();
      }
      active, completed := null, null;
    }

    method Replace(control: Start) returns (answer: Acceptance)
      requires Valid()
      modifies this, active, completed
      ensures Valid() && (Model(), answer) == ReplaceSource(old(Model()), control)
    {
      if control.scope != cfg.scope {
        answer := Reject(ScopeMismatch);
        return;
      }
      if highestGeneration.Some? && control.generation <= highestGeneration.value {
        answer := Reject(StaleSourceGeneration);
        return;
      }
      ReleaseAudioState();
      Initialize(control);
      return Acceptance(STARTED, Started);
    }

    method AdmitPacket(s: ActiveRtpSource, packet: Packet)
      modifies s
      ensures s.Model() == Admit(cfg, old(s.Model()), packet)
    {
      hide Distance;
      hide FingerprintOf;
      hide TrimHistory;
      var distance := Distance(packet.seq16, s.expectedSeq);
      s.packetBuffer := s.packetBuffer[packet.seq16 := packet];
      s.fingerprints := s.fingerprints + [(packet.seq16, FingerprintOf(packet))];
      TrimFingerprintHistory(s);
      StampArrival(s, packet);
      if distance > 0 {
        OpenGap(s, packet.arrival);
      }
    }

    method StampArrival(s: ActiveRtpSource, packet: Packet)
      modifies s`acceptedCount, s`latestArrivedAt, s`lastArrival
      ensures s.acceptedCount == old(s.acceptedCount) + 1
      ensures s.latestArrivedAt == packet.arrivedAt && s.lastArrival == packet.arrival
    {
      s.acceptedCount := s.acceptedCount + 1;
      s.latestArrivedAt, s.lastArrival := packet.arrivedAt, packet.arrival;
    }

    /** A packet ahead of the expected one starts the gap timer, unless it runs already. */
    method OpenGap(s: ActiveRtpSource, now: real)
      modifies s`reorderedCount, s`gapStarted
      ensures s.reorderedCount == old(s.reorderedCount) + 1
      ensures s.gapStarted == if old(s.gapStarted).None? then Some(now) else old(s.gapStarted)
    {
      s.reorderedCount := s.reorderedCount + 1;
      if s.gapStarted.None? {
        s.gapStarted := Some(now);
      }
    }

    method AcceptPacket(candidate: Option<Packet>) returns (answer: Acceptance)
      requires Valid()
      modifies this, active
      ensures Valid() && (Model(), answer) == RtpModel.AcceptPacket(old(Model()), candidate)
    {
      if candidate.None? {
        answer := Reject(MalformedPacket);
        return;
      }
      var packet, s := candidate.value, active;
      if s == null {
        return Acceptance(REJECTED, StartRequired);
      }
      var fault := Validate(s, packet);
      if fault.Some? {
        answer := Reject(fault.value);
        return;
      }
      var known := if packet.seq16 in s.packetBuffer then Some(FingerprintOf(s.packetBuffer[packet.seq16]))
                   else Remembered(s.fingerprints, packet.seq16);
      if known.Some? {
        if known.value == FingerprintOf(packet) {
          s.duplicateCount := s.duplicateCount + 1;
          return Acceptance(DUPLICATE, ExactDuplicate);
        }
        answer := Reject(ConflictingDuplicate);
        return;
      }
      var distance := Distance(packet.seq16, s.expectedSeq);
      if distance >= SEQUENCE_MODULUS / 2 {
        answer := Reject(StaleSequence);
        return;
      }
      if distance > cfg.maxReorder {
        answer := Reject(ReorderWindowExceeded);
        return;
      }
      AdmitPacket(s, packet);
      var failure := DrainContiguous(s);
      if failure.None? {
        failure := ExpireGap(s, packet.arrival, false);
      }
      if failure.Some? {
        answer := Fail(failure.value);
        return;
      }
      return if packet.seq16 in s.packetBuffer then Acceptance(BUFFERED, PacketBuffered)
             else Acceptance(ACCEPTED, PacketAccepted);
    }

    method Validate(s: ActiveRtpSource, packet: Packet) returns (fault: Option<Reason>)
      ensures fault == PacketFault(cfg, s.Model(), packet)
    {
      if packet.scope != cfg.scope {
        return Some(ScopeMismatch);
      }
      if packet.generation != s.start.generation {
        return Some(if packet.generation < s.start.generation then StaleSourceGeneration else SourceGenerationMismatch);
      }
      var format := s.start.format;
      if packet.payloadType != format.payloadType || packet.codec != format.codec {
        return Some(FormatMismatch);
      }
      if packet.ssrc != s.start.ssrc {
        return Some(SsrcMismatch);
      }
      if |packet.payload| != format.samplesPerPacket {
        return Some(PayloadSizeMismatch);
      }
      return if packet.arrival < s.lastArrival then Some(ArrivalTimeRegression) else None;
    }

    method Advance(now: Option<real>) returns (answer: Acceptance)
      requires Valid()
      modifies this, active
      ensures Valid() && (Model(), answer) == AdvanceClock(old(Model()), now)
    {
      var s := active;
      if s == null {
        return Acceptance(REJECTED, StartRequired);
      }
      if now.None? || now.value < s.lastArrival {
        answer := Reject(ArrivalTimeRegression);
        return;
      }
      s.lastArrival := now.value;
      var failure := ExpireGap(s, now.value, false);
      if failure.Some? {
        answer := Fail(failure.value);
        return;
      }
      return Acceptance(ACCEPTED, PacketAccepted);
    }

    method Finish(control: End) returns (answer: Acceptance)
      requires Valid()
      modifies this, active
      ensures Valid() && (Model(), answer) == EndSource(old(Model()), control)
    {
      hide RtpModel.ExpireGap;
      hide RtpModel.FlushFinalChunk;
      if control.scope != cfg.scope {
        answer := Reject(ScopeMismatch);
        return;
      }
      var s := active;
      if s == null {
        return if completedGeneration == Some(control.generation) then Acceptance(DUPLICATE, DuplicateEnd)
               else Acceptance(REJECTED, StartRequired);
      }
      if control.generation != s.start.generation {
        answer := Reject(if control.generation < s.start.generation then StaleSourceGeneration
                         else SourceGenerationMismatch);
        return;
      }
      if control.arrival < s.lastArrival {
        answer := Reject(ArrivalTimeRegression);
        return;
      }
      s.latestArrivedAt := control.arrivedAt;
      var failure := ExpireGap(s, control.arrival, true);
      if failure.None? {
        failure := FlushFinalChunk(s);
      }
      if failure.Some? {
        answer := Fail(failure.value);
        return;
      }
      s.fingerprints := [];
      completedGeneration := Some(s.start.generation);
      completed, active := s, null;
      return Acceptance(COMPLETED, Ended);
    }

    method Reset() returns (answer: Acceptance)
      modifies this, active, completed
      ensures (Model(), answer) == ResetSource(old(Model()))
    {
      ReleaseAudioState();
      completedGeneration := None;
      return Acceptance(RESET, WasReset);
    }

    method DrainAudioChunks(scope: Scope, generation: nat, limit: int) returns (chunks: Result<seq<Chunk>, string>)
      requires Valid()
      modifies active, completed
      ensures Valid() && (Model(), chunks) == DrainChunks(old(Model()), scope, generation, limit)
    {
      if limit <= 0 {
        return Err("invalid_drain_limit");
      }
      var s := if active != null then active else completed;
      if s == null || scope != cfg.scope || generation != s.start.generation {
        return Ok([]);
      }
      var taken := [];
      ghost var queue := s.outputQueue;
      ghost var before := s.Model();
      while s.outputQueue != [] && |taken| < limit
        invariant taken + s.outputQueue == queue && |taken| <= limit
        invariant s.Model() == before.(queue := s.outputQueue)
        decreases |s.outputQueue|
      {
        taken := taken + [s.outputQueue[0]];
        s.outputQueue := s.outputQueue[1..];
      }
      assert |taken| == Min(limit, |queue|);
      assert taken == queue[..|taken|] && s.outputQueue == queue[|taken|..];
      return Ok(taken);
    }
  }
}
