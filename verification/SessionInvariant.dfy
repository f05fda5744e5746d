/**
  The joint invariant of session and boundary, and its preservation by the internal
  steps: aggregating, emitting, ending and cancelling.
 */
module SessionInvariant {
  import opened Common
  import B = IngressBoundary
  import opened SessionModel

  ghost predicate OwnFormat(s: Session, t: B.Stream) {
    && t.callId == s.callId && t.streamId == s.streamId
    && t.codecName == CODEC && t.sampleRate == SAMPLE_RATE && t.channels == 1
  }

  /** The boundary has exactly the session's one stream, at the session's own sequence number. */
  ghost predicate Live(s: Session) {
    && s.callStarted && !s.endEmitted
    && s.boundary.active.Keys == {KeyOf(s)}
    && s.boundary.completed == []
    && OwnFormat(s, s.boundary.active[KeyOf(s)])
    && s.boundary.active[KeyOf(s)].next == s.sequence
  }

  ghost predicate NotStarted(s: Session) {
    && !s.callStarted && !s.endEmitted && s.sequence == 0
    && s.boundary.active == map[] && s.boundary.completed == []
  }

  ghost predicate Over(s: Session) {
    && s.callStarted && s.endEmitted
    && s.boundary.active == map[] && s.boundary.completed == [KeyOf(s)]
  }

  ghost predicate OwnBoundary(s: Session) {
    s.boundary.limits.Valid() && s.boundary.limits.tenantId == s.tenantId && s.boundary.limits.providerName == PROVIDER
  }

  /** A cancelled session: the stream is gone, whether or not it ever started. */
  ghost predicate Closed(s: Session) {
    && s.closed && s.endEmitted && s.endReason.Some? && !s.capabilityActive
    && |s.buffer| <= CHUNK_BYTES
    && OwnBoundary(s) && s.boundary.active == map[]
  }

  ghost predicate Open(s: Session) {
    !s.closed && OwnBoundary(s) && |s.buffer| <= CHUNK_BYTES && |s.buffer| % 2 == 0
  }

  /** The chunks waiting in the session's stream. */
  function Queue(s: Session): seq<B.Chunk> {
    if KeyOf(s) in s.boundary.active then s.boundary.active[KeyOf(s)].queue else []
  }

  function Audio(chunks: seq<B.Chunk>): Bytes {
    if chunks == [] then [] else Audio(chunks[..|chunks| - 1]) + chunks[|chunks| - 1].event.payload
  }

  lemma {:induction false} AudioSnoc(chunks: seq<B.Chunk>, c: B.Chunk)
    ensures Audio(chunks + [c]) == Audio(chunks) + c.event.payload
  {
  }

  lemma {:induction false} AudioAppend(a: seq<B.Chunk>, b: seq<B.Chunk>)
    ensures Audio(a + b) == Audio(a) + Audio(b)
    decreases |b|
  {
    if b == [] {
      assert a + b == a;
    } else {
      var rest, last := b[..|b| - 1], b[|b| - 1];
      assert a + b == (a + rest) + [last] && b == rest + [last];
      AudioAppend(a, rest);
      AudioSnoc(a + rest, last);
      AudioSnoc(rest, last);
    }
  }

  /** Bytes held: those queued, then those still being aggregated. */
  function Held(s: Session): Bytes {
    Audio(Queue(s)) + s.buffer
  }

  /** Everything but the aggregation buffer, the stream and its counters. */
  ghost predicate SameControl(s: Session, t: Session) {
    t == s.(boundary := t.boundary, buffer := t.buffer, bufferCapturedAt := t.bufferCapturedAt,
            sequence := t.sequence, receivedChunks := t.receivedChunks)
  }

  // ----- Ending and cancelling -----

  lemma {:induction false} EndIsAccepted(s: Session, now: int)
    requires OwnBoundary(s) && Live(s)
    ensures EmitEnd(s, now).1.None?
    ensures var t := EmitEnd(s, now).0; Over(t) && OwnBoundary(t) && !t.capabilityActive
    ensures var t := EmitEnd(s, now).0;
      t == s.(boundary := t.boundary, sequence := s.sequence + 1, endEmitted := true, capabilityActive := false,
              status := t.status)
  {
  }

  lemma {:induction false} CancelCloses(s: Session, reason: TerminalReason, now: int)
    requires Open(s) && (Live(s) || NotStarted(s) || Over(s))
    ensures Cancel(s, reason, now).1.None? && Closed(Cancel(s, reason, now).0)
    ensures Cancel(s, reason, now).0.inFlight == s.inFlight
  {
    var t := s.(closed := true, buffer := [], bufferCapturedAt := None, endReason := Some(B.CANCELLED),
                terminalStatus := None, status := CancelledStatus(reason));
    if Live(s) {
      assert KeyOf(s) in t.boundary.active.Keys;
      EndIsAccepted(t, now);
    }
  }

  // ----- Emitting -----

  lemma {:induction false} OwnAudioOutcome(s: Session, captured: int, arrived: int, duration: real, payload: Bytes)
    requires OwnBoundary(s) && Live(s)
    ensures var e := EventOf(s, B.AUDIO_CHUNK, captured, arrived, duration, payload, None);
      var stream := s.boundary.active[KeyOf(s)];
      B.Accept(s.boundary, e) == B.WithStream(s.boundary, KeyOf(s), B.Audio(s.boundary.limits, stream, e))
      && (B.Audio(s.boundary.limits, stream, e).1.status == B.OVERLOADED
          || B.Audio(s.boundary.limits, stream, e) == B.TakeChunk(s.boundary.limits, stream, e))
  {
  }

  /** Emitting on a live stream never fails: it keeps every byte, or overload cancels the session. */
  lemma {:induction false} EmitLive(s: Session, arrived: int, allowShort: bool)
    requires Open(s) && Live(s)
    ensures var (t, error) := EmitBuffer(s, arrived, allowShort);
      && error.None?
      && t.inFlight == s.inFlight
      && (if t.closed then Closed(t) else Open(t) && Live(t) && SameControl(s, t) && Held(t) == Held(s))
  {
    hide Audio;
    hide Cancel;
    hide Held;
    hide Closed;
    if s.buffer != [] && (allowShort || |s.buffer| == CHUNK_BYTES) {
      var captured := Min(if s.bufferCapturedAt.Some? then s.bufferCapturedAt.value else arrived, arrived);
      var duration := |s.buffer| as real / 32000.0;
      OwnAudioOutcome(s, captured, arrived, duration, s.buffer);
      var e := EventOf(s, B.AUDIO_CHUNK, captured, arrived, duration, s.buffer, None);
      var (b, a) := B.Accept(s.boundary, e);
      assert b.active.Keys == {KeyOf(s)};
      if a.status == B.OVERLOADED {
        CancelCloses(s.(boundary := b, buffer := [], bufferCapturedAt := None), Overloaded, arrived);
      } else {
        EmitTakesChunk(s, e, arrived, allowShort);
      }
    }
  }

  lemma {:induction false} EmitTakesChunk(s: Session, e: B.Event, arrived: int, allowShort: bool)
    requires Open(s) && Live(s) && e.payload == s.buffer
    requires B.Accept(s.boundary, e)
      == B.WithStream(s.boundary, KeyOf(s), B.TakeChunk(s.boundary.limits, s.boundary.active[KeyOf(s)], e))
    requires EmitBuffer(s, arrived, allowShort).0
      == s.(boundary := B.Accept(s.boundary, e).0, buffer := [], bufferCapturedAt := None,
            sequence := s.sequence + 1, receivedChunks := s.receivedChunks + 1)
    ensures var t := EmitBuffer(s, arrived, allowShort).0;
      Open(t) && Live(t) && SameControl(s, t) && Held(t) == Held(s)
  {
  }

  /** Once the stream is gone nothing is emitted; the boundary does not change. */
  lemma {:induction false} EmitDead(s: Session, arrived: int, allowShort: bool)
    requires OwnBoundary(s) && s.boundary.active == map[] && |s.buffer| <= CHUNK_BYTES
    ensures var (t, error) := EmitBuffer(s, arrived, allowShort);
      && t == s
      && (error.Some? ==> error.value == ChunkRejected)
      && (s.buffer == [] ==> error.None?)
      && (s.buffer != [] && (allowShort || |s.buffer| == CHUNK_BYTES) ==> error.Some?)
  {
  }

  // ----- Aggregating -----

  lemma {:induction false} FilledHolds(s: Session, pcm: Bytes, take: nat, captured: int)
    requires take <= |pcm|
    ensures Held(s.(buffer := s.buffer + pcm[..take], bufferCapturedAt := Some(captured))) == Held(s) + pcm[..take]
    ensures Held(s.(buffer := s.buffer + pcm[..take])) == Held(s) + pcm[..take]
  {
    assert Audio(Queue(s)) + (s.buffer + pcm[..take]) == Audio(Queue(s)) + s.buffer + pcm[..take];
    var t := s.(buffer := s.buffer + pcm[..take], bufferCapturedAt := Some(captured));
    assert Queue(t) == Queue(s);
    assert Queue(s.(buffer := s.buffer + pcm[..take])) == Queue(s);
  }

  lemma {:induction false} LiveFrame(s: Session, buffer: Bytes, captured: Option<int>)
    requires Live(s)
    ensures Live(s.(buffer := buffer, bufferCapturedAt := captured))
  {
  }

  lemma {:induction false} StepLive(s: Session, pcm: Bytes, arrived: int, captured: int)
    requires Open(s) && Live(s) && |pcm| % 2 == 0
    ensures var (t, error) := AppendStep(s, pcm, arrived, captured);
      && error.None?
      && t.inFlight == s.inFlight
      && (if t.closed then Closed(t)
          else Open(t) && Live(t) && SameControl(s, t) && |t.buffer| < CHUNK_BYTES
               && Held(t) == Held(s) + pcm[..Min(CHUNK_BYTES - |s.buffer|, |pcm|)])
  {
    hide Live;
    hide Closed;
    hide EmitBuffer;
    hide Held;
    var take := Min(CHUNK_BYTES - |s.buffer|, |pcm|);
    var t := s.(bufferCapturedAt := if s.buffer == [] then Some(captured) else s.bufferCapturedAt,
                buffer := s.buffer + pcm[..take]);
    assert Held(t) == Held(s) + pcm[..take] by {
      FilledHolds(s, pcm, take, captured);
    }
    LiveFrame(s, t.buffer, t.bufferCapturedAt);
    if |t.buffer| == CHUNK_BYTES {
      EmitLive(t, arrived, false);
    }
  }

  lemma {:induction false} SplitBytes(before: Bytes, pcm: Bytes, take: nat)
    requires take <= |pcm|
    ensures before + pcm[..take] + pcm[take..] == before + pcm
  {
  }

  lemma {:induction false} AppendLive(s: Session, pcm: Bytes, arrived: int, captured: int)
    requires Open(s) && Live(s) && |pcm| % 2 == 0 && |s.buffer| < CHUNK_BYTES
    ensures var (t, error) := Append(s, pcm, arrived, captured);
      && t.inFlight == s.inFlight
      && (error.Some? ==> error.value == ChunkRejected)
      && (if t.closed then Closed(t)
          else error.None? && Open(t) && Live(t) && SameControl(s, t) && |t.buffer| < CHUNK_BYTES
               && Held(t) == Held(s) + pcm)
    decreases |pcm|
  {
    hide Live;
    hide AppendStep;
    hide Held;
    if pcm == [] {
      assert Held(s) + pcm == Held(s);
    } else {
      StepLive(s, pcm, arrived, captured);
      var take := Min(CHUNK_BYTES - |s.buffer|, |pcm|);
      var step := AppendStep(s, pcm, arrived, captured).0;
      if step.closed {
        AppendDead(step, pcm[take..], arrived, captured);
      } else {
        AppendLive(step, pcm[take..], arrived, captured);
        SplitBytes(Held(s), pcm, take);
      }
    }
  }

  /** Bytes appended to a dead stream only ever reach the buffer. */
  lemma {:induction false} AppendDead(s: Session, pcm: Bytes, arrived: int, captured: int)
    requires OwnBoundary(s) && s.boundary.active == map[] && |s.buffer| <= CHUNK_BYTES
    ensures var (t, error) := Append(s, pcm, arrived, captured);
      && t == s.(buffer := t.buffer, bufferCapturedAt := t.bufferCapturedAt) && |t.buffer| <= CHUNK_BYTES
      && (error.Some? ==> error.value == ChunkRejected)
    decreases |pcm|, |s.buffer|
  {
    hide EmitBuffer;
    hide B.Accept;
    if pcm != [] {
      var take := Min(CHUNK_BYTES - |s.buffer|, |pcm|);
      var t := s.(bufferCapturedAt := if s.buffer == [] then Some(captured) else s.bufferCapturedAt,
                  buffer := s.buffer + pcm[..take]);
      EmitDead(t, arrived, false);
      if AppendStep(s, pcm, arrived, captured).1.None? {
        AppendDead(t, pcm[take..], arrived, captured);
      }
    }
  }

  lemma {:induction false} ItemsLive(s: Session, items: seq<PcmItem>, arrived: int)
    requires Open(s) && Live(s) && |s.buffer| < CHUNK_BYTES
    ensures var (t, error) := AppendItems(s, items, arrived);
      && t.inFlight == s.inFlight
      && (error.Some? ==> error.value == ChunkRejected)
      && (if t.closed then Closed(t)
          else error.None? && Open(t) && Live(t) && SameControl(s, t) && |t.buffer| < CHUNK_BYTES
               && Held(t) == Held(s) + Flatten(items))
    decreases |items|
  {
    if items == [] {
      assert Held(s) + Flatten(items) == Held(s);
    } else {
      AppendLive(s, items[0], arrived, arrived);
      var first := Append(s, items[0], arrived, arrived);
      if first.0.closed {
        if first.1.None? {
          ItemsDead(first.0, items[1..], arrived);
        }
      } else {
        ItemsLive(first.0, items[1..], arrived);
        assert Held(s) + items[0] + Flatten(items[1..]) == Held(s) + Flatten(items);
      }
    }
  }

  lemma {:induction false} ItemsDead(s: Session, items: seq<PcmItem>, arrived: int)
    requires OwnBoundary(s) && s.boundary.active == map[] && |s.buffer| <= CHUNK_BYTES
    ensures var (t, error) := AppendItems(s, items, arrived);
      && t == s.(buffer := t.buffer, bufferCapturedAt := t.bufferCapturedAt) && |t.buffer| <= CHUNK_BYTES
      && (error.Some? ==> error.value == ChunkRejected)
    decreases |items|
  {
    if items != [] {
      AppendDead(s, items[0], arrived, arrived);
      var first := Append(s, items[0], arrived, arrived);
      if first.1.None? {
        ItemsDead(first.0, items[1..], arrived);
      }
    }
  }

  /** Flushing out a live session keeps every byte and leaves the buffer empty, or overload cancels it. */
  lemma {:induction false} FlushLive(s: Session, items: seq<PcmItem>, now: int)
    requires Open(s) && Live(s) && |s.buffer| < CHUNK_BYTES
    ensures var (t, error) := FlushOut(s, items, now);
      && t.inFlight == s.inFlight
      && (error.Some? ==> error.value == ChunkRejected)
      && (if t.closed then Closed(t)
          else error.None? && Open(t) && Live(t) && SameControl(s, t) && t.buffer == []
               && Held(t) == Held(s) + Flatten(items))
  {
    ItemsLive(s, items, now);
    var (t, error) := AppendItems(s, items, now);
    if error.None? {
      if t.closed {
        EmitDead(t, now, true);
      } else {
        EmitLive(t, now, true);
      }
    }
  }

  /** Flushing out before the call started, or after it was cancelled, changes nothing but the buffer. */
  lemma {:induction false} FlushDead(s: Session, items: seq<PcmItem>, now: int)
    requires OwnBoundary(s) && s.boundary.active == map[] && |s.buffer| <= CHUNK_BYTES
    ensures var (t, error) := FlushOut(s, items, now);
      && t == s.(buffer := t.buffer, bufferCapturedAt := t.bufferCapturedAt) && |t.buffer| <= CHUNK_BYTES
      && (error.None? ==> t.buffer == [])
  {
    ItemsDead(s, items, now);
    var (t, error) := AppendItems(s, items, now);
    if error.None? {
      EmitDead(t, now, true);
    }
  }
}
