/**
  The invariant that ties a source to its timeline, and its preservation by each
  internal step: emitting, consuming, skipping, draining, expiring and admitting.
 */
module RtpInvariant {
  import opened Common
  import opened G711
  import opened RtpModel
  import opened RtpTimeline

  /**
    What an observer of one source has seen: the packets accepted at each absolute
    position, one more than the highest such position, and the chunks drained.
   */
  datatype Ledger = Ledger(accepted: map<nat, Packet>, top: nat, drained: seq<Chunk>)

  const EMPTY_LEDGER := Ledger(map[], 0, [])

  /** The absolute position expected next: packets played out plus positions skipped. */
  function Position(s: Source): int {
    Played(s) + s.missingCount
  }

  /** Packets whose audio has been rendered. */
  function Played(s: Source): int {
    s.acceptedCount - |s.buffer|
  }

  /** Every chunk emitted so far, drained or still queued. */
  function Log(s: Source, g: Ledger): seq<Chunk> {
    g.drained + s.queue
  }

  ghost predicate SlotOk(start: Start, p: Packet, position: nat) {
    && p.seq16 == SeqAt(start, position)
    && |p.payload| == start.format.samplesPerPacket
    && p.codec == start.format.codec
  }

  /** Accepted positions lie below `top` and at most `maxReorder` ahead of the expected one. */
  ghost predicate WindowOk(cfg: Config, s: Source, g: Ledger) {
    var n := Position(s);
    && 0 <= n <= g.top <= n + cfg.maxReorder + 1
    && (g.top == 0 || g.top - 1 in g.accepted)
    && s.acceptedCount == |g.accepted|
    && forall a :: a in g.accepted ==> a < g.top && SlotOk(s.start, g.accepted[a], a)
  }

  /** The packet accepted at a position sits in the buffer under its sequence number. */
  ghost predicate InBuffer(s: Source, g: Ledger, a: nat)
    requires a in g.accepted
  {
    SeqAt(s.start, a) in s.buffer && s.buffer[SeqAt(s.start, a)] == g.accepted[a]
  }

  /** A buffered key is the accepted position that far ahead of the expected one. */
  ghost predicate FromLedger(s: Source, g: Ledger, k: Seq16) {
    Position(s) + Distance(k, s.expectedSeq) in g.accepted
  }

  /** The reorder buffer holds exactly the accepted packets not yet played out. */
  ghost predicate BufferOk(s: Source, g: Ledger) {
    && (forall a {:trigger InBuffer(s, g, a)} :: a in g.accepted && Position(s) <= a ==> InBuffer(s, g, a))
    && (forall k {:trigger FromLedger(s, g, k)} :: k in s.buffer ==> FromLedger(s, g, k))
  }

  /** Sequence and timestamp counters are those of the expected position. */
  ghost predicate ClockOk(s: Source, g: Ledger) {
    var n := Position(s);
    && 0 <= n
    && s.expectedSeq == SeqAt(s.start, n)
    && s.expectedTs == TsAt(s.start, n)
    && forall a :: a in g.accepted && a < n ==> g.accepted[a].ts == TsAt(s.start, a)
  }

  /** Emitted chunks followed by the PCM buffer are the rendered timeline. */
  ghost predicate AudioOk(s: Source, g: Ledger) {
    && 0 <= Played(s)
    && Stream(Log(s, g)) + s.pcm == Render(g.accepted, Position(s), s.start.format.samplesPerPacket)
    && FullChunks(Log(s, g))
    && s.emittedChunks == |Log(s, g)|
    && s.emittedSamples == 32000 * |Log(s, g)|
    && s.decodedSamples == Played(s) * s.start.format.samplesPerPacket
  }

  ghost predicate Tracks(cfg: Config, s: Source, g: Ledger) {
    && WindowOk(cfg, s, g)
    && BufferOk(s, g)
    && ClockOk(s, g)
    && AudioOk(s, g)
    && |s.queue| <= cfg.maxOutputChunks
  }

  ghost predicate Settled(cfg: Config, s: Source, g: Ledger) {
    Tracks(cfg, s, g) && |s.pcm| < CHUNK_BYTES
  }

  /** The fields that place a source on its timeline. */
  ghost predicate SamePlace(s: Source, t: Source) {
    && t.start == s.start && t.buffer == s.buffer && t.expectedSeq == s.expectedSeq && t.expectedTs == s.expectedTs
    && t.acceptedCount == s.acceptedCount && t.missingCount == s.missingCount && t.decodedSamples == s.decodedSamples
  }

  ghost predicate SameOutput(s: Source, t: Source) {
    && t.pcm == s.pcm && t.queue == s.queue
    && t.emittedChunks == s.emittedChunks && t.emittedSamples == s.emittedSamples
  }

  lemma {:induction false} AcceptedIsBuffered(s: Source, g: Ledger, a: nat)
    requires BufferOk(s, g) && a in g.accepted && Position(s) <= a
    ensures SeqAt(s.start, a) in s.buffer && s.buffer[SeqAt(s.start, a)] == g.accepted[a]
  {
    assert InBuffer(s, g, a);
  }

  lemma {:induction false} BufferedWasAccepted(s: Source, g: Ledger, k: Seq16)
    requires BufferOk(s, g) && k in s.buffer
    ensures Position(s) + Distance(k, s.expectedSeq) in g.accepted
  {
    assert FromLedger(s, g, k);
  }

  lemma {:induction false} BufferFrame(s: Source, t: Source, g: Ledger)
    requires BufferOk(s, g) && SamePlace(s, t)
    ensures BufferOk(t, g)
  {
    forall a | a in g.accepted && Position(t) <= a ensures InBuffer(t, g, a) {
      assert InBuffer(s, g, a);
    }
    forall k | k in t.buffer ensures FromLedger(t, g, k) {
      assert FromLedger(s, g, k);
    }
  }

  lemma {:induction false} PlaceFrame(cfg: Config, s: Source, t: Source, g: Ledger)
    requires WindowOk(cfg, s, g) && BufferOk(s, g) && ClockOk(s, g) && SamePlace(s, t)
    ensures WindowOk(cfg, t, g) && BufferOk(t, g) && ClockOk(t, g)
  {
    BufferFrame(s, t, g);
  }

  lemma {:induction false} TracksFrame(cfg: Config, s: Source, t: Source, g: Ledger)
    requires Tracks(cfg, s, g) && SamePlace(s, t) && SameOutput(s, t)
    ensures Tracks(cfg, t, g)
  {
    hide WindowOk;
    hide BufferOk;
    hide ClockOk;
    hide Render;
    hide Stream;
    hide FullChunks;
    PlaceFrame(cfg, s, t, g);
  }

  lemma {:induction false} FullChunksSnoc(log: seq<Chunk>, c: Chunk)
    requires FullChunks(log) && FullChunk(c, |log|)
    ensures FullChunks(log + [c])
  {
  }

  lemma {:induction false} Associate(a: Bytes, b: Bytes, c: Bytes)
    ensures a + (b + c) == a + b + c
  {
  }

  lemma {:induction false} Reassociate(front: Bytes, pcm: Bytes, n: nat)
    requires n <= |pcm|
    ensures front + pcm == front + pcm[..n] + pcm[n..]
  {
  }

  lemma {:induction false} QueueAudio(cfg: Config, s: Source, g: Ledger)
    requires AudioOk(s, g) && |s.pcm| >= CHUNK_BYTES
    ensures var f := QueueChunk(cfg, s.(pcm := s.pcm[CHUNK_BYTES..]), s.pcm[..CHUNK_BYTES]);
      f.failure.None? ==> AudioOk(f.s, g)
  {
    hide Render;
    hide Stream;
    hide FullChunks;
    var f := QueueChunk(cfg, s.(pcm := s.pcm[CHUNK_BYTES..]), s.pcm[..CHUNK_BYTES]);
    if f.failure.None? {
      var log, c := Log(s, g), f.s.queue[|s.queue|];
      assert Log(f.s, g) == log + [c];
      assert FullChunk(c, |log|);
      FullChunksSnoc(log, c);
      StreamSnoc(log, c);
      Reassociate(Stream(log), s.pcm, CHUNK_BYTES);
    }
  }

  lemma {:induction false} QueueTracks(cfg: Config, s: Source, g: Ledger)
    requires Tracks(cfg, s, g) && |s.pcm| >= CHUNK_BYTES
    ensures var f := QueueChunk(cfg, s.(pcm := s.pcm[CHUNK_BYTES..]), s.pcm[..CHUNK_BYTES]);
      f.failure.None? ==> Tracks(cfg, f.s, g)
  {
    QueueAudio(cfg, s, g);
    PlaceFrame(cfg, s, QueueChunk(cfg, s.(pcm := s.pcm[CHUNK_BYTES..]), s.pcm[..CHUNK_BYTES]).s, g);
  }

  lemma {:induction false} EmitSettles(cfg: Config, s: Source, g: Ledger)
    requires Tracks(cfg, s, g)
    ensures var f := EmitCompleteChunks(cfg, s); f.failure.None? ==> Settled(cfg, f.s, g)
    decreases |s.pcm|
  {
    if |s.pcm| >= CHUNK_BYTES {
      var queued := QueueChunk(cfg, s.(pcm := s.pcm[CHUNK_BYTES..]), s.pcm[..CHUNK_BYTES]);
      QueueTracks(cfg, s, g);
      if queued.failure.None? {
        EmitSettles(cfg, queued.s, g);
      }
    }
  }

  lemma {:induction false} ConsumePlace(cfg: Config, s: Source, g: Ledger)
    requires cfg.Valid() && WindowOk(cfg, s, g) && BufferOk(s, g) && ClockOk(s, g)
    requires s.expectedSeq in s.buffer && s.buffer[s.expectedSeq].ts == s.expectedTs
    ensures Position(Consume(s)) == Position(s) + 1
    ensures Position(s) in g.accepted && g.accepted[Position(s)] == s.buffer[s.expectedSeq]
    ensures WindowOk(cfg, Consume(s), g) && ClockOk(Consume(s), g)
  {
    var n := Position(s);
    RemoveShrinks(s.buffer, s.expectedSeq);
    assert FromLedger(s, g, s.expectedSeq) && InBuffer(s, g, n);
  }

  lemma {:induction false} ConsumeKeys(s: Source, g: Ledger, k: Seq16)
    requires BufferOk(s, g) && s.expectedSeq in s.buffer
    requires Position(Consume(s)) == Position(s) + 1
    requires k in s.buffer && k != s.expectedSeq
    ensures FromLedger(Consume(s), g, k)
  {
    hide Position;
    hide Distance;
    hide AdvanceSeq;
    hide AudioBytes;
    assert FromLedger(s, g, k);
    NotExpected(k, s.expectedSeq);
    DistanceShift(k, s.expectedSeq, 1);
  }

  lemma {:induction false} NotExpected(k: Seq16, expected: Seq16)
    requires k != expected
    ensures Distance(k, expected) >= 1
  {
  }

  lemma {:induction false} ConsumeKeeps(cfg: Config, s: Source, g: Ledger, a: nat)
    requires cfg.Valid() && WindowOk(cfg, s, g) && BufferOk(s, g) && s.expectedSeq == SeqAt(s.start, Position(s))
    requires s.expectedSeq in s.buffer && a in g.accepted && Position(s) < a
    ensures InBuffer(Consume(s), g, a)
  {
    hide SlotOk;
    hide AudioBytes;
    assert InBuffer(s, g, a);
    SeqAtAhead(s.start, Position(s), a - Position(s));
  }

  lemma {:induction false} ConsumeBuffer(cfg: Config, s: Source, g: Ledger)
    requires cfg.Valid() && WindowOk(cfg, s, g) && BufferOk(s, g) && ClockOk(s, g)
    requires s.expectedSeq in s.buffer && Position(Consume(s)) == Position(s) + 1
    ensures BufferOk(Consume(s), g)
  {
    forall k | k in Consume(s).buffer ensures FromLedger(Consume(s), g, k) {
      ConsumeKeys(s, g, k);
    }
    forall a | a in g.accepted && Position(Consume(s)) <= a ensures InBuffer(Consume(s), g, a) {
      ConsumeKeeps(cfg, s, g, a);
    }
  }

  lemma {:induction false} ConsumeAudio(s: Source, g: Ledger)
    requires AudioOk(s, g) && s.expectedSeq in s.buffer
    requires Position(Consume(s)) == Position(s) + 1
    requires Position(s) in g.accepted && g.accepted[Position(s)] == s.buffer[s.expectedSeq]
    requires |s.buffer[s.expectedSeq].payload| == s.start.format.samplesPerPacket
    ensures AudioOk(Consume(s), g)
  {
    hide Stream;
    hide FullChunks;
    var n, spp := Position(s), s.start.format.samplesPerPacket;
    var audio := SlotAudio(g.accepted, n, spp);
    RemoveShrinks(s.buffer, s.expectedSeq);
    OneMore(spp, Played(s));
    assert Log(Consume(s), g) == Log(s, g);
    assert Consume(s).pcm == s.pcm + audio;
    Associate(Stream(Log(s, g)), s.pcm, audio);
  }

  lemma {:induction false} ConsumeTracks(cfg: Config, s: Source, g: Ledger)
    requires cfg.Valid() && Tracks(cfg, s, g)
    requires s.expectedSeq in s.buffer && s.buffer[s.expectedSeq].ts == s.expectedTs
    ensures Tracks(cfg, Consume(s), g)
    ensures Position(Consume(s)) == Position(s) + 1
  {
    ConsumePlace(cfg, s, g);
    ConsumeBuffer(cfg, s, g);
    ConsumeAudio(s, g);
  }

  lemma {:induction false} NoneBeforeNearest(s: Source, g: Ledger, d: nat)
    requires BufferOk(s, g) && ClockOk(s, g) && d < SEQUENCE_MODULUS
    requires forall k :: k in s.buffer ==> d < Distance(k, s.expectedSeq)
    ensures Position(s) + d !in g.accepted
  {
    SeqAtAhead(s.start, Position(s), d);
    if Position(s) + d in g.accepted {
      AcceptedIsBuffered(s, g, Position(s) + d);
    }
  }

  lemma {:induction false} NoAdvance(expected: Seq16)
    ensures AdvanceSeq(expected, 0) == expected
  {
  }

  lemma {:induction false} NearestWasAccepted(cfg: Config, s: Source, g: Ledger, d: nat)
    requires WindowOk(cfg, s, g) && BufferOk(s, g) && d < SEQUENCE_MODULUS
    requires AdvanceSeq(s.expectedSeq, d) in s.buffer && s.expectedSeq !in s.buffer
    ensures 0 < d <= cfg.maxReorder && Position(s) + d in g.accepted
  {
    hide Distance;
    hide AdvanceSeq;
    hide SlotOk;
    DistanceOfAdvance(s.expectedSeq, d);
    DistanceOfAdvance(s.expectedSeq, 0);
    BufferedWasAccepted(s, g, AdvanceSeq(s.expectedSeq, d));
    NoAdvance(s.expectedSeq);
  }

  /** The nearest buffered packet is within the window, and every position before it is empty. */
  lemma {:induction false} NearestIsInWindow(cfg: Config, s: Source, g: Ledger)
    requires cfg.Valid() && WindowOk(cfg, s, g) && BufferOk(s, g) && ClockOk(s, g)
    requires s.buffer.Keys != {} && s.expectedSeq !in s.buffer
    ensures var d := NearestDistance(s.buffer, s.expectedSeq, 0);
      && 0 < d <= cfg.maxReorder
      && Position(s) + d in g.accepted
      && forall a :: Position(s) <= a < Position(s) + d ==> a !in g.accepted
  {
    hide SlotOk;
    hide Distance;
    hide AdvanceSeq;
    hide BufferOk;
    var n, d := Position(s), NearestDistance(s.buffer, s.expectedSeq, 0);
    NearestWasAccepted(cfg, s, g, d);
    forall a | n <= a < n + d ensures a !in g.accepted {
      NoneBeforeNearest(s, g, a - n);
    }
  }

  lemma {:induction false} SkipPlace(cfg: Config, s: Source, g: Ledger, d: nat)
    requires cfg.Valid() && WindowOk(cfg, s, g) && BufferOk(s, g) && ClockOk(s, g)
    requires 0 < d <= cfg.maxReorder && Position(s) + d in g.accepted
    requires forall a :: Position(s) <= a < Position(s) + d ==> a !in g.accepted
    ensures var t := SkipMissing(s, d);
      WindowOk(cfg, t, g) && ClockOk(t, g) && t.expectedSeq in t.buffer
  {
    var n := Position(s);
    SeqAtAhead(s.start, n, d);
    TsAtAhead(s.start, n, d);
    assert InBuffer(s, g, n + d);
  }

  lemma {:induction false} SkipBuffer(cfg: Config, s: Source, g: Ledger, d: nat)
    requires cfg.Valid() && WindowOk(cfg, s, g) && BufferOk(s, g) && ClockOk(s, g)
    requires 0 < d <= cfg.maxReorder
    requires forall k :: k in s.buffer ==> d <= Distance(k, s.expectedSeq)
    ensures BufferOk(SkipMissing(s, d), g)
  {
    var n, t := Position(s), SkipMissing(s, d);
    forall k | k in t.buffer ensures FromLedger(t, g, k) {
      assert FromLedger(s, g, k);
      DistanceShift(k, s.expectedSeq, d);
    }
    forall a | a in g.accepted && n + d <= a ensures InBuffer(t, g, a) {
      assert InBuffer(s, g, a);
    }
  }

  lemma {:induction false} SkipAudio(s: Source, g: Ledger, d: nat)
    requires AudioOk(s, g)
    requires forall a :: Position(s) <= a < Position(s) + d ==> a !in g.accepted
    ensures AudioOk(SkipMissing(s, d), g)
  {
    hide Render;
    hide Stream;
    hide FullChunks;
    var n, spp, t := Position(s), s.start.format.samplesPerPacket, SkipMissing(s, d);
    RenderGap(g.accepted, n, d, spp);
    assert Log(t, g) == Log(s, g);
    Associate(Stream(Log(s, g)), s.pcm, Zeros(4 * (d * spp)));
  }

  lemma {:induction false} SkipTracks(cfg: Config, s: Source, g: Ledger)
    requires cfg.Valid() && Tracks(cfg, s, g)
    requires s.buffer.Keys != {} && s.expectedSeq !in s.buffer
    ensures var t := SkipMissing(s, NearestDistance(s.buffer, s.expectedSeq, 0));
      && Tracks(cfg, t, g)
      && t.expectedSeq in t.buffer
      && Position(t) >= Position(s)
  {
    var d := NearestDistance(s.buffer, s.expectedSeq, 0);
    NearestIsInWindow(cfg, s, g);
    SkipPlace(cfg, s, g, d);
    SkipBuffer(cfg, s, g, d);
    SkipAudio(s, g, d);
  }

  lemma {:induction false} PlaySettles(cfg: Config, s: Source, g: Ledger)
    requires cfg.Valid() && Settled(cfg, s, g) && s.expectedSeq in s.buffer
    ensures var f := PlayExpected(cfg, s);
      f.failure.None? ==> Settled(cfg, f.s, g) && Position(f.s) >= Position(s)
  {
    if s.buffer[s.expectedSeq].ts == s.expectedTs {
      ConsumeTracks(cfg, s, g);
      EmitSettles(cfg, Consume(s), g);
    }
  }

  lemma {:induction false} DrainSettles(cfg: Config, s: Source, g: Ledger)
    requires cfg.Valid() && Settled(cfg, s, g)
    ensures var f := DrainContiguous(cfg, s);
      f.failure.None? ==> Settled(cfg, f.s, g) && f.s.expectedSeq !in f.s.buffer && Position(f.s) >= Position(s)
    decreases |s.buffer|
  {
    hide Tracks;
    if s.expectedSeq !in s.buffer {
      TracksFrame(cfg, s, SettleGap(s), g);
    } else {
      PlaySettles(cfg, s, g);
      var played := PlayExpected(cfg, s);
      if played.failure.None? {
        DrainSettles(cfg, played.s, g);
      }
    }
  }

  /** One round of a gap expiry: skip to the nearest packet, emit, restart the gap clock. */
  lemma {:induction false} SkipSettles(cfg: Config, s: Source, g: Ledger, now: real)
    requires cfg.Valid() && Settled(cfg, s, g)
    requires s.buffer.Keys != {} && s.expectedSeq !in s.buffer
    ensures var f := EmitCompleteChunks(cfg, SkipMissing(s, NearestDistance(s.buffer, s.expectedSeq, 0)));
      f.failure.None? ==>
        var t := f.s.(gapStarted := Some(now));
        Settled(cfg, t, g) && t.expectedSeq in t.buffer && Position(t) >= Position(s)
  {
    var skipped := SkipMissing(s, NearestDistance(s.buffer, s.expectedSeq, 0));
    SkipTracks(cfg, s, g);
    EmitSettles(cfg, skipped, g);
    var f := EmitCompleteChunks(cfg, skipped);
    if f.failure.None? {
      TracksFrame(cfg, f.s, f.s.(gapStarted := Some(now)), g);
    }
  }

  /**
    A gap expiry keeps the invariant, leaves no packet playable, empties the buffer when
    forced, and never takes its window-exceeded exit.
   */
  lemma {:induction false} ExpirySettles(cfg: Config, s: Source, g: Ledger, now: real, force: bool)
    requires cfg.Valid() && Settled(cfg, s, g)
    ensures var f := ExpireGap(cfg, s, now, force);
      && f.failure != Some(ReorderWindowExceeded)
      && (f.failure.None? ==>
           && Settled(cfg, f.s, g)
           && f.s.expectedSeq !in f.s.buffer
           && Position(f.s) >= Position(s)
           && (force ==> f.s.buffer.Keys == {}))
    decreases |s.buffer|, if s.expectedSeq in s.buffer then 0 else 1
  {
    hide WindowOk;
    hide BufferOk;
    hide ClockOk;
    hide AudioOk;
    if s.buffer.Keys == {} {
    } else if s.expectedSeq in s.buffer {
      DrainSettles(cfg, s, g);
      var drained := DrainContiguous(cfg, s);
      if drained.failure.None? {
        ExpirySettles(cfg, drained.s, g, now, force);
      }
    } else if !KeepsWaiting(cfg, s, now, force) {
      NearestIsInWindow(cfg, s, g);
      SkipSettles(cfg, s, g, now);
      var emitted := EmitCompleteChunks(cfg, SkipMissing(s, NearestDistance(s.buffer, s.expectedSeq, 0)));
      if emitted.failure.None? {
        ExpirySettles(cfg, emitted.s.(gapStarted := Some(now)), g, now, force);
      }
    }
  }

  // ----- Admitting a packet -----

  /** Where a packet lands: the expected position plus its modular distance. */
  function Landing(s: Source, p: Packet): int {
    Position(s) + Distance(p.seq16, s.expectedSeq)
  }

  function Recorded(g: Ledger, position: nat, p: Packet): Ledger {
    g.(accepted := g.accepted[position := p], top := if position < g.top then g.top else position + 1)
  }

  lemma {:induction false} LandsOnFreePosition(s: Source, g: Ledger, p: Packet)
    requires BufferOk(s, g) && ClockOk(s, g) && p.seq16 !in s.buffer
    ensures Landing(s, p) >= 0 && Landing(s, p) !in g.accepted
    ensures SeqAt(s.start, Landing(s, p)) == p.seq16
  {
    SeqAtAhead(s.start, Position(s), Distance(p.seq16, s.expectedSeq));
    if Landing(s, p) in g.accepted {
      AcceptedIsBuffered(s, g, Landing(s, p));
    }
  }

  lemma {:induction false} RecordWindow(cfg: Config, s: Source, t: Source, g: Ledger, a: nat, p: Packet)
    requires WindowOk(cfg, s, g) && a !in g.accepted && SlotOk(s.start, p, a)
    requires Position(s) <= a <= Position(s) + cfg.maxReorder
    requires t.start == s.start && t.acceptedCount == s.acceptedCount + 1 && Position(t) == Position(s)
    ensures WindowOk(cfg, t, Recorded(g, a, p))
  {
  }

  lemma {:induction false} AdmitPlace(cfg: Config, s: Source, g: Ledger, p: Packet)
    requires cfg.Valid() && WindowOk(cfg, s, g) && BufferOk(s, g) && ClockOk(s, g)
    requires PacketFault(cfg, s, p).None? && p.seq16 !in s.buffer
    requires Distance(p.seq16, s.expectedSeq) <= cfg.maxReorder
    ensures Landing(s, p) >= 0 && Landing(s, p) !in g.accepted
    ensures Position(Admit(cfg, s, p)) == Position(s)
    ensures WindowOk(cfg, Admit(cfg, s, p), Recorded(g, Landing(s, p), p))
    ensures ClockOk(Admit(cfg, s, p), Recorded(g, Landing(s, p), p))
  {
    LandsOnFreePosition(s, g, p);
    assert Admit(cfg, s, p).buffer.Keys == s.buffer.Keys + {p.seq16};
    RecordWindow(cfg, s, Admit(cfg, s, p), g, Landing(s, p), p);
  }

  lemma {:induction false} AdmittedKey(cfg: Config, s: Source, g: Ledger, p: Packet, k: Seq16)
    requires BufferOk(s, g) && k in Admit(cfg, s, p).buffer && Landing(s, p) >= 0
    requires Position(Admit(cfg, s, p)) == Position(s)
    ensures FromLedger(Admit(cfg, s, p), Recorded(g, Landing(s, p), p), k)
  {
    hide Distance;
    hide Position;
    if k != p.seq16 {
      assert FromLedger(s, g, k);
    }
  }

  lemma {:induction false} AdmittedPosition(cfg: Config, s: Source, g: Ledger, p: Packet, b: nat)
    requires BufferOk(s, g) && p.seq16 !in s.buffer && Landing(s, p) >= 0
    requires SeqAt(s.start, Landing(s, p)) == p.seq16
    requires b in Recorded(g, Landing(s, p), p).accepted && Position(s) <= b
    ensures InBuffer(Admit(cfg, s, p), Recorded(g, Landing(s, p), p), b)
  {
    hide Distance;
    hide Position;
    hide SeqAt;
    if b != Landing(s, p) {
      assert InBuffer(s, g, b);
    }
  }

  lemma {:induction false} AdmitBuffer(cfg: Config, s: Source, g: Ledger, p: Packet)
    requires BufferOk(s, g) && ClockOk(s, g) && p.seq16 !in s.buffer
    requires Position(Admit(cfg, s, p)) == Position(s)
    ensures BufferOk(Admit(cfg, s, p), Recorded(g, Landing(s, p), p))
  {
    var t, h := Admit(cfg, s, p), Recorded(g, Landing(s, p), p);
    LandsOnFreePosition(s, g, p);
    forall b | b in h.accepted && Position(s) <= b ensures InBuffer(t, h, b) {
      AdmittedPosition(cfg, s, g, p, b);
    }
    forall k | k in t.buffer ensures FromLedger(t, h, k) {
      AdmittedKey(cfg, s, g, p, k);
    }
  }

  lemma {:induction false} AdmitTracks(cfg: Config, s: Source, g: Ledger, p: Packet)
    requires cfg.Valid() && Settled(cfg, s, g)
    requires PacketFault(cfg, s, p).None? && p.seq16 !in s.buffer
    requires Distance(p.seq16, s.expectedSeq) <= cfg.maxReorder
    ensures Landing(s, p) >= 0 && Landing(s, p) !in g.accepted
    ensures Settled(cfg, Admit(cfg, s, p), Recorded(g, Landing(s, p), p))
  {
    var t, h := Admit(cfg, s, p), Recorded(g, Landing(s, p), p);
    AdmitPlace(cfg, s, g, p);
    AdmitBuffer(cfg, s, g, p);
    AdmitAudio(cfg, s, g, p);
  }

  lemma {:induction false} AdmitAudio(cfg: Config, s: Source, g: Ledger, p: Packet)
    requires AudioOk(s, g) && p.seq16 !in s.buffer
    requires Position(Admit(cfg, s, p)) == Position(s)
    ensures AudioOk(Admit(cfg, s, p), Recorded(g, Landing(s, p), p))
  {
    hide Render;
    hide Stream;
    hide FullChunks;
    hide TrimHistory;
    var n, t, h := Position(s), Admit(cfg, s, p), Recorded(g, Landing(s, p), p);
    assert t.buffer.Keys == s.buffer.Keys + {p.seq16};
    RenderExtensional(g.accepted, h.accepted, n, s.start.format.samplesPerPacket);
    assert Log(t, h) == Log(s, g);
  }
}
