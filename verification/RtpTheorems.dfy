/** What every run of the adapter guarantees. */
module RtpTheorems {
  import opened Common
  import opened G711
  import opened RtpModel
  import opened RtpTimeline
  import opened RtpInvariant
  import opened RtpHistory
  import opened RtpRuns

  ghost predicate Streaming(w: World) {
    w.adapter.active.Some?
  }

  /** The source was closed by an accepted END. */
  ghost predicate Ended(w: World) {
    w.adapter.active.None? && w.adapter.completedGeneration.Some? && w.adapter.completed.Some?
  }

  /**
    Refinement. While a source is active, the chunks emitted so far followed by the PCM
    buffer are the accepted packets in order of absolute position, silence where none came.
   */
  lemma {:induction false} EmittedAudioIsTheTimeline(cfg: Config, w: World)
    requires Reachable(cfg, w) && Streaming(w)
    ensures var s := w.adapter.active.value;
      && Position(s) >= 0
      && Stream(w.ledger.drained + s.queue) + s.pcm
           == Render(w.ledger.accepted, Position(s), s.start.format.samplesPerPacket)
      && FullChunks(w.ledger.drained + s.queue)
      && |s.pcm| < CHUNK_BYTES
      && |s.queue| <= cfg.maxOutputChunks
  {
    ReachableIsConsistent(cfg, w);
  }

  /** The same for a finished source: nothing is left over, and only the last chunk may be short. */
  lemma {:induction false} FinishedAudioIsTheTimeline(cfg: Config, w: World)
    requires Reachable(cfg, w) && Ended(w)
    ensures var s := w.adapter.completed.value;
      && Stream(w.ledger.drained + s.queue) == Render(w.ledger.accepted, w.ledger.top, s.start.format.samplesPerPacket)
      && Cut(w.ledger.drained + s.queue)
      && s.pcm == [] && s.buffer.Keys == {}
      && forall a :: a in w.ledger.accepted ==> a < w.ledger.top
  {
    ReachableIsConsistent(cfg, w);
  }

  /**
    Window. Between calls every buffered packet is 1..maxReorder ahead of the expected
    number, and no later expiry, forced or not, can take its window-exceeded exit.
   */
  lemma {:induction false} BufferedPacketsAreInTheWindow(cfg: Config, w: World, now: real, force: bool)
    requires Reachable(cfg, w) && Streaming(w)
    ensures var s := w.adapter.active.value;
      && (forall k :: k in s.buffer ==> 1 <= Distance(k, s.expectedSeq) <= cfg.maxReorder)
      && |s.buffer| <= cfg.maxReorder
    ensures var s := w.adapter.active.value.(lastArrival := now);
      ExpireGap(cfg, s, now, force).failure != Some(ReorderWindowExceeded)
  {
    ReachableIsConsistent(cfg, w);
    var s := w.adapter.active.value;
    BufferedInWindow(cfg, s, w.ledger);
    WindowBoundsSize(s, cfg.maxReorder);
    RestingFrame(cfg, s, s.(lastArrival := now), w.ledger);
    ExpirySettles(cfg, s.(lastArrival := now), w.ledger, now, force);
  }

  lemma {:induction false} BufferedInWindow(cfg: Config, s: Source, g: Ledger)
    requires WindowOk(cfg, s, g) && BufferOk(s, g) && s.expectedSeq !in s.buffer
    ensures forall k :: k in s.buffer ==> 1 <= Distance(k, s.expectedSeq) <= cfg.maxReorder
  {
    forall k | k in s.buffer ensures 1 <= Distance(k, s.expectedSeq) <= cfg.maxReorder {
      assert FromLedger(s, g, k);
    }
  }

  lemma {:induction false} WindowBoundsSize(s: Source, width: nat)
    requires forall k :: k in s.buffer ==> 1 <= Distance(k, s.expectedSeq) <= width
    ensures |s.buffer| <= width
  {
    var distances := set k | k in s.buffer.Keys :: Distance(k, s.expectedSeq) as int;
    SameCardinality(s.buffer.Keys, s.expectedSeq);
    UpTo(distances, width);
  }

  lemma {:induction false} SameCardinality(keys: set<Seq16>, expected: Seq16)
    ensures |(set k | k in keys :: Distance(k, expected) as int)| == |keys|
    decreases |keys|
  {
    var image := set k | k in keys :: Distance(k, expected) as int;
    if keys == {} {
      assert image == {};
    } else {
      var key: Seq16 :| key in keys;
      var rest := keys - {key};
      SameCardinality(rest, expected);
      var restImage := set k | k in rest :: Distance(k, expected) as int;
      assert image == restImage + {Distance(key, expected) as int};
      if Distance(key, expected) as int in restImage {
        var other: Seq16 :| other in rest && Distance(other, expected) as int == Distance(key, expected) as int;
        SameDistance(other, key, expected);
      }
    }
  }

  lemma {:induction false} SameDistance(a: Seq16, b: Seq16, expected: Seq16)
    requires Distance(a, expected) == Distance(b, expected)
    ensures a == b
  {
    assert (expected + Distance(a, expected)) % SEQUENCE_MODULUS == a;
  }

  lemma {:induction false} UpTo(xs: set<int>, width: nat)
    requires forall x :: x in xs ==> 1 <= x <= width
    ensures |xs| <= width
    decreases width
  {
    if width == 0 {
      forall x: int ensures x !in xs {
      }
      assert xs == {};
    } else {
      UpTo(xs - {width}, width - 1);
    }
  }

  /**
    Conservation and clock. Output bytes account for every decoded sample and every skipped
    position, and both wrapping counters are those of the absolute position.
   */
  lemma {:induction false} BytesAndClockAreConserved(cfg: Config, w: World)
    requires Reachable(cfg, w) && Streaming(w)
    ensures var s := w.adapter.active.value;
      var spp := s.start.format.samplesPerPacket;
      && |s.pcm| + 2 * s.emittedSamples == 4 * (s.decodedSamples + s.missingCount * spp)
      && s.expectedSeq == (s.start.initialSeq + Position(s)) % SEQUENCE_MODULUS
      && s.expectedTs == (s.start.initialTs + Position(s) * spp) % TIMESTAMP_MODULUS
      && s.decodedSamples == (|w.ledger.accepted| - |s.buffer|) * spp
      && s.missingCount == Position(s) - (|w.ledger.accepted| - |s.buffer|)
  {
    hide Render;
    hide Stream;
    hide FullChunks;
    hide SlotOk;
    hide SeqAt;
    hide TsAt;
    hide Aged;
    hide Genuine;
    hide HistoryFits;
    hide BufferOk;
    ReachableIsConsistent(cfg, w);
    SourceConserved(cfg, w.adapter.active.value, w.ledger);
  }

  lemma {:induction false} PositionSplits(s: Source)
    ensures s.missingCount == Position(s) - (s.acceptedCount - |s.buffer|)
  {
  }

  lemma {:induction false} SourceConserved(cfg: Config, s: Source, g: Ledger)
    requires WindowOk(cfg, s, g) && AudioOk(s, g) && ClockOk(s, g)
    ensures var spp := s.start.format.samplesPerPacket;
      && |s.pcm| + 2 * s.emittedSamples == 4 * (s.decodedSamples + s.missingCount * spp)
      && s.expectedSeq == (s.start.initialSeq + Position(s)) % SEQUENCE_MODULUS
      && s.expectedTs == (s.start.initialTs + Position(s) * spp) % TIMESTAMP_MODULUS
      && s.decodedSamples == (|g.accepted| - |s.buffer|) * spp
      && s.missingCount == Position(s) - (|g.accepted| - |s.buffer|)
  {
    hide Render;
    hide Stream;
    hide FullChunks;
    hide SlotOk;
    hide Position;
    hide SeqAt;
    hide TsAt;
    PositionSplits(s);
    SeqAtClosed(s.start, Position(s));
    TsAtClosed(s.start, Position(s));
    BytesConserved(cfg, s, g);
  }

  lemma {:induction false} BytesConserved(cfg: Config, s: Source, g: Ledger)
    requires WindowOk(cfg, s, g) && AudioOk(s, g)
    ensures |s.pcm| + 2 * s.emittedSamples == 4 * (s.decodedSamples + s.missingCount * s.start.format.samplesPerPacket)
  {
    hide Render;
    hide Stream;
    var spp := s.start.format.samplesPerPacket;
    RenderLength(g.accepted, Position(s), spp);
    FullChunksLength(Log(s, g));
    Distribute(Played(s), s.missingCount, spp);
  }

  lemma {:induction false} Distribute(x: int, y: int, factor: int)
    ensures factor * (x + y) == x * factor + y * factor
  {
  }

  // ----- Duplicates -----

  /**
    No false duplicate. Within the numeric bound, a well-formed packet for a position of the
    window that was never accepted is not taken for a duplicate, however far the run has wrapped.
   */
  lemma {:induction false} UnseenPacketIsNeverADuplicate(cfg: Config, w: World, p: Packet)
    requires Reachable(cfg, w) && Streaming(w) && HistoryFits(cfg)
    requires PacketFault(cfg, w.adapter.active.value, p).None?
    requires Distance(p.seq16, w.adapter.active.value.expectedSeq) <= cfg.maxReorder
    requires Landing(w.adapter.active.value, p) !in w.ledger.accepted
    ensures AcceptPacket(w.adapter, Some(p)).1.reason !in {ExactDuplicate, ConflictingDuplicate}
  {
    ReachableIsConsistent(cfg, w);
    UnseenNumberIsUnknown(cfg, w.adapter.active.value, w.ledger, p);
    AnswerWhenUnknown(w.adapter, p);
  }

  lemma {:induction false} UnseenNumberIsUnknown(cfg: Config, s: Source, g: Ledger, p: Packet)
    requires cfg.Valid() && HistoryFits(cfg) && Resting(cfg, s, g)
    requires Distance(p.seq16, s.expectedSeq) <= cfg.maxReorder && Landing(s, p) !in g.accepted
    ensures Known(s, p.seq16).None?
  {
    hide HistoryFits;
    hide Aged;
    hide Genuine;
    hide AudioOk;
    hide SlotOk;
    LandingNumber(s, g, p);
    UnseenNumberIsNotRemembered(cfg, s, g, Landing(s, p));
    if p.seq16 in s.buffer {
      BufferedWasAccepted(s, g, p.seq16);
    }
  }

  lemma {:induction false} LandingNumber(s: Source, g: Ledger, p: Packet)
    requires ClockOk(s, g)
    ensures Landing(s, p) >= 0 && SeqAt(s.start, Landing(s, p)) == p.seq16
  {
    SeqAtAhead(s.start, Position(s), Distance(p.seq16, s.expectedSeq));
  }

  lemma {:induction false} AnswerWhenUnknown(a: Adapter, p: Packet)
    requires a.active.Some? && PacketFault(a.cfg, a.active.value, p).None? && Known(a.active.value, p.seq16).None?
    ensures AcceptPacket(a, Some(p)).1.reason !in {ExactDuplicate, ConflictingDuplicate}
  {
    var answer := AcceptPacket(a, Some(p)).1;
    if Distance(p.seq16, a.active.value.expectedSeq) <= a.cfg.maxReorder {
      var f := Advance(a.cfg, Admit(a.cfg, a.active.value, p), p.arrival);
    }
  }

  /** An exact-duplicate answer is never wrong: some accepted packet of the source has the same fields. */
  lemma {:induction false} ExactDuplicateWasAccepted(cfg: Config, w: World, p: Packet)
    requires Reachable(cfg, w) && AcceptPacket(w.adapter, Some(p)).1.reason == ExactDuplicate
    ensures exists a :: a in w.ledger.accepted && FingerprintOf(w.ledger.accepted[a]) == FingerprintOf(p)
  {
    ReachableIsConsistent(cfg, w);
    DuplicateIsKnown(w.adapter, p);
    KnownWasAccepted(cfg, w.adapter.active.value, w.ledger, p.seq16);
  }

  lemma {:induction false} KnownWasAccepted(cfg: Config, s: Source, g: Ledger, k: Seq16)
    requires Resting(cfg, s, g) && Known(s, k).Some?
    ensures exists a :: a in g.accepted && FingerprintOf(g.accepted[a]) == Known(s, k).value
  {
    hide Aged;
    hide HistoryFits;
    hide AudioOk;
    hide SlotOk;
    hide Distance;
    if k in s.buffer {
      assert FromLedger(s, g, k);
      SeqAtAhead(s.start, Position(s), Distance(k, s.expectedSeq));
      assert InBuffer(s, g, Position(s) + Distance(k, s.expectedSeq));
    } else {
      var i :| 0 <= i < |s.history| && s.history[i] == (k, Known(s, k).value);
      assert WasAccepted(g, s.history[i]);
    }
  }

  lemma {:induction false} DuplicateIsKnown(a: Adapter, p: Packet)
    requires AcceptPacket(a, Some(p)).1.reason == ExactDuplicate
    ensures a.active.Some? && Known(a.active.value, p.seq16) == Some(FingerprintOf(p))
  {
    var s := a.active.value;
    if PacketFault(a.cfg, s, p).None? && Known(s, p.seq16).None? {
      AnswerWhenUnknown(a, p);
    }
  }

  // ----- Order independence -----

  /** The audio-relevant content of what was accepted is the same in both ledgers. */
  ghost predicate SameAccepted(g: Ledger, h: Ledger) {
    && g.accepted.Keys == h.accepted.Keys
    && forall a :: a in g.accepted ==>
         g.accepted[a].codec == h.accepted[a].codec && g.accepted[a].payload == h.accepted[a].payload
  }

  /** The chunks of a finished source are a function of what was accepted, not of when or in what order. */
  lemma {:induction false} OutputDependsOnlyOnAccepted(s: Source, g: Ledger, t: Source, h: Ledger)
    requires Finished(s, g) && Finished(t, h) && SameAccepted(g, h)
    requires s.start.format.samplesPerPacket == t.start.format.samplesPerPacket
    ensures |Log(s, g)| == |Log(t, h)|
    ensures forall i :: 0 <= i < |Log(s, g)| ==> SameAudio(Log(s, g)[i], Log(t, h)[i])
  {
    assert g.top == h.top;
    RenderExtensional(g.accepted, h.accepted, g.top, s.start.format.samplesPerPacket);
    CutIsUnique(Log(s, g), Log(t, h));
  }
}
