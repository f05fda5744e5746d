/**
  The bounded duplicate history across sequence-number wraparound. An entry whose
  packet has been played out survives fewer than `historyLimit` later acceptances,
  and each acceptance moves the newest position by at most one window, so within
  the numeric bound below a remembered number can never be met again by a new packet.
  Without a jitter wait every acceptance plays out the whole buffer, and a little more fits.
 */
module RtpHistory {
  import opened Common
  import opened RtpModel
  import opened RtpTimeline
  import opened RtpInvariant

  /** The bound that relates the history limit and the reorder window to 2^16. */
  predicate Fits(limit: nat, window: nat, jitter: real) {
    if jitter > 0.0 then (limit + 1) * (window + 1) <= SEQUENCE_MODULUS
    else limit * (window + 1) < SEQUENCE_MODULUS
  }

  ghost predicate HistoryFits(cfg: Config) {
    Fits(cfg.historyLimit, cfg.maxReorder, cfg.maxJitterWait)
  }

  /** Nothing is held back: what is left behind when there is no jitter wait. */
  ghost predicate Prompt(s: Source) {
    s.buffer.Keys == {} && s.gapStarted.None?
  }

  /** History entry `i` remembers the packet accepted at position `b`, recently enough. */
  ghost predicate EntryAt(cfg: Config, s: Source, g: Ledger, i: nat, b: nat)
    requires i < |s.history|
  {
    && b in g.accepted
    && s.history[i] == (g.accepted[b].seq16, FingerprintOf(g.accepted[b]))
    && g.top <= b + Reach(cfg, |s.history| - 1 - i)
  }

  /** How far the newest position can be from an entry with this many newer entries. */
  function Reach(cfg: Config, newer: int): int {
    (if cfg.maxJitterWait > 0.0 then cfg.maxReorder + 1 else 1)
    + (cfg.maxReorder + 1) * Min(newer, cfg.historyLimit - 1)
  }

  ghost predicate Traced(cfg: Config, s: Source, g: Ledger, i: nat)
    requires i < |s.history|
  {
    exists b :: EntryAt(cfg, s, g, i, b)
  }

  ghost predicate Aged(cfg: Config, s: Source, g: Ledger) {
    forall i :: 0 <= i < |s.history| ==> Traced(cfg, s, g, i)
  }

  lemma {:induction false} ReachBounds(cfg: Config, newer: int)
    requires cfg.Valid() && newer >= 0
    ensures Reach(cfg, 0) <= Reach(cfg, newer) <= Reach(cfg, 0) + (cfg.maxReorder + 1) * (cfg.historyLimit - 1)
    ensures Reach(cfg, 0) == if cfg.maxJitterWait > 0.0 then cfg.maxReorder + 1 else 1
  {
    var w, k := cfg.maxReorder + 1, Min(newer, cfg.historyLimit - 1);
    MulMonotone(w, 0, k);
    MulMonotone(w, k, cfg.historyLimit - 1);
  }

  lemma {:induction false} MulMonotone(w: nat, x: int, y: int)
    requires x <= y
    ensures w * x <= w * y
  {
  }

  lemma {:induction false} ReachGrows(cfg: Config, newer: int)
    requires cfg.Valid() && 0 <= newer < cfg.historyLimit - 1
    ensures Reach(cfg, newer + 1) == Reach(cfg, newer) + cfg.maxReorder + 1
  {
    var w := cfg.maxReorder + 1;
    assert w * (newer + 1) == w * newer + w;
  }

  /**
    A surviving entry comes from the untrimmed history; if its packet has left the
    buffer then nothing newer was trimmed and the history is within its limit.
   */
  lemma {:induction false} TrimOrigin(history: seq<(Seq16, Fingerprint)>, buffer: map<Seq16, Packet>, limit: nat,
                                      j: nat)
    returns (i: nat)
    requires j < |TrimHistory(history, buffer, limit)|
    ensures i < |history| && history[i] == TrimHistory(history, buffer, limit)[j]
    ensures history[i].0 !in buffer ==>
      && |history| - i == |TrimHistory(history, buffer, limit)| - j
      && |TrimHistory(history, buffer, limit)| <= limit
    decreases |history|
  {
    var gap := FirstRemovable(history, buffer);
    if |history| <= limit || gap == |history| {
      i := j;
    } else {
      var k := TrimOrigin(history[..gap] + history[gap + 1..], buffer, limit, j);
      i := if k < gap then k else k + 1;
    }
  }

  /** Within the bound, two accepted positions that share a number are the same position. */
  lemma {:induction false} NearbyAreDistinct(start: Start, a: nat, b: nat)
    requires a < b < a + SEQUENCE_MODULUS
    ensures SeqAt(start, a) != SeqAt(start, b)
  {
    SeqAtAhead(start, a, b - a);
  }

  lemma {:induction false} BoundSpread(cfg: Config, newer: int)
    requires cfg.Valid() && HistoryFits(cfg) && newer >= 0
    ensures Reach(cfg, newer) + cfg.maxReorder < SEQUENCE_MODULUS
  {
    ReachBounds(cfg, newer);
    var w, limit := cfg.maxReorder + 1, cfg.historyLimit;
    assert limit * w == w * (limit - 1) + w && (limit + 1) * w == w * (limit - 1) + w + w;
  }

  /** No entry of the history carries the number of a free position in the window. */
  lemma {:induction false} UnseenNumberIsNotRemembered(cfg: Config, s: Source, g: Ledger, a: nat)
    requires cfg.Valid() && HistoryFits(cfg)
    requires WindowOk(cfg, s, g) && Aged(cfg, s, g)
    requires Position(s) <= a <= Position(s) + cfg.maxReorder && a !in g.accepted
    ensures Remembered(s.history, SeqAt(s.start, a)).None?
  {
    var found := Remembered(s.history, SeqAt(s.start, a));
    if found.Some? {
      var i :| 0 <= i < |s.history| && s.history[i] == (SeqAt(s.start, a), found.value);
      assert Traced(cfg, s, g, i);
      var b :| EntryAt(cfg, s, g, i, b);
      BoundSpread(cfg, |s.history| - 1 - i);
      if a < b {
        NearbyAreDistinct(s.start, a, b);
      } else {
        NearbyAreDistinct(s.start, b, a);
      }
    }
  }

  /** A buffered key of a played-out position would need a full wraparound inside the bound. */
  lemma {:induction false} PlayedIsNotBuffered(cfg: Config, s: Source, g: Ledger, b: nat, spread: nat)
    requires WindowOk(cfg, s, g) && BufferOk(s, g) && ClockOk(s, g)
    requires b < Position(s) && g.top <= b + spread && spread < SEQUENCE_MODULUS
    ensures SeqAt(s.start, b) !in s.buffer
  {
    var key := SeqAt(s.start, b);
    if key in s.buffer {
      assert FromLedger(s, g, key);
      var a := Position(s) + Distance(key, s.expectedSeq);
      SeqAtAhead(s.start, Position(s), Distance(key, s.expectedSeq));
      NearbyAreDistinct(s.start, b, a);
    }
  }

  /** Once its packet has left the buffer, an older entry is neither buffered nor the packet being admitted. */
  lemma {:induction false} OlderIsRemovable(cfg: Config, s: Source, g: Ledger, p: Packet, i: nat, b: nat)
    requires cfg.Valid() && HistoryFits(cfg) && WindowOk(cfg, s, g) && BufferOk(s, g) && ClockOk(s, g)
    requires p.seq16 !in s.buffer && Distance(p.seq16, s.expectedSeq) <= cfg.maxReorder
    requires b < Position(s) && i < |s.history| && EntryAt(cfg, s, g, i, b)
    ensures s.history[i].0 !in s.buffer[p.seq16 := p]
  {
    var older := |s.history| - 1 - i;
    BoundSpread(cfg, older);
    PlayedIsNotBuffered(cfg, s, g, b, Reach(cfg, older));
    LandsOnFreePosition(s, g, p);
    NearbyAreDistinct(s.start, b, Landing(s, p));
  }

  /** With the buffer empty the expected position is one past the last accepted one. */
  lemma {:induction false} EmptyBufferIsCaughtUp(cfg: Config, s: Source, g: Ledger)
    requires WindowOk(cfg, s, g) && BufferOk(s, g) && s.buffer.Keys == {}
    ensures Position(s) == g.top
  {
    if Position(s) < g.top {
      AcceptedIsBuffered(s, g, g.top - 1);
    }
  }

  /** One more acceptance moves the newest position by at most a window, and the reach grows by one. */
  lemma {:induction false} StillReaches(cfg: Config, top: nat, newTop: nat, b: nat, newer: nat)
    requires cfg.Valid() && newer + 1 < cfg.historyLimit
    requires top <= b + Reach(cfg, newer) && newTop <= top + cfg.maxReorder + 1
    ensures newTop <= b + Reach(cfg, newer + 1)
  {
    ReachGrows(cfg, newer);
  }

  lemma {:induction false} AdmittedEntry(cfg: Config, s: Source, g: Ledger, p: Packet, j: nat) returns (b: nat)
    requires cfg.Valid() && HistoryFits(cfg) && Settled(cfg, s, g) && Aged(cfg, s, g)
    requires cfg.maxJitterWait == 0.0 ==> Prompt(s)
    requires PacketFault(cfg, s, p).None? && p.seq16 !in s.buffer
    requires Distance(p.seq16, s.expectedSeq) <= cfg.maxReorder
    requires Landing(s, p) >= 0 && Landing(s, p) !in g.accepted
    requires j < |Admit(cfg, s, p).history|
    ensures EntryAt(cfg, Admit(cfg, s, p), Recorded(g, Landing(s, p), p), j, b)
  {
    hide TrimHistory;
    hide Remembered;
    hide PacketFault;
    hide Reach;
    hide Distance;
    hide SlotOk;
    hide AudioOk;
    var t, h := Admit(cfg, s, p), Recorded(g, Landing(s, p), p);
    var longer := s.history + [(p.seq16, FingerprintOf(p))];
    var i := TrimOrigin(longer, t.buffer, cfg.historyLimit, j);
    ReachBounds(cfg, |t.history| - 1 - j);
    if cfg.maxJitterWait == 0.0 {
      EmptyBufferIsCaughtUp(cfg, s, g);
    }
    if i == |s.history| {
      b := Landing(s, p);
    } else {
      assert longer[i] == s.history[i];
      assert Traced(cfg, s, g, i);
      b :| EntryAt(cfg, s, g, i, b);
      if b < Position(s) {
        OlderIsRemovable(cfg, s, g, p, i, b);
        StillReaches(cfg, g.top, h.top, b, |s.history| - 1 - i);
      }
    }
  }

  lemma {:induction false} AdmitAged(cfg: Config, s: Source, g: Ledger, p: Packet)
    requires cfg.Valid() && HistoryFits(cfg) && Settled(cfg, s, g) && Aged(cfg, s, g)
    requires cfg.maxJitterWait == 0.0 ==> Prompt(s)
    requires PacketFault(cfg, s, p).None? && p.seq16 !in s.buffer
    requires Distance(p.seq16, s.expectedSeq) <= cfg.maxReorder
    requires Landing(s, p) >= 0 && Landing(s, p) !in g.accepted
    ensures Aged(cfg, Admit(cfg, s, p), Recorded(g, Landing(s, p), p))
  {
    var t, h := Admit(cfg, s, p), Recorded(g, Landing(s, p), p);
    forall j | 0 <= j < |t.history| ensures Traced(cfg, t, h, j) {
      var b := AdmittedEntry(cfg, s, g, p, j);
    }
  }

  /** Playing out and expiring leave every entry as recent as it was. */
  lemma {:induction false} AgedFrame(cfg: Config, s: Source, t: Source, g: Ledger)
    requires Aged(cfg, s, g) && t.history == s.history
    ensures Aged(cfg, t, g)
  {
    forall i | 0 <= i < |t.history| ensures Traced(cfg, t, g, i) {
      assert Traced(cfg, s, g, i);
      var b :| EntryAt(cfg, s, g, i, b);
      assert EntryAt(cfg, t, g, i, b);
    }
  }

  /** Whatever the bound, every entry remembers some accepted packet of this source. */
  ghost predicate Genuine(s: Source, g: Ledger) {
    forall i :: 0 <= i < |s.history| ==> WasAccepted(g, s.history[i])
  }

  ghost predicate WasAccepted(g: Ledger, entry: (Seq16, Fingerprint)) {
    exists b :: b in g.accepted && entry == (g.accepted[b].seq16, FingerprintOf(g.accepted[b]))
  }

  lemma {:induction false} StillAccepted(g: Ledger, position: nat, p: Packet, entry: (Seq16, Fingerprint))
    requires position !in g.accepted && WasAccepted(g, entry)
    ensures WasAccepted(Recorded(g, position, p), entry)
  {
    var b :| b in g.accepted && entry == (g.accepted[b].seq16, FingerprintOf(g.accepted[b]));
    assert b in Recorded(g, position, p).accepted;
  }

  lemma {:induction false} AdmitGenuine(cfg: Config, s: Source, g: Ledger, p: Packet)
    requires Genuine(s, g) && Landing(s, p) >= 0 && Landing(s, p) !in g.accepted
    ensures Genuine(Admit(cfg, s, p), Recorded(g, Landing(s, p), p))
  {
    var t, h := Admit(cfg, s, p), Recorded(g, Landing(s, p), p);
    var longer := s.history + [(p.seq16, FingerprintOf(p))];
    forall j | 0 <= j < |t.history| ensures WasAccepted(h, t.history[j]) {
      var i := TrimOrigin(longer, t.buffer, cfg.historyLimit, j);
      if i == |s.history| {
        assert Landing(s, p) in h.accepted;
      } else {
        StillAccepted(g, Landing(s, p), p, s.history[i]);
      }
    }
  }

  // ----- Without a jitter wait -----

  /** A source in the middle of a call, by the clock `now`: a gap is timed whenever the buffer waits behind one. */
  ghost predicate Hasty(s: Source, now: real) {
    && s.lastArrival <= now
    && (s.gapStarted.Some? ==> s.gapStarted.value <= now)
    && (s.buffer.Keys == {} ==> s.gapStarted.None?)
    && (s.buffer.Keys != {} && s.expectedSeq !in s.buffer ==> s.gapStarted.Some?)
  }

  lemma {:induction false} EmitKeepsTimer(cfg: Config, s: Source)
    ensures var f := EmitCompleteChunks(cfg, s);
      f.s.lastArrival == s.lastArrival && f.s.gapStarted == s.gapStarted && f.s.buffer == s.buffer
      && f.s.expectedSeq == s.expectedSeq
  {
  }

  lemma {:induction false} DrainIsHasty(cfg: Config, s: Source, now: real)
    requires s.lastArrival <= now && (s.gapStarted.Some? ==> s.gapStarted.value <= now)
    ensures var f := DrainContiguous(cfg, s); f.failure.None? ==> Hasty(f.s, now)
    decreases |s.buffer|
  {
    if s.expectedSeq in s.buffer {
      var played := PlayExpected(cfg, s);
      if played.failure.None? {
        EmitKeepsTimer(cfg, Consume(s));
        DrainIsHasty(cfg, played.s, now);
      }
    }
  }

  /** With no jitter wait an expiry plays out everything. */
  lemma {:induction false} ExpiryIsPrompt(cfg: Config, s: Source, now: real)
    requires cfg.maxJitterWait == 0.0 && Hasty(s, now)
    ensures var f := ExpireGap(cfg, s, now, false); f.failure.None? ==> Prompt(f.s)
    decreases |s.buffer|, if s.expectedSeq in s.buffer then 0 else 1
  {
    if s.buffer.Keys == {} {
    } else if s.expectedSeq in s.buffer {
      DrainIsHasty(cfg, s, now);
      var drained := DrainContiguous(cfg, s);
      if drained.failure.None? {
        ExpiryIsPrompt(cfg, drained.s, now);
      }
    } else {
      var missing := NearestDistance(s.buffer, s.expectedSeq, 0);
      if 0 < missing <= cfg.maxReorder {
        var emitted := EmitCompleteChunks(cfg, SkipMissing(s, missing));
        EmitKeepsTimer(cfg, SkipMissing(s, missing));
        if emitted.failure.None? {
          ExpiryIsPrompt(cfg, emitted.s.(gapStarted := Some(now)), now);
        }
      }
    }
  }
}
