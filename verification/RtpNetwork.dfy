/**
  What a network has to do for nothing to be lost, stated of its deliveries alone: it
  overtakes by at most the reorder window, no stretch of disorder lasts the jitter wait,
  and the queue is read before it is full. A receiver's state is nowhere in the condition.
 */
module RtpNetwork {
  import opened Common
  import opened G711
  import opened RtpModel
  import opened RtpTimeline
  import opened RtpInvariant
  import opened RtpHistory
  import opened RtpRuns
  import opened RtpTheorems
  import opened RtpDelivery

  // ----- The condition -----

  function Delivered(events: seq<Event>): set<nat> {
    if events == [] then {}
    else
      var e := events[|events| - 1];
      Delivered(events[..|events| - 1]) + (if e.Deliver? then {e.k} else {})
  }

  /** How many of the first `n` packets have come without a gap before them. */
  function Front(delivered: set<nat>, n: nat): (front: nat)
    ensures front <= n
    ensures forall j :: 0 <= j < front ==> j in delivered
    ensures front < n ==> front !in delivered
  {
    if n == 0 then 0
    else
      var f := Front(delivered, n - 1);
      if f == n - 1 && n - 1 in delivered then n else f
  }

  /** Some packet has overtaken another that is still missing. */
  predicate Disordered(delivered: set<nat>, n: nat) {
    exists k :: k in delivered && Front(delivered, n) < k
  }

  function LastTime(start: Start, events: seq<Event>): real {
    if events == [] then start.arrival
    else match events[|events| - 1]
      case Deliver(_, arrival, _) => arrival
      case Tick(now) => now
      case Read(_) => LastTime(start, events[..|events| - 1])
  }

  /** When the present stretch of disorder began. */
  function Since(start: Start, n: nat, events: seq<Event>): Option<real> {
    if events == [] || !Disordered(Delivered(events), n) then None
    else
      var before := Since(start, n, events[..|events| - 1]);
      if before.Some? then before else Some(LastTime(start, events))
  }

  /** The whole chunks in this many packets. */
  function ChunksIn(start: Start, packets: nat): nat {
    4 * (packets * start.format.samplesPerPacket) / CHUNK_BYTES
  }

  /** The chunks that have been read, if every one was there to be read as soon as its packets had come. */
  function HandedOut(start: Start, n: nat, events: seq<Event>): int {
    if events == [] then 0
    else
      var before := events[..|events| - 1];
      var out := HandedOut(start, n, before);
      match events[|events| - 1]
      case Read(limit) => out + Min(limit, ChunksIn(start, Front(Delivered(before), n)) - out)
      case _ => out
  }

  /** A packet overtakes by at most the window; one that comes again is not older than half the number space. */
  predicate InWindow(cfg: Config, delivered: set<nat>, n: nat, k: nat) {
    && k < n
    && (if k in delivered then Front(delivered, n) <= k + SEQUENCE_MODULUS / 2
        else k <= Front(delivered, n) + cfg.maxReorder)
  }

  predicate Punctual(cfg: Config, start: Start, n: nat, before: seq<Event>, e: Event) {
    var now := before + [e];
    && (e.Deliver? ==> InWindow(cfg, Delivered(before), n, e.k))
    && LastTime(start, before) <= LastTime(start, now)
    && (Since(start, n, now).Some? ==> LastTime(start, now) - Since(start, n, now).value < cfg.maxJitterWait)
    && ChunksIn(start, Front(Delivered(now), n)) <= HandedOut(start, n, now) + cfg.maxOutputChunks
  }

  predicate AllPunctual(cfg: Config, start: Start, n: nat, events: seq<Event>) {
    events == [] ||
    (AllPunctual(cfg, start, n, events[..|events| - 1])
     && Punctual(cfg, start, n, events[..|events| - 1], events[|events| - 1]))
  }

  /** Every packet is of the announced size. */
  predicate WellSized(start: Start, payloads: seq<Bytes>) {
    forall k :: 0 <= k < |payloads| ==> |payloads[k]| == start.format.samplesPerPacket
  }

  // ----- What the receiver then does -----

  ghost predicate FromSender(start: Start, payloads: seq<Bytes>, g: Ledger) {
    forall a :: a in g.accepted ==> a < |payloads| && g.accepted[a].ts == TsAt(start, a)
  }

  /** The receiver stands exactly where the deliveries put it. */
  ghost predicate OnTrack(start: Start, payloads: seq<Bytes>, events: seq<Event>, s: Source, g: Ledger) {
    var d, n := Delivered(events), |payloads|;
    && s.start == start && Position(s) == Front(d, n)
    && g.accepted.Keys == d && FromSender(start, payloads, g)
    && s.gapStarted == Since(start, n, events)
    && s.lastArrival <= LastTime(start, events)
    && |g.drained| == HandedOut(start, n, events)
  }

  lemma {:induction false} FrontIs(delivered: set<nat>, n: nat, front: nat)
    requires front <= n && (forall j :: 0 <= j < front ==> j in delivered) && (front < n ==> front !in delivered)
    ensures Front(delivered, n) == front
  {
  }

  lemma {:induction false} ChunksGrow(start: Start, x: nat, y: nat)
    requires x <= y
    ensures ChunksIn(start, x) <= ChunksIn(start, y)
  {
    var spp := start.format.samplesPerPacket;
    MulMonotone(spp, x, y);
    assert 4 * (x * spp) <= 4 * (y * spp);
  }

  /** The chunks emitted, and those that the PCM buffer will still give, are those of the packets played. */
  lemma {:induction false} ChunksOfPosition(cfg: Config, s: Source, g: Ledger)
    requires WindowOk(cfg, s, g) && AudioOk(s, g)
    ensures |Log(s, g)| + |s.pcm| / CHUNK_BYTES == ChunksIn(s.start, Position(s))
  {
    hide Render;
    hide Stream;
    hide FullChunks;
    hide WindowOk;
    hide Played;
    hide Log;
    BytesConserved(cfg, s, g);
    Distribute(Played(s), s.missingCount, s.start.format.samplesPerPacket);
    WholeChunks(|s.pcm|, |Log(s, g)|, 4 * (Position(s) * s.start.format.samplesPerPacket));
  }

  lemma {:induction false} WholeChunks(rest: nat, chunks: nat, total: int)
    requires rest + CHUNK_BYTES * chunks == total
    ensures chunks + rest / CHUNK_BYTES == total / CHUNK_BYTES
  {
  }

  lemma {:induction false} EmitFits(cfg: Config, s: Source)
    requires |s.queue| + |s.pcm| / CHUNK_BYTES <= cfg.maxOutputChunks
    ensures EmitCompleteChunks(cfg, s).failure.None?
    decreases |s.pcm|
  {
    if |s.pcm| >= CHUNK_BYTES {
      EmitFits(cfg, QueueChunk(cfg, s.(pcm := s.pcm[CHUNK_BYTES..]), s.pcm[..CHUNK_BYTES]).s);
    }
  }

  /** The packet expected next is played: its timestamp is the sender's, and there is room for what it completes. */
  lemma {:induction false} PlayFits(cfg: Config, s: Source, g: Ledger, payloads: seq<Bytes>, front: nat)
    requires cfg.Valid() && Settled(cfg, s, g) && FromSender(s.start, payloads, g)
    requires s.expectedSeq in s.buffer && Position(s) < front
    requires ChunksIn(s.start, front) <= |g.drained| + cfg.maxOutputChunks
    ensures var f := PlayExpected(cfg, s);
      && f.failure.None? && Settled(cfg, f.s, g) && Position(f.s) == Position(s) + 1 && f.s.start == s.start
      && f.s.gapStarted == s.gapStarted && f.s.lastArrival == s.lastArrival && |f.s.buffer| < |s.buffer|
  {
    hide AudioOk;
    hide EmitCompleteChunks;
    assert FromLedger(s, g, s.expectedSeq) && InBuffer(s, g, Position(s));
    ConsumeTracks(cfg, s, g);
    ChunksOfPosition(cfg, Consume(s), g);
    ChunksGrow(s.start, Position(s) + 1, front);
    EmitFits(cfg, Consume(s));
    EmitSettles(cfg, Consume(s), g);
  }

  /** Draining plays on to the first packet that has not come. */
  lemma {:induction false} DrainReaches(cfg: Config, s: Source, g: Ledger, payloads: seq<Bytes>, front: nat)
    requires cfg.Valid() && Settled(cfg, s, g) && FromSender(s.start, payloads, g)
    requires Position(s) <= front && front !in g.accepted
    requires forall j :: Position(s) <= j < front ==> j in g.accepted
    requires ChunksIn(s.start, front) <= |g.drained| + cfg.maxOutputChunks
    ensures var f := DrainContiguous(cfg, s);
      && f.failure.None? && Settled(cfg, f.s, g) && Position(f.s) == front && f.s.start == s.start
      && f.s.expectedSeq !in f.s.buffer && f.s.lastArrival == s.lastArrival
      && f.s.gapStarted == (if f.s.buffer.Keys == {} then None
                            else if s.gapStarted.None? then Some(s.lastArrival) else s.gapStarted)
    decreases |s.buffer|
  {
    hide Settled;
    hide FromSender;
    hide PlayExpected;
    ExpectedIsBuffered(cfg, s, g);
    if s.expectedSeq in s.buffer {
      PlayFits(cfg, s, g, payloads, front);
      DrainReaches(cfg, PlayExpected(cfg, s).s, g, payloads, front);
    } else {
      DrainSettles(cfg, s, g);
    }
  }

  lemma {:induction false} ExpectedIsBuffered(cfg: Config, s: Source, g: Ledger)
    requires Settled(cfg, s, g)
    ensures s.expectedSeq in s.buffer <==> Position(s) in g.accepted
  {
    if Position(s) in g.accepted {
      AcceptedIsBuffered(s, g, Position(s));
    }
    if s.expectedSeq in s.buffer {
      BufferedWasAccepted(s, g, s.expectedSeq);
    }
  }

  /** With the front where the receiver stands, packets wait in the buffer exactly when there is disorder. */
  lemma {:induction false} BufferedIffDisordered(cfg: Config, s: Source, g: Ledger, n: nat)
    requires Settled(cfg, s, g) && s.expectedSeq !in s.buffer && Position(s) == Front(g.accepted.Keys, n)
    ensures s.buffer.Keys == {} <==> !Disordered(g.accepted.Keys, n)
  {
    if s.buffer.Keys != {} {
      var k :| k in s.buffer.Keys && k in s.buffer;
      BufferedWasAccepted(s, g, k);
      ExpectedIsBuffered(cfg, s, g);
      var a := Position(s) + Distance(k, s.expectedSeq);
      assert a in g.accepted.Keys && Front(g.accepted.Keys, n) < a;
    }
    if Disordered(g.accepted.Keys, n) {
      var a :| a in g.accepted.Keys && Front(g.accepted.Keys, n) < a;
      AcceptedIsBuffered(s, g, a);
      assert SeqAt(s.start, a) in s.buffer.Keys;
    }
  }

  /** A stretch of disorder that has not lasted the wait is left alone. */
  lemma {:induction false} StillWaits(cfg: Config, s: Source, now: real)
    requires s.expectedSeq !in s.buffer
    requires s.buffer.Keys == {} || (s.gapStarted.Some? && now - s.gapStarted.value < cfg.maxJitterWait)
    ensures ExpireGap(cfg, s, now, false) == Flow(s, None)
  {
  }

  lemma {:induction false} OneMoreDelivered(before: seq<Event>, e: Event)
    ensures (before + [e])[..|before + [e]| - 1] == before && (before + [e])[|before + [e]| - 1] == e
    ensures Delivered(before + [e]) == Delivered(before) + (if e.Deliver? then {e.k} else {})
  {
  }

  /** Disorder that goes on began when it did; disorder that begins does so now. */
  lemma {:induction false} SinceNext(start: Start, n: nat, before: seq<Event>, e: Event)
    ensures Since(start, n, before + [e])
      == if !Disordered(Delivered(before + [e]), n) then None
         else if Since(start, n, before).Some? then Since(start, n, before) else Some(LastTime(start, before + [e]))
    ensures Delivered(before + [e]) == Delivered(before) ==> Since(start, n, before + [e]) == Since(start, n, before)
  {
    OneMoreDelivered(before, e);
  }

  /** A packet that has not come before is ahead of the front, of the window, and unknown. */
  lemma {:induction false} NewPacketIsTakenIn(cfg: Config, start: Start, payloads: seq<Bytes>, before: seq<Event>,
                                              e: Event, s: Source, g: Ledger)
    requires cfg.Valid() && HistoryFits(cfg) && start.scope == cfg.scope && WellSized(start, payloads)
    requires Resting(cfg, s, g) && OnTrack(start, payloads, before, s, g)
    requires e.Deliver? && Punctual(cfg, start, |payloads|, before, e) && e.k !in Delivered(before)
    ensures var p := Sent(start, payloads, e.k, e.arrival, e.stamp);
      && PacketFault(cfg, s, p).None? && Known(s, p.seq16).None? && p.seq16 !in s.buffer
      && Distance(p.seq16, s.expectedSeq) <= cfg.maxReorder && Landing(s, p) == e.k
  {
    hide Aged;
    hide Genuine;
    hide HistoryFits;
    hide AudioOk;
    hide BufferOk;
    OneMoreDelivered(before, e);
    var p := Sent(start, payloads, e.k, e.arrival, e.stamp);
    SenderNumberIsRecovered(s, g, payloads, e.k, e.arrival, e.stamp);
    UnseenNumberIsUnknown(cfg, s, g, p);
  }

  /** It is played with whatever it makes playable, and no timer runs out. */
  lemma {:induction false} NewPacketKeepsTrack(cfg: Config, start: Start, payloads: seq<Bytes>, before: seq<Event>,
                                               e: Event, s: Source, g: Ledger)
    requires cfg.Valid() && HistoryFits(cfg) && start.scope == cfg.scope && WellSized(start, payloads)
    requires Resting(cfg, s, g) && OnTrack(start, payloads, before, s, g)
    requires e.Deliver? && Punctual(cfg, start, |payloads|, before, e) && e.k !in Delivered(before)
    ensures var p := Sent(start, payloads, e.k, e.arrival, e.stamp);
      var f := Advance(cfg, Admit(cfg, s, p), p.arrival);
      f.failure.None? && OnTrack(start, payloads, before + [e], f.s, Recorded(g, e.k, p))
  {
    hide HistoryFits;
    hide Settled;
    hide FromSender;
    hide DrainContiguous;
    hide ExpireGap;
    hide TrimHistory;
    var n, p := |payloads|, Sent(start, payloads, e.k, e.arrival, e.stamp);
    NewPacketIsTakenIn(cfg, start, payloads, before, e, s, g);
    AdmitTracks(cfg, s, g, p);
    var t, h := Admit(cfg, s, p), Recorded(g, e.k, p);
    AdmittedIsSent(start, payloads, g, e);
    OneMoreDelivered(before, e);
    assert h.accepted.Keys == Delivered(before + [e]);
    AdmitStands(cfg, s, g, p);
    var front := Front(h.accepted.Keys, n);
    FrontGrows(Delivered(before), n, e.k);
    BoundedKeys(payloads, h);
    DrainReaches(cfg, t, h, payloads, front);
    var drained := DrainContiguous(cfg, t).s;
    BufferedIffDisordered(cfg, drained, h, n);
    SinceNext(start, n, before, e);
    StillWaits(cfg, drained, p.arrival);
  }

  lemma {:induction false} AdmitStands(cfg: Config, s: Source, g: Ledger, p: Packet)
    requires p.seq16 !in s.buffer
    ensures var t := Admit(cfg, s, p);
      && Position(t) == Position(s) && t.start == s.start && t.lastArrival == p.arrival
      && (t.gapStarted == s.gapStarted || (s.gapStarted.None? && t.gapStarted == Some(p.arrival)))
  {
    hide TrimHistory;
    assert Admit(cfg, s, p).buffer.Keys == s.buffer.Keys + {p.seq16};
  }

  lemma {:induction false} AdmittedIsSent(start: Start, payloads: seq<Bytes>, g: Ledger, e: Event)
    requires FromSender(start, payloads, g) && e.Deliver? && e.k < |payloads|
    ensures FromSender(start, payloads, Recorded(g, e.k, Sent(start, payloads, e.k, e.arrival, e.stamp)))
  {
  }

  lemma {:induction false} BoundedKeys(payloads: seq<Bytes>, g: Ledger)
    ensures forall start :: FromSender(start, payloads, g) ==> |payloads| !in g.accepted
  {
  }

  lemma {:induction false} FrontGrows(delivered: set<nat>, n: nat, k: nat)
    ensures Front(delivered, n) <= Front(delivered + {k}, n)
  {
    var x, y := Front(delivered, n), Front(delivered + {k}, n);
    assert y < x ==> y in delivered;
  }

  lemma {:induction false} AcceptsNew(a: Adapter, p: Packet)
    requires a.active.Some? && a.cfg.Valid()
    requires PacketFault(a.cfg, a.active.value, p).None? && Known(a.active.value, p.seq16).None?
    requires Distance(p.seq16, a.active.value.expectedSeq) <= a.cfg.maxReorder
    requires Advance(a.cfg, Admit(a.cfg, a.active.value, p), p.arrival).failure.None?
    ensures var (b, answer) := AcceptPacket(a, Some(p));
      && b == a.(active := Some(Advance(a.cfg, Admit(a.cfg, a.active.value, p), p.arrival).s))
      && WasAdmitted(answer)
  {
    hide Advance;
    hide Admit;
    hide PacketFault;
    hide Known;
  }

  /** The receiver stands where it stood; only its counts of what it refused may differ. */
  predicate SameStanding(s: Source, t: Source) {
    t == s.(duplicateCount := t.duplicateCount, rejectedCount := t.rejectedCount, latestRejection := t.latestRejection)
  }

  lemma {:induction false} SameStandingKeepsTrack(start: Start, payloads: seq<Bytes>, events: seq<Event>, s: Source,
                                                  t: Source, g: Ledger)
    requires OnTrack(start, payloads, events, s, g) && SameStanding(s, t)
    ensures OnTrack(start, payloads, events, t, g)
  {
  }

  lemma {:induction false} KnownOrStaleIsRefused(a: Adapter, p: Packet)
    requires a.active.Some?
    requires Known(a.active.value, p.seq16).Some?
      || Distance(p.seq16, a.active.value.expectedSeq) >= SEQUENCE_MODULUS / 2
    ensures var (b, answer) := AcceptPacket(a, Some(p));
      && !WasAdmitted(answer) && b.active.Some? && SameStanding(a.active.value, b.active.value)
  {
    hide Advance;
    hide Admit;
    hide PacketFault;
    hide Known;
    hide Distance;
  }

  /** A packet that comes again is known, or behind; either way it changes nothing. */
  lemma {:induction false} RepeatIsKnown(cfg: Config, start: Start, payloads: seq<Bytes>, before: seq<Event>,
                                         e: Event, s: Source, g: Ledger)
    requires Settled(cfg, s, g) && OnTrack(start, payloads, before, s, g)
    requires e.Deliver? && InWindow(cfg, Delivered(before), |payloads|, e.k) && e.k in Delivered(before)
    ensures var p := Sent(start, payloads, e.k, e.arrival, e.stamp);
      Known(s, p.seq16).Some? || Distance(p.seq16, s.expectedSeq) >= SEQUENCE_MODULUS / 2
  {
    hide AudioOk;
    hide WindowOk;
    hide FromSender;
    if e.k < Position(s) {
      SenderNumberIsRecovered(s, g, payloads, e.k, e.arrival, e.stamp);
    } else {
      AcceptedIsBuffered(s, g, e.k);
    }
  }

  lemma {:induction false} RepeatedDelivery(cfg: Config, start: Start, payloads: seq<Bytes>, before: seq<Event>,
                                            e: Event, w: World)
    requires w.adapter.active.Some? && Settled(cfg, w.adapter.active.value, w.ledger)
    requires OnTrack(start, payloads, before, w.adapter.active.value, w.ledger)
    requires e.Deliver? && Punctual(cfg, start, |payloads|, before, e) && e.k in Delivered(before)
    ensures !Takes(w, start, payloads, e)
    ensures var v := Step(w, OpOf(start, payloads, e));
      v.adapter.active.Some? && OnTrack(start, payloads, before + [e], v.adapter.active.value, v.ledger)
  {
    hide OnTrack;
    hide AcceptPacket;
    hide Settled;
    hide Known;
    hide Landing;
    hide Distance;
    var s, g, p := w.adapter.active.value, w.ledger, Sent(start, payloads, e.k, e.arrival, e.stamp);
    RepeatIsKnown(cfg, start, payloads, before, e, s, g);
    KnownOrStaleIsRefused(w.adapter, p);
    RepeatKeepsTrack(cfg, start, payloads, before, e, s, g);
    SameStandingKeepsTrack(start, payloads, before + [e], s, AcceptPacket(w.adapter, Some(p)).0.active.value, g);
  }

  lemma {:induction false} NewDelivery(cfg: Config, start: Start, payloads: seq<Bytes>, before: seq<Event>,
                                       e: Event, w: World)
    requires cfg.Valid() && HistoryFits(cfg) && start.scope == cfg.scope && WellSized(start, payloads)
    requires w.adapter.cfg == cfg && w.adapter.active.Some? && Resting(cfg, w.adapter.active.value, w.ledger)
    requires OnTrack(start, payloads, before, w.adapter.active.value, w.ledger)
    requires e.Deliver? && Punctual(cfg, start, |payloads|, before, e) && e.k !in Delivered(before)
    ensures Takes(w, start, payloads, e)
    ensures var v := Step(w, OpOf(start, payloads, e));
      v.adapter.active.Some? && OnTrack(start, payloads, before + [e], v.adapter.active.value, v.ledger)
  {
    hide OnTrack;
    hide AcceptPacket;
    hide Resting;
    hide HistoryFits;
    hide Advance;
    hide Admit;
    hide PacketFault;
    hide Known;
    hide Landing;
    hide Distance;
    NewPacketIsTakenIn(cfg, start, payloads, before, e, w.adapter.active.value, w.ledger);
    NewPacketKeepsTrack(cfg, start, payloads, before, e, w.adapter.active.value, w.ledger);
    AcceptsNew(w.adapter, Sent(start, payloads, e.k, e.arrival, e.stamp));
  }

  lemma {:induction false} DeliveryKeepsTrack(cfg: Config, start: Start, payloads: seq<Bytes>, before: seq<Event>,
                                              e: Event, w: World)
    requires HistoryFits(cfg) && start.scope == cfg.scope && WellSized(start, payloads)
    requires Consistent(w) && w.adapter.cfg == cfg && w.adapter.active.Some?
    requires OnTrack(start, payloads, before, w.adapter.active.value, w.ledger)
    requires e.Deliver? && Punctual(cfg, start, |payloads|, before, e)
    ensures Takes(w, start, payloads, e) <==> e.k !in Delivered(before)
    ensures var v := Step(w, OpOf(start, payloads, e));
      v.adapter.active.Some? && OnTrack(start, payloads, before + [e], v.adapter.active.value, v.ledger)
  {
    hide OnTrack;
    hide Consistent;
    hide Resting;
    hide Settled;
    hide Step;
    hide Takes;
    hide Punctual;
    hide WellSized;
    hide HistoryFits;
    RestsSettled(w);
    if e.k in Delivered(before) {
      RepeatedDelivery(cfg, start, payloads, before, e, w);
    } else {
      NewDelivery(cfg, start, payloads, before, e, w);
    }
  }

  lemma {:induction false} RestsSettled(w: World)
    requires Consistent(w) && w.adapter.active.Some?
    ensures w.adapter.cfg.Valid() && Resting(w.adapter.cfg, w.adapter.active.value, w.ledger)
    ensures Settled(w.adapter.cfg, w.adapter.active.value, w.ledger)
    ensures w.adapter.active.value.expectedSeq !in w.adapter.active.value.buffer
  {
  }

  lemma {:induction false} RepeatKeepsTrack(cfg: Config, start: Start, payloads: seq<Bytes>, before: seq<Event>,
                                            e: Event, s: Source, g: Ledger)
    requires OnTrack(start, payloads, before, s, g) && Punctual(cfg, start, |payloads|, before, e)
    requires e.Deliver? && e.k in Delivered(before)
    ensures OnTrack(start, payloads, before + [e], s, g)
  {
    hide FromSender;
    OneMoreDelivered(before, e);
    assert Delivered(before) + {e.k} == Delivered(before);
    SinceNext(start, |payloads|, before, e);
  }

  /** A tick finds no wait run out. */
  lemma {:induction false} TickKeepsTrack(cfg: Config, start: Start, payloads: seq<Bytes>, before: seq<Event>,
                                          e: Event, w: World)
    requires Consistent(w) && w.adapter.cfg == cfg && w.adapter.active.Some?
    requires OnTrack(start, payloads, before, w.adapter.active.value, w.ledger)
    requires e.Tick? && Punctual(cfg, start, |payloads|, before, e)
    ensures var v := Step(w, OpOf(start, payloads, e));
      v.adapter.active.Some? && OnTrack(start, payloads, before + [e], v.adapter.active.value, v.ledger)
  {
    hide Resting;
    hide Finished;
    hide Settled;
    hide FromSender;
    hide ExpireGap;
    RestsSettled(w);
    var s, n := w.adapter.active.value, |payloads|;
    OneMoreDelivered(before, e);
    assert Delivered(before + [e]) == Delivered(before);
    SinceNext(start, n, before, e);
    BufferedIffDisordered(cfg, s, w.ledger, n);
    NotSince(start, n, before);
    StillWaits(cfg, s.(lastArrival := e.now), e.now);
  }

  lemma {:induction false} NotSince(start: Start, n: nat, events: seq<Event>)
    ensures Since(start, n, events).None? <==> !Disordered(Delivered(events), n)
  {
  }

  /** What a read of the active source does. */
  lemma {:induction false} ReadMoves(w: World, limit: nat)
    requires w.adapter.active.Some? && w.adapter.active.value.start.scope == w.adapter.cfg.scope
    ensures var s, g := w.adapter.active.value, w.ledger;
      var v := Step(w, OpDrain(s.start.scope, s.start.generation, limit));
      && v.adapter.active.Some? && v.adapter.active.value == s.(queue := v.adapter.active.value.queue)
      && v.ledger == g.(drained := v.ledger.drained)
      && |v.ledger.drained| == |g.drained| + Min(limit, |s.queue|)
  {
  }

  /** A read takes out what the packets that have come have made. */
  lemma {:induction false} ReadKeepsTrack(cfg: Config, start: Start, payloads: seq<Bytes>, before: seq<Event>,
                                          e: Event, w: World)
    requires Consistent(w) && w.adapter.cfg == cfg && w.adapter.active.Some? && start.scope == cfg.scope
    requires OnTrack(start, payloads, before, w.adapter.active.value, w.ledger)
    requires e.Read?
    ensures var v := Step(w, OpOf(start, payloads, e));
      v.adapter.active.Some? && OnTrack(start, payloads, before + [e], v.adapter.active.value, v.ledger)
  {
    hide Consistent;
    hide Step;
    hide FromSender;
    hide Settled;
    RestsSettled(w);
    var s, g, n := w.adapter.active.value, w.ledger, |payloads|;
    OneMoreDelivered(before, e);
    assert Delivered(before + [e]) == Delivered(before);
    SinceNext(start, n, before, e);
    PcmIsTheRest(cfg, s, g);
    ReadMoves(w, e.limit);
    FromSenderFrame(start, payloads, g, Step(w, OpOf(start, payloads, e)).ledger);
  }

  lemma {:induction false} FromSenderFrame(start: Start, payloads: seq<Bytes>, g: Ledger, h: Ledger)
    requires h.accepted == g.accepted
    ensures FromSender(start, payloads, g) ==> FromSender(start, payloads, h)
  {
  }

  /** A delivery of an orderly network is timely: the receiver stands at the front. */
  lemma {:induction false} PunctualIsTimely(cfg: Config, start: Start, payloads: seq<Bytes>, before: seq<Event>,
                                            e: Event, w: World)
    requires cfg.Valid() && Punctual(cfg, start, |payloads|, before, e) && w.adapter.active.Some?
    requires OnTrack(start, payloads, before, w.adapter.active.value, w.ledger)
    requires WindowOk(cfg, w.adapter.active.value, w.ledger)
    ensures Timely(w, start, payloads, e)
  {
    hide FromSender;
  }

  lemma {:induction false} StartsOnTrack(cfg: Config, start: Start, payloads: seq<Bytes>)
    requires start.scope == cfg.scope
    ensures var w := Step(Initial(cfg), OpStart(start));
      w.adapter.active.Some? && OnTrack(start, payloads, [], w.adapter.active.value, w.ledger)
  {
    FrontIs({}, |payloads|, 0);
  }

  /** One event of an orderly network: timely, taken in if it is a new packet, and the receiver stays on track. */
  lemma {:induction false} EventKeepsTrack(cfg: Config, start: Start, payloads: seq<Bytes>, before: seq<Event>,
                                           e: Event, w: World)
    requires HistoryFits(cfg) && start.scope == cfg.scope && WellSized(start, payloads)
    requires Consistent(w) && w.adapter.cfg == cfg && w.adapter.active.Some?
    requires OnTrack(start, payloads, before, w.adapter.active.value, w.ledger)
    requires Punctual(cfg, start, |payloads|, before, e)
    ensures Timely(w, start, payloads, e)
    ensures Delivered(before) + (if Takes(w, start, payloads, e) then {e.k} else {}) == Delivered(before + [e])
    ensures var v := Step(w, OpOf(start, payloads, e));
      v.adapter.active.Some? && OnTrack(start, payloads, before + [e], v.adapter.active.value, v.ledger)
  {
    hide Consistent;
    hide HistoryFits;
    hide OnTrack;
    hide Step;
    hide Takes;
    hide Timely;
    hide Punctual;
    hide WellSized;
    RestsSettled(w);
    PunctualIsTimely(cfg, start, payloads, before, e, w);
    TakesInRange(w, start, payloads, e);
    OneMoreDelivered(before, e);
    match e
    case Deliver(_, _, _) => DeliveryKeepsTrack(cfg, start, payloads, before, e, w);
    case Tick(_) => TickKeepsTrack(cfg, start, payloads, before, e, w);
    case Read(_) => ReadKeepsTrack(cfg, start, payloads, before, e, w);
  }

  /** Along a punctual run the receiver stands where the deliveries put it, and has taken in all that came. */
  lemma {:induction false} NetworkKeepsTrack(cfg: Config, start: Start, payloads: seq<Bytes>, events: seq<Event>)
    requires cfg.Valid() && HistoryFits(cfg) && start.scope == cfg.scope && WellSized(start, payloads)
    requires AllPunctual(cfg, start, |payloads|, events)
    ensures AllTimely(cfg, start, payloads, events)
    ensures Taken(cfg, start, payloads, events) == Delivered(events)
    ensures var w := After(cfg, start, payloads, events);
      && Consistent(w) && w.adapter.cfg == cfg && w.adapter.active.Some?
      && OnTrack(start, payloads, events, w.adapter.active.value, w.ledger)
  {
    hide Consistent;
    hide HistoryFits;
    hide OnTrack;
    hide Step;
    hide Takes;
    hide Timely;
    hide Punctual;
    hide WellSized;
    hide Delivered;
    if events == [] {
      StartsOnTrack(cfg, start, payloads);
      NoneDelivered();
    } else {
      var before, e := events[..|events| - 1], events[|events| - 1];
      assert before + [e] == events;
      NetworkKeepsTrack(cfg, start, payloads, before);
      EventKeepsTrack(cfg, start, payloads, before, e, After(cfg, start, payloads, before));
    }
    RunIsConsistent(cfg, start, payloads, events);
  }

  lemma {:induction false} NoneDelivered()
    ensures Delivered([]) == {}
  {
  }

  lemma {:induction false} RunIsConsistent(cfg: Config, start: Start, payloads: seq<Bytes>, events: seq<Event>)
    requires cfg.Valid() && start.scope == cfg.scope && AllTimely(cfg, start, payloads, events)
    ensures Consistent(After(cfg, start, payloads, events)) && After(cfg, start, payloads, events).adapter.cfg == cfg
  {
    hide Consistent;
    hide AllTimely;
    DeliveriesAreHeld(cfg, start, payloads, events);
    ReachableIsConsistent(cfg, After(cfg, start, payloads, events));
  }

  // ----- The theorem -----

  /** Every packet came in the end, the call is closed after it, and there is room for what is left. */
  predicate ClosesInOrder(cfg: Config, start: Start, n: nat, events: seq<Event>, control: End) {
    && (forall k :: 0 <= k < n ==> k in Delivered(events))
    && control.scope == cfg.scope && control.generation == start.generation
    && LastTime(start, events) <= control.arrival
    && ChunksIn(start, n) + (if 4 * (n * start.format.samplesPerPacket) % CHUNK_BYTES == 0 then 0 else 1)
       <= HandedOut(start, n, events) + cfg.maxOutputChunks
  }

  /** The END of a call in which everything came completes it. */
  lemma {:induction false} EndCompletes(cfg: Config, start: Start, payloads: seq<Bytes>, events: seq<Event>,
                                        control: End, w: World)
    requires Consistent(w) && w.adapter.cfg == cfg && w.adapter.active.Some?
    requires OnTrack(start, payloads, events, w.adapter.active.value, w.ledger)
    requires ClosesInOrder(cfg, start, |payloads|, events, control)
    ensures EndSource(w.adapter, control).1.status == COMPLETED
  {
    hide Resting;
    hide Finished;
    hide Settled;
    RestsSettled(w);
    var s, g, n := w.adapter.active.value, w.ledger, |payloads|;
    FrontIs(Delivered(events), n, n);
    BufferedIffDisordered(cfg, s, g, n);
    assert s.buffer.Keys == {};
    PcmIsTheRest(cfg, s, g);
  }

  lemma {:induction false} PcmIsTheRest(cfg: Config, s: Source, g: Ledger)
    requires Settled(cfg, s, g)
    ensures |s.queue| + |g.drained| == ChunksIn(s.start, Position(s))
    ensures s.pcm == [] <==> 4 * (Position(s) * s.start.format.samplesPerPacket) % CHUNK_BYTES == 0
  {
    hide Render;
    hide Stream;
    hide FullChunks;
    hide WindowOk;
    hide BufferOk;
    hide ClockOk;
    hide Played;
    ChunksOfPosition(cfg, s, g);
    BytesConserved(cfg, s, g);
    Distribute(Played(s), s.missingCount, s.start.format.samplesPerPacket);
    assert |s.pcm| + CHUNK_BYTES * |Log(s, g)| == 4 * (Position(s) * s.start.format.samplesPerPacket);
  }

  /**
    A network that overtakes by at most the reorder window, closes every stretch of disorder within the
    jitter wait and may repeat itself, a reader that keeps the queue from filling, and a history within its
    bound: whatever the order and the timing, the call completes and its output is the plain decoding of
    what was sent.
   */
  lemma {:induction false} OrderlyNetworkLosesNothing(cfg: Config, start: Start, payloads: seq<Bytes>,
                                                      events: seq<Event>, control: End)
    requires cfg.Valid() && HistoryFits(cfg) && start.scope == cfg.scope && WellSized(start, payloads)
    requires AllPunctual(cfg, start, |payloads|, events)
    requires ClosesInOrder(cfg, start, |payloads|, events, control)
    ensures Completes(cfg, start, payloads, events, control)
    ensures Stream(Output(cfg, start, payloads, events, control)) == PlainDecode(start.format.codec, payloads)
  {
    hide Consistent;
    hide HistoryFits;
    hide OnTrack;
    hide WellSized;
    hide AllPunctual;
    hide AllTimely;
    NetworkKeepsTrack(cfg, start, payloads, events);
    EndCompletes(cfg, start, payloads, events, control, After(cfg, start, payloads, events));
    FullDeliveryIsLossless(start, payloads, cfg, events, control);
  }
}
