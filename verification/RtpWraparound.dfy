/**
  The exact bound of the duplicate history. Whatever limit, window and jitter wait: no run ever takes a
  packet it has not seen for a duplicate if they meet the bound, and otherwise some run does. That run
  keeps the packet of position 0 remembered while the newest position goes round to 65536.
 */
module RtpWraparound {
  import opened Common
  import opened G711
  import opened RtpModel
  import opened RtpTimeline
  import opened RtpInvariant
  import opened RtpHistory
  import opened RtpRuns
  import opened RtpTheorems

  /** The packet is well formed and lies in the window, at a position where none was accepted. */
  ghost predicate Unseen(cfg: Config, w: World, p: Packet) {
    && Reachable(cfg, w) && Streaming(w)
    && PacketFault(cfg, w.adapter.active.value, p).None?
    && Distance(p.seq16, w.adapter.active.value.expectedSeq) <= cfg.maxReorder
    && Landing(w.adapter.active.value, p) !in w.ledger.accepted
  }

  /** In no reachable world is an unseen packet answered as a duplicate, exact or conflicting. */
  ghost predicate NoFalseDuplicates(cfg: Config) {
    forall w, p :: Unseen(cfg, w, p) ==>
      AcceptPacket(w.adapter, Some(p)).1.reason !in {ExactDuplicate, ConflictingDuplicate}
  }

  // ----- One long run -----

  /** A queue that can take the audio of a window, whatever the window. */
  const ROOM := 3

  /** The silence of a whole window of one-sample packets fits into an empty queue. */
  predicate Roomy(cfg: Config) {
    4 * (cfg.maxReorder + 1) <= CHUNK_BYTES * cfg.maxOutputChunks
  }

  function ConfigFor(scope: Scope, limit: nat, window: nat, jitter: real): Config {
    Config(scope, window, jitter, ROOM, limit)
  }

  function Origin(scope: Scope): Start {
    Start(scope, 0, 0.0, 0, Format(PCMU, 0, 1), 0, 0, None)
  }

  /** The one-sample packet of an absolute position. */
  function PacketAt(scope: Scope, position: nat, arrival: real): Packet {
    Packet(scope, 0, arrival, 0, AdvanceSeq(0, position), AdvanceTs(0, position), 0, PCMU, [0], None)
  }

  function Remember(p: Packet): (Seq16, Fingerprint) {
    (p.seq16, FingerprintOf(p))
  }

  /** What is remembered of the packet of position 0. */
  function First(scope: Scope): (Seq16, Fingerprint) {
    Remember(PacketAt(scope, 0, 0.0))
  }

  /** A source that stands at a position, with this buffer, history, gap timer, clock and number of chunks read. */
  ghost predicate Stands(s: Source, scope: Scope, position: nat, buffer: map<Seq16, Packet>,
                         history: seq<(Seq16, Fingerprint)>, gap: Option<real>, clock: real, read: nat) {
    && s.start == Origin(scope) && position <= SEQUENCE_MODULUS
    && s.expectedSeq == AdvanceSeq(0, position) && s.expectedTs == position
    && s.buffer == buffer && s.history == history && s.gapStarted == gap && s.lastArrival == clock
    && CHUNK_BYTES * (read + |s.queue|) + |s.pcm| == 4 * position
  }

  /** The audio up to this position can be queued, after so many chunks have been read. */
  predicate RoomUpTo(cfg: Config, position: nat, read: nat) {
    4 * position < CHUNK_BYTES * (read + cfg.maxOutputChunks + 1)
  }

  ghost predicate Active(a: Adapter, cfg: Config, position: nat, buffer: map<Seq16, Packet>,
                         history: seq<(Seq16, Fingerprint)>, gap: Option<real>, clock: real, read: nat) {
    a.cfg == cfg && a.active.Some? && Stands(a.active.value, cfg.scope, position, buffer, history, gap, clock, read)
  }

  /** Cutting chunks conserves bytes and cannot overflow a queue with room for them. */
  lemma {:induction false} EmitFits(cfg: Config, s: Source)
    requires CHUNK_BYTES * |s.queue| + |s.pcm| < CHUNK_BYTES * (cfg.maxOutputChunks + 1)
    ensures var f := EmitCompleteChunks(cfg, s);
      f.failure.None? && CHUNK_BYTES * |f.s.queue| + |f.s.pcm| == CHUNK_BYTES * |s.queue| + |s.pcm|
    decreases |s.pcm|
  {
    if |s.pcm| >= CHUNK_BYTES {
      EmitFits(cfg, QueueChunk(cfg, s.(pcm := s.pcm[CHUNK_BYTES..]), s.pcm[..CHUNK_BYTES]).s);
    }
  }

  /** Playing the expected one-sample packet moves the source one position on. */
  lemma {:induction false} PlayOne(cfg: Config, s: Source, position: nat, p: Packet, buffer: map<Seq16, Packet>,
                                   history: seq<(Seq16, Fingerprint)>, gap: Option<real>, clock: real, read: nat)
    requires RoomUpTo(cfg, position + 1, read)
    requires Stands(s, cfg.scope, position, buffer, history, gap, clock, read) && position < SEQUENCE_MODULUS
    requires position in buffer && buffer[position] == p && p.payload == [0] && p.ts == position
    ensures var f := PlayExpected(cfg, s);
      f.failure.None? && Stands(f.s, cfg.scope, position + 1, buffer - {position}, history, gap, clock, read)
  {
    hide AudioBytes;
    hide AdvanceSeq;
    hide EmitCompleteChunks;
    ConsumedOne(cfg, s, position, p, buffer, history, gap, clock, read);
    EmitFits(cfg, Consume(s));
  }

  lemma {:induction false} ConsumedOne(cfg: Config, s: Source, position: nat, p: Packet, buffer: map<Seq16, Packet>,
                                       history: seq<(Seq16, Fingerprint)>, gap: Option<real>, clock: real, read: nat)
    requires Stands(s, cfg.scope, position, buffer, history, gap, clock, read) && position < SEQUENCE_MODULUS
    requires position in buffer && buffer[position] == p && p.payload == [0] && p.ts == position
    ensures s.expectedSeq == position && s.expectedSeq in s.buffer
    ensures Stands(Consume(s), cfg.scope, position + 1, buffer - {position}, history, gap, clock, read)
  {
  }

  /** With the expected packet absent and the gap young, nothing moves. */
  lemma {:induction false} Waits(cfg: Config, s: Source, position: nat, buffer: map<Seq16, Packet>,
                                 history: seq<(Seq16, Fingerprint)>, gap: real, clock: real, read: nat)
    requires Stands(s, cfg.scope, position, buffer, history, Some(gap), clock, read)
    requires buffer.Keys != {} && AdvanceSeq(0, position) !in buffer && clock - gap < cfg.maxJitterWait
    ensures Advance(cfg, s, clock) == Flow(s, None)
  {
  }

  lemma {:induction false} AheadDistance(position: nat, ahead: nat)
    requires position + ahead < SEQUENCE_MODULUS
    ensures AdvanceSeq(0, position + ahead) == position + ahead && AdvanceSeq(0, position) == position
    ensures Distance(position + ahead, position) == ahead
  {
  }

  /** A new packet ahead of the expected one enters an empty buffer and the history. */
  lemma {:induction false} AdmitAhead(a: Adapter, cfg: Config, position: nat, clock: real,
                                      history: seq<(Seq16, Fingerprint)>, before: real, read: nat)
    requires Active(a, cfg, position, map[], history, None, before, read) && before <= clock
    requires cfg.Valid() && position + cfg.maxReorder < SEQUENCE_MODULUS
    requires Remembered(history, position + cfg.maxReorder).None?
    ensures var p, s := PacketAt(cfg.scope, position + cfg.maxReorder, clock), a.active.value;
      var t, f := Admit(cfg, s, p), Advance(cfg, Admit(cfg, s, p), clock);
      && p.seq16 == position + cfg.maxReorder && p.ts == position + cfg.maxReorder
      && Stands(t, cfg.scope, position, map[p.seq16 := p],
                TrimHistory(history + [Remember(p)], map[p.seq16 := p], cfg.historyLimit), Some(clock), clock, read)
      && (f.failure.None? ==> AcceptPacket(a, Some(p)).0 == a.(active := Some(f.s)))
  {
    hide EmitCompleteChunks;
    hide ExpireGap;
    hide DrainContiguous;
    hide TrimHistory;
    var p, s := PacketAt(cfg.scope, position + cfg.maxReorder, clock), a.active.value;
    AheadDistance(position, cfg.maxReorder);
    assert map[][p.seq16 := p] == map[p.seq16 := p];
  }

  lemma {:induction false} OnlyBuffered(buffer: map<Seq16, Packet>, p: Packet, expected: Seq16, ahead: nat)
    requires buffer == map[p.seq16 := p] && Distance(p.seq16, expected) == ahead
    ensures buffer.Keys != {} && NearestDistance(buffer, expected, 0) == ahead
  {
    hide Distance;
    hide AdvanceSeq;
    assert p.seq16 in buffer.Keys;
    DistanceOfAdvance(expected, NearestDistance(buffer, expected, 0));
  }

  /** A lone buffered packet that is expected is played, and the expiry ends with an empty buffer. */
  lemma {:induction false} PlayLast(cfg: Config, u: Source, position: nat, p: Packet,
                                    history: seq<(Seq16, Fingerprint)>, now: real, read: nat)
    requires RoomUpTo(cfg, position + 1, read)
    requires Stands(u, cfg.scope, position, map[p.seq16 := p], history, Some(now), now, read)
    requires position < SEQUENCE_MODULUS && p.seq16 == position && p.ts == position && p.payload == [0]
    ensures var f := ExpireGap(cfg, u, now, false);
      f.failure.None? && Stands(f.s, cfg.scope, position + 1, map[], history, None, now, read)
  {
    PlayOne(cfg, u, position, p, u.buffer, history, Some(now), now, read);
    var v := PlayExpected(cfg, u).s;
    assert u.buffer - {position} == map[];
    assert DrainContiguous(cfg, v) == Flow(v.(gapStarted := None), None);
    assert DrainContiguous(cfg, u) == DrainContiguous(cfg, v);
  }

  /** Once the gap is old enough, the missing numbers are skipped and the buffered packet is played. */
  lemma {:induction false} ExpireOne(cfg: Config, s: Source, position: nat, ahead: nat, p: Packet, gap: real,
                                     history: seq<(Seq16, Fingerprint)>, now: real, read: nat)
    requires RoomUpTo(cfg, position + ahead + 1, read) && 0 < ahead <= cfg.maxReorder
    requires Stands(s, cfg.scope, position, map[p.seq16 := p], history, Some(gap), now, read)
    requires now - gap >= cfg.maxJitterWait && position + ahead < SEQUENCE_MODULUS
    requires p.seq16 == position + ahead && p.ts == position + ahead && p.payload == [0]
    ensures var f := ExpireGap(cfg, s, now, false);
      f.failure.None? && Stands(f.s, cfg.scope, position + ahead + 1, map[], history, None, now, read)
  {
    hide Distance;
    hide SkipMissing;
    hide EmitCompleteChunks;
    hide NearestDistance;
    hide DrainContiguous;
    AheadDistance(position, ahead);
    AheadDistance(position, 0);
    assert p.seq16 in s.buffer.Keys && s.expectedSeq !in s.buffer;
    OnlyBuffered(s.buffer, p, s.expectedSeq, ahead);
    var u := EmitCompleteChunks(cfg, SkipMissing(s, ahead)).s.(gapStarted := Some(now));
    SkippedStands(cfg, s, position, ahead, p, gap, history, now, read);
    PlayLast(cfg, u, position + ahead, p, history, now, read);
  }

  lemma {:induction false} SkippedStands(cfg: Config, s: Source, position: nat, ahead: nat, p: Packet, gap: real,
                                         history: seq<(Seq16, Fingerprint)>, now: real, read: nat)
    requires RoomUpTo(cfg, position + ahead, read) && position + ahead < SEQUENCE_MODULUS
    requires Stands(s, cfg.scope, position, map[p.seq16 := p], history, Some(gap), now, read)
    ensures EmitCompleteChunks(cfg, SkipMissing(s, ahead)).failure.None?
    ensures var u := EmitCompleteChunks(cfg, SkipMissing(s, ahead)).s.(gapStarted := Some(now));
      Stands(u, cfg.scope, position + ahead, map[p.seq16 := p], history, Some(now), now, read)
  {
    AheadDistance(position, ahead);
    EmitFits(cfg, SkipMissing(s, ahead));
  }

  // ----- Once round -----

  /** A reachable world that stands at a position with nothing buffered and everything read. */
  ghost predicate At(w: World, cfg: Config, position: nat, history: seq<(Seq16, Fingerprint)>, clock: real) {
    && Reachable(cfg, w)
    && Active(w.adapter, cfg, position, map[], history, None, clock, |w.ledger.drained|)
    && w.adapter.active.value.queue == []
  }

  /** From there the audio of one more window fits. */
  lemma {:induction false} RoomForRound(w: World, cfg: Config, position: nat, history: seq<(Seq16, Fingerprint)>,
                                        clock: real)
    requires Roomy(cfg) && At(w, cfg, position, history, clock)
    ensures RoomUpTo(cfg, position + cfg.maxReorder + 1, |w.ledger.drained|)
  {
    hide Reachable;
    ReachableIsConsistent(cfg, w);
    RestingIsCut(w);
  }

  lemma {:induction false} RestingIsCut(w: World)
    requires Consistent(w) && w.adapter.active.Some?
    ensures |w.adapter.active.value.pcm| < CHUNK_BYTES
  {
  }

  /** The reader takes everything that is queued. */
  lemma {:induction false} ReadAll(w: World, cfg: Config, position: nat, history: seq<(Seq16, Fingerprint)>,
                                   clock: real) returns (v: World)
    requires Reachable(cfg, w)
    requires Active(w.adapter, cfg, position, map[], history, None, clock, |w.ledger.drained|)
    ensures At(v, cfg, position, history, clock)
  {
    var all := |w.adapter.active.value.queue| + 1;
    StepIsReachable(cfg, w, OpDrain(cfg.scope, 0, all));
    v := Step(w, OpDrain(cfg.scope, 0, all));
  }

  /** The first packet is remembered behind `newer` later ones; every remembered number is of a passed position. */
  ghost predicate Carries(history: seq<(Seq16, Fingerprint)>, scope: Scope, limit: nat, newer: nat, position: nat) {
    && newer < |history| <= limit && history[|history| - 1 - newer] == First(scope)
    && (forall e :: e in history ==> e.0 < position && (e.0 == 0 ==> e == First(scope)))
  }

  lemma {:induction false} NotRemembered(history: seq<(Seq16, Fingerprint)>, number: Seq16)
    requires forall e :: e in history ==> e.0 != number
    ensures Remembered(history, number).None?
  {
    var found := Remembered(history, number);
  }

  /** One more number in the history drops at most the oldest, which is not yet the first packet's. */
  lemma {:induction false} StillCarries(history: seq<(Seq16, Fingerprint)>, scope: Scope, limit: nat, newer: nat,
                                        position: nat, p: Packet)
    requires Carries(history, scope, limit, newer, position) && newer + 2 <= limit
    requires p.seq16 >= position > 0
    ensures Carries(TrimHistory(history + [Remember(p)], map[p.seq16 := p], limit), scope, limit, newer + 1,
                    p.seq16 + 1)
  {
    hide Remember;
    hide First;
    hide TrimHistory;
    var longer := history + [Remember(p)];
    Remembering(p);
    if |longer| > limit {
      assert history[0] in history;
      DropsOldest(longer, map[p.seq16 := p], limit);
    } else {
      KeepsAll(longer, map[p.seq16 := p], limit);
    }
  }

  lemma {:induction false} Remembering(p: Packet)
    ensures Remember(p).0 == p.seq16
  {
  }

  lemma {:induction false} KeepsAll(history: seq<(Seq16, Fingerprint)>, buffer: map<Seq16, Packet>, limit: nat)
    requires |history| <= limit
    ensures TrimHistory(history, buffer, limit) == history
  {
  }

  lemma {:induction false} DropsOldest(history: seq<(Seq16, Fingerprint)>, buffer: map<Seq16, Packet>, limit: nat)
    requires |history| == limit + 1 && history[0].0 !in buffer
    ensures TrimHistory(history, buffer, limit) == history[1..]
  {
    assert FirstRemovable(history, buffer) == 0;
    assert history[..0] + history[1..] == history[1..];
    KeepsAll(history[1..], buffer, limit);
  }

  /** The source once a packet a whole window ahead is admitted, and the history that carries on. */
  ghost predicate Taking(w: World, cfg: Config, position: nat, p: Packet, t: Source, longer: seq<(Seq16, Fingerprint)>,
                         clock: real, read: nat) {
    && w.adapter.active.Some? && t == Admit(cfg, w.adapter.active.value, p)
    && p.seq16 == position + cfg.maxReorder < SEQUENCE_MODULUS && p.ts == p.seq16 && p.payload == [0]
    && Stands(t, cfg.scope, position, map[p.seq16 := p], longer, Some(clock), clock, read)
    && (Advance(cfg, t, clock).failure.None? ==>
          AcceptPacket(w.adapter, Some(p)).0 == w.adapter.(active := Some(Advance(cfg, t, clock).s)))
  }

  lemma {:induction false} TakeAhead(w: World, cfg: Config, position: nat, history: seq<(Seq16, Fingerprint)>,
                                     clock: real, newer: nat)
    returns (p: Packet, t: Source, longer: seq<(Seq16, Fingerprint)>)
    requires cfg.Valid() && At(w, cfg, position, history, clock)
    requires position + cfg.maxReorder < SEQUENCE_MODULUS && position > 0
    requires Carries(history, cfg.scope, cfg.historyLimit, newer, position) && newer + 2 <= cfg.historyLimit
    ensures Taking(w, cfg, position, p, t, longer, clock, |w.ledger.drained|)
    ensures Carries(longer, cfg.scope, cfg.historyLimit, newer + 1, position + cfg.maxReorder + 1)
  {
    hide Reachable;
    hide TrimHistory;
    hide Admit;
    hide Advance;
    hide AcceptPacket;
    var number := position + cfg.maxReorder;
    p := PacketAt(cfg.scope, number, clock);
    NotRemembered(history, number);
    AdmitAhead(w.adapter, cfg, position, clock, history, clock, |w.ledger.drained|);
    t := Admit(cfg, w.adapter.active.value, p);
    longer := TrimHistory(history + [Remember(p)], map[p.seq16 := p], cfg.historyLimit);
    StillCarries(history, cfg.scope, cfg.historyLimit, newer, position, p);
  }

  /** Without a jitter wait the packet is played at once. */
  lemma {:induction false} PlayAtOnce(w: World, cfg: Config, position: nat, p: Packet, t: Source,
                                      longer: seq<(Seq16, Fingerprint)>, clock: real, read: nat)
    requires cfg.Valid() && RoomUpTo(cfg, position + cfg.maxReorder + 1, read) && cfg.maxJitterWait == 0.0
    requires Taking(w, cfg, position, p, t, longer, clock, read) && w.adapter.cfg == cfg
    ensures Active(AcceptPacket(w.adapter, Some(p)).0, cfg, p.seq16 + 1, map[], longer, None, clock, read)
  {
    hide AcceptPacket;
    hide Admit;
    hide ExpireGap;
    hide DrainContiguous;
    NotYetExpected(t, cfg, position, p, longer, clock, read);
    ExpireOne(cfg, t, position, cfg.maxReorder, p, clock, longer, clock, read);
  }

  /** With one, it waits until a tick finds the gap old enough. */
  lemma {:induction false} PlayAfterTick(w: World, cfg: Config, position: nat, p: Packet, t: Source,
                                         longer: seq<(Seq16, Fingerprint)>, clock: real, read: nat)
    requires cfg.Valid() && RoomUpTo(cfg, position + cfg.maxReorder + 1, read) && cfg.maxJitterWait > 0.0
    requires Taking(w, cfg, position, p, t, longer, clock, read) && w.adapter.cfg == cfg
    ensures Active(AdvanceClock(AcceptPacket(w.adapter, Some(p)).0, Some(clock + cfg.maxJitterWait)).0,
                   cfg, p.seq16 + 1, map[], longer, None, clock + cfg.maxJitterWait, read)
  {
    hide AcceptPacket;
    hide AdvanceClock;
    hide Admit;
    hide ExpireGap;
    hide DrainContiguous;
    hide Advance;
    hide AdvanceSeq;
    var now, a := clock + cfg.maxJitterWait, AcceptPacket(w.adapter, Some(p)).0;
    NotYetExpected(t, cfg, position, p, longer, clock, read);
    Waits(cfg, t, position, map[p.seq16 := p], longer, clock, clock, read);
    assert a == w.adapter.(active := Some(t));
    Ticks(a, t, now);
    ExpireOne(cfg, t.(lastArrival := now), position, cfg.maxReorder, p, clock, longer, now, read);
  }

  lemma {:induction false} Ticks(a: Adapter, s: Source, now: real)
    requires a.active == Some(s) && s.lastArrival <= now
    ensures var f := ExpireGap(a.cfg, s.(lastArrival := now), now, false);
      f.failure.None? ==> AdvanceClock(a, Some(now)).0 == a.(active := Some(f.s))
  {
    hide ExpireGap;
  }

  /** One round: a packet a whole window ahead, and a tick if it has to wait. */
  lemma {:induction false} OneRound(w: World, cfg: Config, position: nat, history: seq<(Seq16, Fingerprint)>,
                                    clock: real, newer: nat)
    returns (v: World, longer: seq<(Seq16, Fingerprint)>)
    requires cfg.Valid() && Roomy(cfg) && At(w, cfg, position, history, clock)
    requires position + cfg.maxReorder < SEQUENCE_MODULUS && position > 0
    requires Carries(history, cfg.scope, cfg.historyLimit, newer, position) && newer + 2 <= cfg.historyLimit
    ensures At(v, cfg, position + cfg.maxReorder + 1, longer, clock + cfg.maxJitterWait)
    ensures Carries(longer, cfg.scope, cfg.historyLimit, newer + 1, position + cfg.maxReorder + 1)
  {
    hide Reachable;
    hide AcceptPacket;
    hide AdvanceClock;
    hide Carries;
    var p, t;
    RoomForRound(w, cfg, position, history, clock);
    p, t, longer := TakeAhead(w, cfg, position, history, clock, newer);
    StepIsReachable(cfg, w, OpPacket(Some(p)));
    v := Step(w, OpPacket(Some(p)));
    if cfg.maxJitterWait > 0.0 {
      PlayAfterTick(w, cfg, position, p, t, longer, clock, |w.ledger.drained|);
      StepIsReachable(cfg, v, OpAdvance(Some(clock + cfg.maxJitterWait)));
      v := Step(v, OpAdvance(Some(clock + cfg.maxJitterWait)));
    } else {
      PlayAtOnce(w, cfg, position, p, t, longer, clock, |w.ledger.drained|);
    }
    v := ReadAll(v, cfg, position + cfg.maxReorder + 1, longer, clock + cfg.maxJitterWait);
  }

  lemma {:induction false} NotYetExpected(t: Source, cfg: Config, position: nat, p: Packet,
                                          history: seq<(Seq16, Fingerprint)>, clock: real, read: nat)
    requires Stands(t, cfg.scope, position, map[p.seq16 := p], history, Some(clock), clock, read)
    requires position < p.seq16
    ensures p.seq16 in t.buffer.Keys && AdvanceSeq(0, position) !in map[p.seq16 := p]
    ensures DrainContiguous(cfg, t) == Flow(t, None)
  {
  }

  /** Round after round, until the next would pass position 65536; the first packet is remembered all along. */
  lemma {:induction false} GoRound(w: World, cfg: Config, start: nat, newer: nat, history: seq<(Seq16, Fingerprint)>,
                                   clock: real)
    returns (v: World, end: nat, longer: seq<(Seq16, Fingerprint)>, later: real)
    requires cfg.Valid() && Roomy(cfg) && !HistoryFits(cfg)
    requires start == if cfg.maxJitterWait > 0.0 then cfg.maxReorder + 1 else 1
    requires At(w, cfg, start + newer * (cfg.maxReorder + 1), history, clock)
    requires Carries(history, cfg.scope, cfg.historyLimit, newer, start + newer * (cfg.maxReorder + 1))
    ensures At(v, cfg, end, longer, later) && end <= SEQUENCE_MODULUS <= end + cfg.maxReorder
    ensures First(cfg.scope) in longer && forall e :: e in longer && e.0 == 0 ==> e == First(cfg.scope)
    decreases SEQUENCE_MODULUS - newer * (cfg.maxReorder + 1)
  {
    hide At;
    var width := cfg.maxReorder + 1;
    var position := start + newer * width;
    assert newer * width >= 0;
    PositionInRange(w, cfg, position, history, clock);
    if position + width <= SEQUENCE_MODULUS {
      RoomForOneMore(cfg, start, newer);
      var u, more := OneRound(w, cfg, position, history, clock, newer);
      assert (newer + 1) * width == newer * width + width;
      v, end, longer, later := GoRound(u, cfg, start, newer + 1, more, clock + cfg.maxJitterWait);
    } else {
      v, end, longer, later := w, position, history, clock;
    }
  }

  lemma {:induction false} PositionInRange(w: World, cfg: Config, position: nat, history: seq<(Seq16, Fingerprint)>,
                                           clock: real)
    requires At(w, cfg, position, history, clock)
    ensures position <= SEQUENCE_MODULUS
  {
  }

  /** Beyond the bound the history outlasts every round that stays within the number space. */
  lemma {:induction false} RoomForOneMore(cfg: Config, start: nat, newer: nat)
    requires cfg.Valid() && !HistoryFits(cfg) && start == if cfg.maxJitterWait > 0.0 then cfg.maxReorder + 1 else 1
    requires start + newer * (cfg.maxReorder + 1) + (cfg.maxReorder + 1) <= SEQUENCE_MODULUS
    ensures newer + 2 <= cfg.historyLimit
  {
    var width, limit := cfg.maxReorder + 1, cfg.historyLimit;
    assert (newer + 1) * width == newer * width + width;
    assert (limit + 1) * width == limit * width + width;
    if limit <= newer + 1 {
      MulMonotone(width, limit, newer + 1);
    }
  }

  // ----- The first packets -----

  /** The expected first packet arrives, with an empty buffer or while a later one waits. */
  lemma {:induction false} AcceptFirstAlone(a: Adapter, cfg: Config)
    requires cfg.Valid() && Roomy(cfg) && Active(a, cfg, 0, map[], [], None, 0.0, 0)
    ensures Active(AcceptPacket(a, Some(PacketAt(cfg.scope, 0, 0.0))).0, cfg, 1, map[], [First(cfg.scope)], None, 0.0,
                   0)
  {
    var p, s := PacketAt(cfg.scope, 0, 0.0), a.active.value;
    var t := Admit(cfg, s, p);
    assert map[][p.seq16 := p] == map[p.seq16 := p];
    assert [] + [First(cfg.scope)] == [First(cfg.scope)];
    PlayOne(cfg, t, 0, p, map[p.seq16 := p], [First(cfg.scope)], None, 0.0, 0);
    var u := PlayExpected(cfg, t).s;
    assert map[p.seq16 := p] - {0} == map[];
    assert DrainContiguous(cfg, u) == Flow(u.(gapStarted := None), None);
    assert DrainContiguous(cfg, t) == DrainContiguous(cfg, u);
  }

  /** A later packet comes first, and is buffered. */
  lemma {:induction false} AcceptLater(a: Adapter, cfg: Config)
    requires cfg.Valid() && cfg.maxJitterWait > 0.0 && Active(a, cfg, 0, map[], [], None, 0.0, 0)
    ensures var p := PacketAt(cfg.scope, cfg.maxReorder, 0.0);
      && p.seq16 == cfg.maxReorder && p.ts == cfg.maxReorder
      && Active(AcceptPacket(a, Some(p)).0, cfg, 0, map[p.seq16 := p], [Remember(p)], Some(0.0), 0.0, 0)
  {
    hide ExpireGap;
    hide DrainContiguous;
    hide Admit;
    hide TrimHistory;
    hide Advance;
    var p := PacketAt(cfg.scope, cfg.maxReorder, 0.0);
    AdmitAhead(a, cfg, 0, 0.0, [], 0.0, 0);
    assert [] + [Remember(p)] == [Remember(p)];
    OneIsKept(Remember(p), map[p.seq16 := p], cfg.historyLimit);
    var t := Admit(cfg, a.active.value, p);
    assert p.seq16 in map[p.seq16 := p].Keys;
    Waits(cfg, t, 0, map[p.seq16 := p], [Remember(p)], 0.0, 0.0, 0);
  }

  lemma {:induction false} OneIsKept(e: (Seq16, Fingerprint), buffer: map<Seq16, Packet>, limit: nat)
    requires limit > 0
    ensures TrimHistory([e], buffer, limit) == [e]
  {
  }

  /** The first packet arrives while the later one waits; with a window of one, both are played. */
  lemma {:induction false} AcceptFirst(a: Adapter, cfg: Config, later: Packet)
    requires cfg.Valid() && Roomy(cfg) && cfg.maxJitterWait > 0.0 && cfg.historyLimit > 1
    requires later.seq16 == cfg.maxReorder && later.ts == cfg.maxReorder && later.payload == [0]
    requires Active(a, cfg, 0, map[later.seq16 := later], [Remember(later)], Some(0.0), 0.0, 0)
    ensures var b, history := AcceptPacket(a, Some(PacketAt(cfg.scope, 0, 0.0))).0, [Remember(later), First(cfg.scope)];
      if cfg.maxReorder == 1 then Active(b, cfg, 2, map[], history, None, 0.0, 0)
      else Active(b, cfg, 1, map[later.seq16 := later], history, Some(0.0), 0.0, 0)
  {
    hide AcceptPacket;
    var p, history := PacketAt(cfg.scope, 0, 0.0), [Remember(later), First(cfg.scope)];
    AdmitFirst(a, cfg, later);
    var t := Admit(cfg, a.active.value, p);
    var both := map[later.seq16 := later][p.seq16 := p];
    PlayOne(cfg, t, 0, p, both, history, Some(0.0), 0.0, 0);
    var u := PlayExpected(cfg, t).s;
    assert both - {0} == map[later.seq16 := later];
    assert DrainContiguous(cfg, t) == DrainContiguous(cfg, u);
    if cfg.maxReorder == 1 {
      PlayOne(cfg, u, 1, later, map[later.seq16 := later], history, Some(0.0), 0.0, 0);
      var v := PlayExpected(cfg, u).s;
      assert map[later.seq16 := later] - {1} == map[];
      assert DrainContiguous(cfg, v) == Flow(v.(gapStarted := None), None);
      assert DrainContiguous(cfg, u) == DrainContiguous(cfg, v);
    } else {
      assert later.seq16 in map[later.seq16 := later].Keys;
      assert DrainContiguous(cfg, u) == Flow(u, None);
      Waits(cfg, u, 1, map[later.seq16 := later], history, 0.0, 0.0, 0);
    }
  }

  lemma {:induction false} AdmitFirst(a: Adapter, cfg: Config, later: Packet)
    requires cfg.Valid() && cfg.historyLimit > 1
    requires later.seq16 == cfg.maxReorder
    requires Active(a, cfg, 0, map[later.seq16 := later], [Remember(later)], Some(0.0), 0.0, 0)
    ensures var p := PacketAt(cfg.scope, 0, 0.0);
      var t, f := Admit(cfg, a.active.value, p), Advance(cfg, Admit(cfg, a.active.value, p), 0.0);
      && Stands(t, cfg.scope, 0, map[later.seq16 := later][p.seq16 := p], [Remember(later), First(cfg.scope)],
                Some(0.0), 0.0, 0)
      && (f.failure.None? ==> AcceptPacket(a, Some(p)).0 == a.(active := Some(f.s)))
  {
    hide ExpireGap;
    hide DrainContiguous;
    var p := PacketAt(cfg.scope, 0, 0.0);
    assert [Remember(later)] + [Remember(p)] == [Remember(later), First(cfg.scope)];
    assert Remembered([Remember(later)][1..], p.seq16).None?;
  }

  lemma {:induction false} Started(cfg: Config) returns (w: World)
    requires cfg.Valid()
    ensures At(w, cfg, 0, [], 0.0)
  {
    assert Initial(cfg) == Run(Initial(cfg), []);
    StepIsReachable(cfg, Initial(cfg), OpStart(Origin(cfg.scope)));
    w := Step(Initial(cfg), OpStart(Origin(cfg.scope)));
  }

  /** A tick on an empty buffer only moves the clock. */
  lemma {:induction false} IdleTick(a: Adapter, cfg: Config, position: nat, history: seq<(Seq16, Fingerprint)>,
                                    now: real)
    requires Active(a, cfg, position, map[], history, None, 0.0, 0) && now >= 0.0
    ensures Active(AdvanceClock(a, Some(now)).0, cfg, position, map[], history, None, now, 0)
  {
  }

  /** The run up to the first round: the first packet is played and remembered, behind a later one if packets wait. */
  lemma {:induction false} FirstIsRemembered(cfg: Config)
    returns (w: World, position: nat, history: seq<(Seq16, Fingerprint)>, clock: real)
    requires cfg.Valid() && Roomy(cfg) && !HistoryFits(cfg)
    ensures position == if cfg.maxJitterWait > 0.0 then cfg.maxReorder + 1 else 1
    ensures At(w, cfg, position, history, clock) && Carries(history, cfg.scope, cfg.historyLimit, 0, position)
  {
    hide Reachable;
    hide AcceptPacket;
    hide AdvanceClock;
    w := Started(cfg);
    var first := PacketAt(cfg.scope, 0, 0.0);
    if cfg.maxJitterWait > 0.0 {
      var later := PacketAt(cfg.scope, cfg.maxReorder, 0.0);
      position, history, clock := cfg.maxReorder + 1, [Remember(later), First(cfg.scope)], cfg.maxJitterWait;
      TwoAreKept(cfg);
      StepIsReachable(cfg, w, OpPacket(Some(later)));
      AcceptLater(w.adapter, cfg);
      w := Step(w, OpPacket(Some(later)));
      StepIsReachable(cfg, w, OpPacket(Some(first)));
      AcceptFirst(w.adapter, cfg, later);
      w := Step(w, OpPacket(Some(first)));
      StepIsReachable(cfg, w, OpAdvance(Some(clock)));
      SecondTick(w.adapter, cfg, later, history);
      w := Step(w, OpAdvance(Some(clock)));
    } else {
      position, history, clock := 1, [First(cfg.scope)], 0.0;
      StepIsReachable(cfg, w, OpPacket(Some(first)));
      AcceptFirstAlone(w.adapter, cfg);
      w := Step(w, OpPacket(Some(first)));
    }
    w := ReadAll(w, cfg, position, history, clock);
  }

  lemma {:induction false} TwoAreKept(cfg: Config)
    requires cfg.Valid() && !HistoryFits(cfg) && cfg.maxJitterWait > 0.0
    ensures cfg.historyLimit > 1
  {
  }

  lemma {:induction false} SecondTick(a: Adapter, cfg: Config, later: Packet, history: seq<(Seq16, Fingerprint)>)
    requires cfg.Valid() && Roomy(cfg) && cfg.maxJitterWait > 0.0
    requires later.seq16 == cfg.maxReorder && later.ts == cfg.maxReorder && later.payload == [0]
    requires if cfg.maxReorder == 1 then Active(a, cfg, 2, map[], history, None, 0.0, 0)
             else Active(a, cfg, 1, map[later.seq16 := later], history, Some(0.0), 0.0, 0)
    ensures Active(AdvanceClock(a, Some(cfg.maxJitterWait)).0, cfg, cfg.maxReorder + 1, map[], history, None,
                   cfg.maxJitterWait, 0)
  {
    hide ExpireGap;
    if cfg.maxReorder == 1 {
      IdleTick(a, cfg, 2, history, cfg.maxJitterWait);
    } else {
      ExpireOne(cfg, a.active.value.(lastArrival := cfg.maxJitterWait), 1, cfg.maxReorder - 1, later, 0.0, history,
                cfg.maxJitterWait, 0);
    }
  }

  // ----- The exact bound -----

  /** With nothing buffered, the bytes read and queued give the position away. */
  lemma {:induction false} StandsAtItsPosition(cfg: Config, s: Source, g: Ledger, position: nat,
                                               history: seq<(Seq16, Fingerprint)>, clock: real, read: nat)
    requires WindowOk(cfg, s, g) && AudioOk(s, g) && BufferOk(s, g) && read == |g.drained|
    requires Stands(s, cfg.scope, position, map[], history, None, clock, read)
    ensures Position(s) == position && forall a :: a in g.accepted ==> a < position
  {
    hide Render;
    hide Stream;
    hide FullChunks;
    BytesConserved(cfg, s, g);
    assert |Log(s, g)| == read + |s.queue|;
    EmptyBufferIsCaughtUp(cfg, s, g);
  }

  /** The packet of position 65536 meets the number of position 0, still remembered. */
  lemma {:induction false} WrappedIsConflicting(w: World, cfg: Config, position: nat,
                                                history: seq<(Seq16, Fingerprint)>,
                                                clock: real)
    requires cfg.Valid() && At(w, cfg, position, history, clock)
    requires position <= SEQUENCE_MODULUS <= position + cfg.maxReorder
    requires First(cfg.scope) in history && forall e :: e in history && e.0 == 0 ==> e == First(cfg.scope)
    ensures var p := PacketAt(cfg.scope, SEQUENCE_MODULUS, clock);
      Unseen(cfg, w, p) && AcceptPacket(w.adapter, Some(p)).1 == Acceptance(REJECTED, ConflictingDuplicate)
  {
    hide Reachable;
    hide AcceptPacket;
    hide Consistent;
    hide Position;
    var p := PacketAt(cfg.scope, SEQUENCE_MODULUS, clock);
    ReachableIsConsistent(cfg, w);
    PositionFromWorld(cfg, w, position, history, clock);
    FoundFirst(history, cfg.scope);
    ConflictingAnswer(w.adapter, cfg, position, history, clock, |w.ledger.drained|);
  }

  lemma {:induction false} ConflictingAnswer(a: Adapter, cfg: Config, position: nat, history: seq<(Seq16, Fingerprint)>,
                                             clock: real, read: nat)
    requires cfg.Valid() && Active(a, cfg, position, map[], history, None, clock, read)
    requires position <= SEQUENCE_MODULUS <= position + cfg.maxReorder
    requires Remembered(history, 0) == Some(First(cfg.scope).1)
    ensures var p := PacketAt(cfg.scope, SEQUENCE_MODULUS, clock);
      && PacketFault(cfg, a.active.value, p).None?
      && Distance(p.seq16, a.active.value.expectedSeq) == SEQUENCE_MODULUS - position
      && AcceptPacket(a, Some(p)).1 == Acceptance(REJECTED, ConflictingDuplicate)
  {
    hide Advance;
    hide Admit;
  }

  lemma {:induction false} PositionFromWorld(cfg: Config, w: World, position: nat, history: seq<(Seq16, Fingerprint)>,
                                             clock: real)
    requires Consistent(w) && At(w, cfg, position, history, clock)
    ensures var s := w.adapter.active.value;
      Position(s) == position && forall a :: a in w.ledger.accepted ==> a < position
  {
    hide Reachable;
    StandsAtItsPosition(cfg, w.adapter.active.value, w.ledger, position, history, clock, |w.ledger.drained|);
  }

  lemma {:induction false} FoundFirst(history: seq<(Seq16, Fingerprint)>, scope: Scope)
    requires First(scope) in history && forall e :: e in history && e.0 == 0 ==> e == First(scope)
    ensures Remembered(history, 0) == Some(First(scope).1)
  {
    var found := Remembered(history, 0);
    if found.Some? {
      assert (0, found.value) == First(scope);
    }
  }

  /** Beyond the bound some run of a configuration with that limit, window and wait answers falsely. */
  lemma {:induction false} BeyondTheBoundFails(cfg: Config) returns (w: World, p: Packet)
    requires cfg.Valid() && Roomy(cfg) && !HistoryFits(cfg)
    ensures Unseen(cfg, w, p) && AcceptPacket(w.adapter, Some(p)).1 == Acceptance(REJECTED, ConflictingDuplicate)
  {
    hide At;
    hide Unseen;
    hide AcceptPacket;
    var start, position, history, clock := FirstIsRemembered(cfg);
    assert position + 0 * (cfg.maxReorder + 1) == position;
    var end, longer, later;
    w, end, longer, later := GoRound(start, cfg, position, 0, history, clock);
    WrappedIsConflicting(w, cfg, end, longer, later);
    p := PacketAt(cfg.scope, SEQUENCE_MODULUS, later);
  }

  lemma {:induction false} WithinTheBoundHolds(cfg: Config)
    requires cfg.Valid() && HistoryFits(cfg)
    ensures NoFalseDuplicates(cfg)
  {
    forall w, p | Unseen(cfg, w, p)
      ensures AcceptPacket(w.adapter, Some(p)).1.reason !in {ExactDuplicate, ConflictingDuplicate}
    {
      UnseenPacketIsNeverADuplicate(cfg, w, p);
    }
  }

  /**
    The exact bound, configuration by configuration, for every queue that can take the silence of a window:
    no unseen packet is ever taken for a duplicate exactly when the bound is met.
   */
  lemma {:induction false} HistoryBoundIsExactFor(cfg: Config)
    requires cfg.Valid() && Roomy(cfg)
    ensures NoFalseDuplicates(cfg) <==> HistoryFits(cfg)
  {
    hide NoFalseDuplicates;
    hide HistoryFits;
    if HistoryFits(cfg) {
      WithinTheBoundHolds(cfg);
    } else {
      FailingConfig(cfg);
    }
  }

  /**
    The exact bound for one history limit, window and jitter wait: no configuration with these ever takes an
    unseen packet for a duplicate exactly when (limit + 1) * (window + 1) <= 65536 if packets may wait, and
    exactly when limit * (window + 1) < 65536 if they may not.
   */
  lemma {:induction false} HistoryBoundIsExact(limit: nat, window: nat, jitter: real)
    requires limit > 0 && 0 < window < SEQUENCE_MODULUS / 2 && jitter >= 0.0
    ensures (forall cfg: Config {:trigger NoFalseDuplicates(cfg)} ::
               cfg.Valid() && cfg.historyLimit == limit && cfg.maxReorder == window && cfg.maxJitterWait == jitter
               ==> NoFalseDuplicates(cfg))
      <==> Fits(limit, window, jitter)
  {
    hide NoFalseDuplicates;
    if Fits(limit, window, jitter) {
      forall cfg: Config | cfg.Valid() && cfg.historyLimit == limit && cfg.maxReorder == window
        && cfg.maxJitterWait == jitter
        ensures NoFalseDuplicates(cfg)
      {
        WithinTheBoundHolds(cfg);
      }
    } else {
      var cfg := ConfigFor(Scope("", ""), limit, window, jitter);
      FailingConfig(cfg);
      assert cfg.Valid();
    }
  }

  lemma {:induction false} FailingConfig(cfg: Config)
    requires cfg.Valid() && Roomy(cfg) && !HistoryFits(cfg)
    ensures !NoFalseDuplicates(cfg)
  {
    var w, p := BeyondTheBoundFails(cfg);
  }

  /** The exact bound for a history limit and a window, whatever the jitter wait. */
  lemma {:induction false} HistoryBoundIsExactForEveryWait(limit: nat, window: nat)
    requires limit > 0 && 0 < window < SEQUENCE_MODULUS / 2
    ensures (forall cfg: Config {:trigger NoFalseDuplicates(cfg)} ::
               cfg.Valid() && cfg.historyLimit == limit && cfg.maxReorder == window ==> NoFalseDuplicates(cfg))
      <==> (limit + 1) * (window + 1) <= SEQUENCE_MODULUS
  {
    hide NoFalseDuplicates;
    if (limit + 1) * (window + 1) <= SEQUENCE_MODULUS {
      assert (limit + 1) * (window + 1) == limit * (window + 1) + window + 1;
      forall cfg: Config | cfg.Valid() && cfg.historyLimit == limit && cfg.maxReorder == window
        ensures NoFalseDuplicates(cfg)
      {
        WithinTheBoundHolds(cfg);
      }
    } else {
      var cfg := ConfigFor(Scope("", ""), limit, window, 1.0);
      FailingConfig(cfg);
      assert cfg.Valid();
    }
  }
}
