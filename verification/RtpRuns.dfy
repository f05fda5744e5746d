/**
  Runs of the adapter: any sequence of operations from a fresh adapter, observed
  through a ledger, and the theorems that hold after every such run.
 */
module RtpRuns {
  import opened Common
  import opened G711
  import opened RtpModel
  import opened RtpTimeline
  import opened RtpInvariant
  import opened RtpHistory

  datatype Op =
    | OpStart(start: Start)
    | OpReplace(start: Start)
    | OpPacket(packet: Option<Packet>)
    | OpAdvance(now: Option<real>)
    | OpEnd(end: End)
    | OpReset
    | OpDrain(scope: Scope, generation: nat, limit: int)

  /** An adapter with what has been observed of its current source. */
  datatype World = World(adapter: Adapter, ledger: Ledger)

  function Initial(cfg: Config): World {
    World(Adapter(cfg, None, None, None, None), EMPTY_LEDGER)
  }

  function AfterStart(w: World, result: (Adapter, Acceptance)): World {
    World(result.0, if result.1.status == STARTED then EMPTY_LEDGER else w.ledger)
  }

  predicate WasAdmitted(answer: Acceptance) {
    answer.status == ACCEPTED || answer.status == BUFFERED
  }

  function AfterPacket(w: World, packet: Option<Packet>): World {
    var result := AcceptPacket(w.adapter, packet);
    if WasAdmitted(result.1) && packet.Some? && w.adapter.active.Some?
      && Landing(w.adapter.active.value, packet.value) >= 0
    then World(result.0, Recorded(w.ledger, Landing(w.adapter.active.value, packet.value), packet.value))
    else World(result.0, w.ledger)
  }

  function AfterDrain(w: World, scope: Scope, generation: nat, limit: int): World {
    var result := DrainChunks(w.adapter, scope, generation, limit);
    World(result.0, if result.1.Ok? then w.ledger.(drained := w.ledger.drained + result.1.value) else w.ledger)
  }

  function Step(w: World, op: Op): World {
    match op
    case OpStart(c) => AfterStart(w, StartSource(w.adapter, c))
    case OpReplace(c) => AfterStart(w, ReplaceSource(w.adapter, c))
    case OpPacket(p) => AfterPacket(w, p)
    case OpAdvance(now) => World(AdvanceClock(w.adapter, now).0, w.ledger)
    case OpEnd(c) => World(EndSource(w.adapter, c).0, w.ledger)
    case OpReset => World(ResetSource(w.adapter).0, w.ledger)
    case OpDrain(scope, generation, limit) => AfterDrain(w, scope, generation, limit)
  }

  function Run(w: World, ops: seq<Op>): World {
    if ops == [] then w else Step(Run(w, ops[..|ops| - 1]), ops[|ops| - 1])
  }

  // ----- The run invariant -----

  /** An active source between calls: settled, with nothing playable left in the buffer. */
  ghost predicate Resting(cfg: Config, s: Source, g: Ledger) {
    && Settled(cfg, s, g)
    && s.expectedSeq !in s.buffer
    && Genuine(s, g)
    && (HistoryFits(cfg) ==> Aged(cfg, s, g))
    && (cfg.maxJitterWait == 0.0 ==> Prompt(s))
  }

  /** A source closed by END: everything accepted was played out, in order, and cut into chunks. */
  ghost predicate Finished(s: Source, g: Ledger) {
    && s.pcm == [] && s.buffer.Keys == {}
    && (g.top == 0 || g.top - 1 in g.accepted)
    && (forall a :: a in g.accepted ==> a < g.top && SlotOk(s.start, g.accepted[a], a))
    && Stream(Log(s, g)) == Render(g.accepted, g.top, s.start.format.samplesPerPacket)
    && Cut(Log(s, g))
  }

  ghost predicate Consistent(w: World) {
    var a := w.adapter;
    && a.cfg.Valid()
    && (a.active.Some? ==> Resting(a.cfg, a.active.value, w.ledger) && a.completedGeneration.None?)
    && (a.active.None? && a.completedGeneration.Some? ==> a.completed.Some? && Finished(a.completed.value, w.ledger))
    && (a.active.None? && a.completedGeneration.None? && a.completed.Some? ==> a.completed.value.queue == [])
  }

  lemma {:induction false} FreshRests(cfg: Config, start: Start)
    requires cfg.Valid()
    ensures Resting(cfg, Fresh(start), EMPTY_LEDGER)
  {
  }

  /** Counters outside the invariant, and the arrival stamp, may change freely. */
  lemma {:induction false} RestingFrame(cfg: Config, s: Source, t: Source, g: Ledger)
    requires Resting(cfg, s, g) && SamePlace(s, t) && SameOutput(s, t) && t.history == s.history
    requires t.gapStarted == s.gapStarted
    ensures Resting(cfg, t, g)
  {
    TracksFrame(cfg, s, t, g);
    if HistoryFits(cfg) {
      AgedFrame(cfg, s, t, g);
    }
  }

  lemma {:induction false} RejectConsistent(w: World, reason: Reason)
    requires Consistent(w)
    ensures Consistent(World(Reject(w.adapter, reason).0, w.ledger))
  {
    if w.adapter.active.Some? {
      RestingFrame(w.adapter.cfg, w.adapter.active.value, Note(w.adapter.active.value, reason), w.ledger);
    }
  }

  lemma {:induction false} ExpiryRests(cfg: Config, s: Source, g: Ledger, now: real, force: bool)
    requires cfg.Valid() && Settled(cfg, s, g) && Genuine(s, g) && (HistoryFits(cfg) ==> Aged(cfg, s, g))
    requires cfg.maxJitterWait == 0.0 ==> Prompt(s) || (!force && Hasty(s, now))
    ensures var f := ExpireGap(cfg, s, now, force);
      f.failure.None? ==> Resting(cfg, f.s, g) && (force ==> f.s.buffer.Keys == {})
  {
    hide Prompt;
    ExpirySettles(cfg, s, g, now, force);
    var f := ExpireGap(cfg, s, now, force);
    if HistoryFits(cfg) {
      AgedFrame(cfg, s, f.s, g);
    }
    if cfg.maxJitterWait == 0.0 {
      if Prompt(s) {
        PromptStays(cfg, s, now, force);
      } else {
        ExpiryIsPrompt(cfg, s, now);
      }
    }
  }

  lemma {:induction false} PromptStays(cfg: Config, s: Source, now: real, force: bool)
    requires Prompt(s)
    ensures ExpireGap(cfg, s, now, force) == Flow(s, None)
  {
  }

  lemma {:induction false} AdmitRests(cfg: Config, s: Source, g: Ledger, p: Packet)
    requires cfg.Valid() && Resting(cfg, s, g)
    requires PacketFault(cfg, s, p).None? && p.seq16 !in s.buffer
    requires Distance(p.seq16, s.expectedSeq) <= cfg.maxReorder
    ensures Landing(s, p) >= 0
    ensures var f := Advance(cfg, Admit(cfg, s, p), p.arrival);
      f.failure.None? ==> Resting(cfg, f.s, Recorded(g, Landing(s, p), p))
  {
    AdmitTracks(cfg, s, g, p);
    var t, h := Admit(cfg, s, p), Recorded(g, Landing(s, p), p);
    AdmitGenuine(cfg, s, g, p);
    if HistoryFits(cfg) {
      AdmitAged(cfg, s, g, p);
    }
    DrainSettles(cfg, t, h);
    var drained := DrainContiguous(cfg, t);
    if drained.failure.None? {
      if HistoryFits(cfg) {
        AgedFrame(cfg, t, drained.s, h);
      }
      if cfg.maxJitterWait == 0.0 {
        DrainIsHasty(cfg, t, p.arrival);
      }
      ExpiryRests(cfg, drained.s, h, p.arrival, false);
    }
  }

  lemma {:induction false} NewPacketConsistent(w: World, p: Packet)
    requires Consistent(w) && w.adapter.active.Some?
    requires PacketFault(w.adapter.cfg, w.adapter.active.value, p).None?
    requires Known(w.adapter.active.value, p.seq16).None?
    ensures Consistent(AfterPacket(w, Some(p)))
  {
    hide Settled;
    hide Genuine;
    hide Aged;
    hide HistoryFits;
    hide Admit;
    hide Advance;
    hide PacketFault;
    hide Finished;
    RejectConsistent(w, StaleSequence);
    RejectConsistent(w, ReorderWindowExceeded);
    var cfg, s := w.adapter.cfg, w.adapter.active.value;
    if Distance(p.seq16, s.expectedSeq) <= cfg.maxReorder {
      AdmitRests(cfg, s, w.ledger, p);
    }
  }

  lemma {:induction false} KnownPacketConsistent(w: World, p: Packet)
    requires Consistent(w) && w.adapter.active.Some?
    requires PacketFault(w.adapter.cfg, w.adapter.active.value, p).None?
    requires Known(w.adapter.active.value, p.seq16).Some?
    ensures Consistent(AfterPacket(w, Some(p)))
  {
    hide Settled;
    hide Genuine;
    hide Aged;
    hide HistoryFits;
    hide PacketFault;
    hide Finished;
    hide Admit;
    hide Advance;
    var s := w.adapter.active.value;
    RejectConsistent(w, ConflictingDuplicate);
    RestingFrame(w.adapter.cfg, s, s.(duplicateCount := s.duplicateCount + 1), w.ledger);
  }

  lemma {:induction false} PacketConsistent(w: World, packet: Option<Packet>)
    requires Consistent(w)
    ensures Consistent(AfterPacket(w, packet))
  {
    var a := w.adapter;
    if packet.None? {
      RejectConsistent(w, MalformedPacket);
    } else if a.active.Some? {
      var p, s := packet.value, a.active.value;
      var fault := PacketFault(a.cfg, s, p);
      if fault.Some? {
        RejectConsistent(w, fault.value);
      } else if Known(s, p.seq16).Some? {
        KnownPacketConsistent(w, p);
      } else {
        NewPacketConsistent(w, p);
      }
    }
  }

  lemma {:induction false} ClockConsistent(w: World, now: Option<real>)
    requires Consistent(w)
    ensures Consistent(World(AdvanceClock(w.adapter, now).0, w.ledger))
  {
    RejectConsistent(w, ArrivalTimeRegression);
    if w.adapter.active.Some? && now.Some? {
      var s := w.adapter.active.value;
      var t := s.(lastArrival := now.value);
      RestingFrame(w.adapter.cfg, s, t, w.ledger);
      ExpiryRests(w.adapter.cfg, t, w.ledger, now.value, false);
    }
  }

  lemma {:induction false} CutLast(log: seq<Chunk>, c: Chunk)
    requires FullChunks(log) && ShortChunk(c, |log|)
    ensures Cut(log + [c])
  {
  }

  lemma {:induction false} FlushCuts(cfg: Config, s: Source, g: Ledger)
    requires Settled(cfg, s, g) && s.buffer.Keys == {}
    ensures var f := FlushFinalChunk(cfg, s); f.failure.None? ==> Finished(f.s.(history := []), g)
  {
    hide Render;
    EmptyBufferIsCaughtUp(cfg, s, g);
    var f := FlushFinalChunk(cfg, s);
    if s.pcm != [] && f.failure.None? {
      var log, c := Log(s, g), f.s.queue[|s.queue|];
      assert Log(f.s.(history := []), g) == log + [c];
      StreamSnoc(log, c);
      CutLast(log, c);
    }
  }

  lemma {:induction false} FinishCuts(cfg: Config, s: Source, g: Ledger, control: End)
    requires cfg.Valid() && Resting(cfg, s, g)
    ensures var f := Finish(cfg, s, control); f.failure.None? ==> Finished(f.s.(history := []), g)
  {
    var t := s.(latestArrivedAt := control.arrivedAt);
    RestingFrame(cfg, s, t, g);
    ExpiryRests(cfg, t, g, control.arrival, true);
    var e := ExpireGap(cfg, t, control.arrival, true);
    if e.failure.None? {
      FlushCuts(cfg, e.s, g);
    }
  }

  lemma {:induction false} EndConsistent(w: World, control: End)
    requires Consistent(w)
    ensures Consistent(World(EndSource(w.adapter, control).0, w.ledger))
  {
    RejectConsistent(w, ScopeMismatch);
    RejectConsistent(w, ArrivalTimeRegression);
    if w.adapter.active.Some? {
      RejectConsistent(w, GenerationReason(w.adapter.active.value, control.generation));
      FinishCuts(w.adapter.cfg, w.adapter.active.value, w.ledger, control);
    }
  }

  /** Chunks moving from the queue to the reader. */
  function Moved(s: Source, g: Ledger, n: nat): (Source, Ledger)
    requires n <= |s.queue|
  {
    (s.(queue := s.queue[n..]), g.(drained := g.drained + s.queue[..n]))
  }

  lemma {:induction false} MovedLog(s: Source, g: Ledger, n: nat)
    requires n <= |s.queue|
    ensures Log(Moved(s, g, n).0, Moved(s, g, n).1) == Log(s, g)
  {
  }

  lemma {:induction false} MovedBuffer(s: Source, g: Ledger, n: nat)
    requires n <= |s.queue| && BufferOk(s, g)
    ensures BufferOk(Moved(s, g, n).0, Moved(s, g, n).1)
  {
    var (t, h) := Moved(s, g, n);
    forall a | a in h.accepted && Position(t) <= a ensures InBuffer(t, h, a) {
      assert InBuffer(s, g, a);
    }
    forall k | k in t.buffer ensures FromLedger(t, h, k) {
      assert FromLedger(s, g, k);
    }
  }

  lemma {:induction false} MovedHistory(cfg: Config, s: Source, g: Ledger, n: nat)
    requires n <= |s.queue|
    ensures Genuine(s, g) ==> Genuine(Moved(s, g, n).0, Moved(s, g, n).1)
    ensures Aged(cfg, s, g) ==> Aged(cfg, Moved(s, g, n).0, Moved(s, g, n).1)
  {
    var (t, h) := Moved(s, g, n);
    forall i | 0 <= i < |t.history| && WasAccepted(g, s.history[i]) ensures WasAccepted(h, t.history[i]) {
    }
    forall i | 0 <= i < |t.history| && Traced(cfg, s, g, i) ensures Traced(cfg, t, h, i) {
      var b :| EntryAt(cfg, s, g, i, b);
      assert EntryAt(cfg, t, h, i, b);
    }
  }

  lemma {:induction false} MovedTracks(cfg: Config, s: Source, g: Ledger, n: nat)
    requires Tracks(cfg, s, g) && n <= |s.queue|
    ensures Tracks(cfg, Moved(s, g, n).0, Moved(s, g, n).1)
  {
    hide FullChunks;
    hide Render;
    hide Stream;
    hide WindowOk;
    hide BufferOk;
    MovedLog(s, g, n);
    MovedBuffer(s, g, n);
    MovedWindow(cfg, s, g, n);
  }

  lemma {:induction false} MovedWindow(cfg: Config, s: Source, g: Ledger, n: nat)
    requires WindowOk(cfg, s, g) && n <= |s.queue|
    ensures WindowOk(cfg, Moved(s, g, n).0, Moved(s, g, n).1)
  {
  }

  lemma {:induction false} MovedRests(cfg: Config, s: Source, g: Ledger, n: nat)
    requires Resting(cfg, s, g) && n <= |s.queue|
    ensures Resting(cfg, Moved(s, g, n).0, Moved(s, g, n).1)
  {
    MovedTracks(cfg, s, g, n);
    MovedHistory(cfg, s, g, n);
  }

  lemma {:induction false} DrainConsistent(w: World, scope: Scope, generation: nat, limit: int)
    requires Consistent(w)
    ensures Consistent(AfterDrain(w, scope, generation, limit))
  {
    var a, g := w.adapter, w.ledger;
    assert g.drained + [] == g.drained;
    if limit > 0 && DrainMatches(a, scope, generation) {
      var s := Readable(a).value;
      var n := Min(limit, |s.queue|);
      MovedLog(s, g, n);
      if a.active.Some? {
        MovedRests(a.cfg, s, g, n);
      }
    }
  }

  lemma {:induction false} StepConsistent(w: World, op: Op)
    requires Consistent(w)
    ensures Consistent(Step(w, op))
  {
    hide Resting;
    hide Finished;
    hide AcceptPacket;
    hide AdvanceClock;
    hide EndSource;
    hide DrainChunks;
    match op
    case OpStart(c) =>
      FreshRests(w.adapter.cfg, c);
      RejectConsistent(w, ActiveSourceExists);
    case OpReplace(c) =>
      FreshRests(w.adapter.cfg, c);
      RejectConsistent(w, ScopeMismatch);
      RejectConsistent(w, StaleSourceGeneration);
    case OpPacket(p) => PacketConsistent(w, p);
    case OpAdvance(now) => ClockConsistent(w, now);
    case OpEnd(c) => EndConsistent(w, c);
    case OpReset =>
    case OpDrain(scope, generation, limit) => DrainConsistent(w, scope, generation, limit);
  }

  lemma {:induction false} StepKeepsConfig(w: World, op: Op)
    ensures Step(w, op).adapter.cfg == w.adapter.cfg
  {
  }

  lemma {:induction false} RunConsistent(cfg: Config, ops: seq<Op>)
    requires cfg.Valid()
    ensures Consistent(Run(Initial(cfg), ops))
    ensures Run(Initial(cfg), ops).adapter.cfg == cfg
  {
    if ops != [] {
      var before := Run(Initial(cfg), ops[..|ops| - 1]);
      RunConsistent(cfg, ops[..|ops| - 1]);
      StepConsistent(before, ops[|ops| - 1]);
      StepKeepsConfig(before, ops[|ops| - 1]);
    }
  }

  /** A world some run of a fresh adapter ends in. */
  ghost predicate Reachable(cfg: Config, w: World) {
    cfg.Valid() && exists ops :: w == Run(Initial(cfg), ops)
  }

  lemma {:induction false} ReachableIsConsistent(cfg: Config, w: World)
    requires Reachable(cfg, w)
    ensures Consistent(w) && w.adapter.cfg == cfg
  {
    var ops :| w == Run(Initial(cfg), ops);
    RunConsistent(cfg, ops);
  }

  lemma {:induction false} StepIsReachable(cfg: Config, w: World, op: Op)
    requires Reachable(cfg, w)
    ensures Reachable(cfg, Step(w, op))
  {
    var ops :| w == Run(Initial(cfg), ops);
    assert (ops + [op])[..|ops|] == ops;
    assert Step(w, op) == Run(Initial(cfg), ops + [op]);
  }
}
