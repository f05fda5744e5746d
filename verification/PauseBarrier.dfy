/**
  The pause barrier: what a capture stop does when the queue is short of room, and what
  a caller that waits for the pause may conclude when the wait returns true.
 */
module PauseBarrier {
  import opened Common
  import B = IngressBoundary
  import opened SessionModel
  import opened SessionInvariant
  import opened SessionRuns
  import T = SessionTheorems

  // ----- Room in the queue -----

  /** Chunks the boundary can still take. */
  function Room(s: Session): nat {
    var free := s.boundary.limits.maxQueue - |Queue(s)|;
    if free < 0 then 0 else free
  }

  /** Chunks that this many bytes leave as when they are flushed. */
  function ChunksFor(bytes: nat): nat {
    (bytes + CHUNK_BYTES - 1) / CHUNK_BYTES
  }

  lemma {:induction false} ChunksAndRest(bytes: nat)
    ensures ChunksFor(bytes) == bytes / CHUNK_BYTES + (if bytes % CHUNK_BYTES == 0 then 0 else 1)
  {
  }

  predicate Emits(s: Session, allowShort: bool) {
    s.buffer != [] && (allowShort || |s.buffer| == CHUNK_BYTES)
  }

  /** A chunk is emitted if there is room for it; otherwise the session is cancelled with an empty buffer. */
  lemma {:induction false} EmitRoom(s: Session, arrived: int, allowShort: bool)
    requires Open(s) && Live(s)
    ensures var t := EmitBuffer(s, arrived, allowShort).0;
      if !Emits(s, allowShort) then t == s
      else if Room(s) == 0 then t.closed && t.buffer == [] && t.status == OVERLOADED
      else !t.closed && t.buffer == [] && Room(t) == Room(s) - 1
  {
    hide Cancel;
    hide Closed;
    if Emits(s, allowShort) {
      var captured := Min(if s.bufferCapturedAt.Some? then s.bufferCapturedAt.value else arrived, arrived);
      var duration := |s.buffer| as real / 32000.0;
      var e := EventOf(s, B.AUDIO_CHUNK, captured, arrived, duration, s.buffer, None);
      OwnAudioOutcome(s, captured, arrived, duration, s.buffer);
      var b := B.Accept(s.boundary, e).0;
      if Room(s) == 0 {
        assert b.active.Keys == {KeyOf(s)};
        var t := s.(boundary := b, buffer := [], bufferCapturedAt := None);
        CancelCloses(t, Overloaded, arrived);
        CancelKeepsEmpty(t, Overloaded, arrived);
        OverloadShows(t, arrived);
      }
    }
  }

  lemma {:induction false} OverloadShows(s: Session, now: int)
    requires Open(s) && Live(s)
    ensures Cancel(s, Overloaded, now).0.status == OVERLOADED
  {
  }

  /** One pass of the aggregation loop: the chunk it completes leaves, or cancels the session for want of room. */
  lemma {:induction false} StepRoom(s: Session, pcm: Bytes, arrived: int, captured: int)
    requires Open(s) && Live(s) && |pcm| % 2 == 0 && |s.buffer| < CHUNK_BYTES
    ensures var (t, error) := AppendStep(s, pcm, arrived, captured);
      error.None? &&
      if |s.buffer| + |pcm| < CHUNK_BYTES then !t.closed && |t.buffer| == |s.buffer| + |pcm| && Room(t) == Room(s)
      else if Room(s) == 0 then t.closed && t.buffer == [] && t.status == OVERLOADED
      else !t.closed && t.buffer == [] && Room(t) == Room(s) - 1
  {
    hide Live;
    hide EmitBuffer;
    hide Queue;
    hide Held;
    hide Closed;
    hide Room;
    var take := Min(CHUNK_BYTES - |s.buffer|, |pcm|);
    var t := s.(bufferCapturedAt := if s.buffer == [] then Some(captured) else s.bufferCapturedAt,
                buffer := s.buffer + pcm[..take]);
    LiveFrame(s, t.buffer, t.bufferCapturedAt);
    RoomFrame(s, t);
    StepLive(s, pcm, arrived, captured);
    if |t.buffer| == CHUNK_BYTES {
      EmitRoom(t, arrived, false);
    }
  }

  /** What is left of the room after this many bytes, and what is left of the bytes when there was too little. */
  ghost predicate Overflowed(s: Session, total: nat, t: Session, error: Option<Error>) {
    if total / CHUNK_BYTES <= Room(s) then
      !t.closed && |t.buffer| == total % CHUNK_BYTES && Room(t) == Room(s) - total / CHUNK_BYTES
    else
      && t.closed && t.status == OVERLOADED
      && (if error.None? then |t.buffer| == total - (Room(s) + 1) * CHUNK_BYTES
          else total >= (Room(s) + 2) * CHUNK_BYTES)
  }

  /** Whole chunks leave while there is room; the one for which there is none cancels the session. */
  lemma {:induction false} AppendRoom(s: Session, pcm: Bytes, arrived: int, captured: int)
    requires Open(s) && Live(s) && |pcm| % 2 == 0 && |s.buffer| < CHUNK_BYTES
    ensures var (t, error) := Append(s, pcm, arrived, captured);
      Overflowed(s, |s.buffer| + |pcm|, t, error)
    decreases |pcm|
  {
    hide Live;
    hide AppendStep;
    hide Held;
    hide Closed;
    hide Room;
    if pcm != [] {
      var take := Min(CHUNK_BYTES - |s.buffer|, |pcm|);
      StepLive(s, pcm, arrived, captured);
      StepRoom(s, pcm, arrived, captured);
      var step := AppendStep(s, pcm, arrived, captured).0;
      if step.closed {
        ClosedTakesNone(step);
        DeadRoom(step, pcm[take..], arrived, captured);
      } else if |s.buffer| + |pcm| >= CHUNK_BYTES {
        AppendRoom(step, pcm[take..], arrived, captured);
      } else {
        assert pcm[take..] == [];
      }
    }
  }

  lemma {:induction false} RoomFrame(s: Session, t: Session)
    requires t == s.(bufferCapturedAt := t.bufferCapturedAt, buffer := t.buffer, status := t.status)
    ensures Room(t) == Room(s)
  {
  }

  lemma {:induction false} ClosedTakesNone(s: Session)
    requires Closed(s)
    ensures OwnBoundary(s) && s.boundary.active == map[] && |s.buffer| <= CHUNK_BYTES
  {
  }

  /** A dead stream only lets the buffer grow. */
  lemma {:induction false} DeadRoom(s: Session, pcm: Bytes, arrived: int, captured: int)
    requires OwnBoundary(s) && s.boundary.active == map[] && |s.buffer| <= CHUNK_BYTES
    ensures var (t, error) := Append(s, pcm, arrived, captured);
      && t.closed == s.closed && t.status == s.status
      && (if error.None? then |t.buffer| == |s.buffer| + |pcm| else |s.buffer| + |pcm| >= CHUNK_BYTES)
    decreases |pcm|, |s.buffer|
  {
    hide EmitBuffer;
    hide B.Accept;
    if pcm != [] {
      var take := Min(CHUNK_BYTES - |s.buffer|, |pcm|);
      var t := s.(bufferCapturedAt := if s.buffer == [] then Some(captured) else s.bufferCapturedAt,
                  buffer := s.buffer + pcm[..take]);
      EmitDead(t, arrived, false);
      if AppendStep(s, pcm, arrived, captured).1.None? {
        DeadRoom(t, pcm[take..], arrived, captured);
      }
    }
  }

  lemma {:induction false} DeadItems(s: Session, items: seq<PcmItem>, arrived: int)
    requires OwnBoundary(s) && s.boundary.active == map[] && |s.buffer| <= CHUNK_BYTES
    ensures var (t, error) := AppendItems(s, items, arrived);
      && t.closed == s.closed && t.status == s.status
      && (if error.None? then |t.buffer| == |s.buffer| + |Flatten(items)|
          else |s.buffer| + |Flatten(items)| >= CHUNK_BYTES)
    decreases |items|
  {
    hide Append;
    if items != [] {
      DeadRoom(s, items[0], arrived, arrived);
      AppendDead(s, items[0], arrived, arrived);
      if Append(s, items[0], arrived, arrived).1.None? {
        DeadItems(Append(s, items[0], arrived, arrived).0, items[1..], arrived);
      }
    }
  }

  lemma {:induction false} ItemsRoom(s: Session, items: seq<PcmItem>, arrived: int)
    requires Open(s) && Live(s) && |s.buffer| < CHUNK_BYTES
    ensures var (t, error) := AppendItems(s, items, arrived);
      Overflowed(s, |s.buffer| + |Flatten(items)|, t, error)
    decreases |items|
  {
    hide Live;
    hide Append;
    hide Held;
    hide Closed;
    hide Room;
    if items != [] {
      var first, error := Append(s, items[0], arrived, arrived).0, Append(s, items[0], arrived, arrived).1;
      AppendRoom(s, items[0], arrived, arrived);
      AppendLive(s, items[0], arrived, arrived);
      if first.closed {
        if error.None? {
          ClosedTakesNone(first);
          DeadItems(first, items[1..], arrived);
        }
      } else {
        ItemsRoom(first, items[1..], arrived);
      }
    }
  }

  /** A flush cancels exactly when it needs more chunks than fit, and then succeeds exactly when one too many. */
  lemma {:induction false} FlushRoom(s: Session, items: seq<PcmItem>, now: int)
    requires Open(s) && Live(s) && |s.buffer| < CHUNK_BYTES
    ensures var (t, error) := FlushOut(s, items, now);
      var needed := ChunksFor(|s.buffer| + |Flatten(items)|);
      && (t.closed <==> needed > Room(s))
      && (t.closed ==> t.status == OVERLOADED && (error.None? <==> needed == Room(s) + 1))
  {
    hide Live;
    hide AppendItems;
    hide EmitBuffer;
    hide Held;
    hide Closed;
    hide Room;
    hide ChunksFor;
    ChunksAndRest(|s.buffer| + |Flatten(items)|);
    var (t, error) := AppendItems(s, items, now);
    ItemsRoom(s, items, now);
    ItemsLive(s, items, now);
    if error.None? {
      if t.closed {
        ClosedTakesNone(t);
        EmitDead(t, now, true);
      } else {
        EmitRoom(t, now, true);
        EmitLive(t, now, true);
      }
    }
  }

  // ----- A pause that overflows the queue -----

  /**
    The stop writes its status after the cancellation that an overflow causes. A pause of a running
    capture closes the session exactly when its flush needs more chunks than the queue has room for,
    and the closed session reads PAUSED exactly when it needs one too many and nothing is in flight.
   */
  lemma {:induction false} PauseOverflows(s: Session, now: int, flush: Flush)
    requires Coupled(s) && !s.closed && s.capabilityActive && s.status != PAUSING && s.status != PAUSED
    ensures var t := Pause(s, true, now, flush).0;
      var needed := ChunksFor(|s.buffer| + |Flatten(FlushedItems(Some(flush)))|);
      && (t.closed <==> s.callStarted && needed > Room(s))
      && (t.closed && t.status == PAUSED <==>
            s.callStarted && flush.Flushed? && needed == Room(s) + 1 && s.inFlight == 0)
  {
    hide FlushOut;
    hide FinishStopIfDrained;
    hide Stopping;
    hide Coupled;
    hide Live;
    hide NotStarted;
    hide Open;
    hide ChunksFor;
    hide Room;
    var items := FlushedItems(Some(flush));
    var stopped := if flush.FlushRaised? then FAILED else PAUSED;
    var p := s.(status := PAUSING);
    RunningStop(s);
    assert Pause(s, true, now, flush).0 == FinishStopIfDrained(Stopping(FlushOut(p, items, now), stopped));
    RoomFrame(s, p);
    OverflowedStop(p, items, now, stopped);
  }

  lemma {:induction false} RunningStop(s: Session)
    requires Coupled(s) && !s.closed && s.capabilityActive
    ensures var p := s.(status := PAUSING); Open(p) && (Live(p) || NotStarted(p)) && |p.buffer| < CHUNK_BYTES
  {
  }

  lemma {:induction false} OverflowedStop(p: Session, items: seq<PcmItem>, now: int, stopped: Status)
    requires Open(p) && (Live(p) || NotStarted(p)) && |p.buffer| < CHUNK_BYTES && Stopped(stopped)
    ensures var t := FinishStopIfDrained(Stopping(FlushOut(p, items, now), stopped));
      var needed := ChunksFor(|p.buffer| + |Flatten(items)|);
      && (t.closed <==> p.callStarted && needed > Room(p))
      && (t.closed && t.status == PAUSED <==>
            p.callStarted && stopped == PAUSED && needed == Room(p) + 1 && p.inFlight == 0)
      && (t.closed ==> t.status != PAUSING)
  {
    hide FlushOut;
    hide ChunksFor;
    hide Room;
    if Live(p) {
      FlushRoom(p, items, now);
      FlushLive(p, items, now);
      var f := FlushOut(p, items, now);
      if f.0.closed {
        assert NothingRetained(Stopping(f, stopped).boundary);
      }
    } else {
      FlushDead(p, items, now);
    }
  }

  /** A running capture with this much room left and this much audio buffered. */
  ghost predicate Running(s: Session, room: nat, buffered: nat, generation: nat) {
    && Coupled(s) && Authorized(s) && s.callStarted && s.readiness == ASR_STREAMING
    && (s.status == READY || s.status == STREAMING)
    && Room(s) == room && |s.buffer| == buffered && s.inFlight == 0 && s.generation == generation
  }

  lemma {:induction false} PcmFits(s: Session, pcm: Bytes, room: nat, buffered: nat, generation: nat)
    requires Running(s, room, buffered, generation) && 0 < |pcm| <= CHUNK_BYTES && |pcm| % 2 == 0
    requires (buffered + |pcm|) / CHUNK_BYTES <= room
    ensures Running(Call(s, OpPcm(pcm, 0, 0, generation)).0, room - (buffered + |pcm|) / CHUNK_BYTES,
                    (buffered + |pcm|) % CHUNK_BYTES, generation)
  {
    hide Append;
    hide Held;
    hide Live;
    AppendRoom(s, pcm, 0, 0);
    AppendLive(s, pcm, 0, 0);
    PcmCoupled(s, pcm, 0, 0, generation);
    var u := Append(s, pcm, 0, 0).0;
    RoomFrame(u, u.(status := STREAMING));
  }

  /** A new session whose recogniser is ready. */
  ghost predicate ReadyToStart(s: Session) {
    && Coupled(s) && Authorized(s) && !s.callStarted && s.status == PERMISSION_PENDING
    && s.readiness == READY_TO_CAPTURE && s.buffer == [] && s.inFlight == 0 && s.generation == 1
    && s.boundary.limits.maxQueue == 1
  }

  lemma {:induction false} ReadySession(tenantId: string, callId: string, streamId: string) returns (w: World)
    ensures Reachable(w) && ReadyToStart(w.s)
  {
    hide Reachable;
    w := Initial(tenantId, callId, streamId, 1);
    InitialIsReachable(tenantId, callId, streamId, 1);
    StepIsReachable(w, OpReadiness(WARMING_UP, true));
    w := Step(w, OpReadiness(WARMING_UP, true));
    StepIsReachable(w, OpReadiness(READY_TO_CAPTURE, true));
    w := Step(w, OpReadiness(READY_TO_CAPTURE, true));
  }

  lemma {:induction false} StartRuns(s: Session)
    requires ReadyToStart(s)
    ensures Running(Start(s, 0).0, 1, 0, 1) && Queue(Start(s, 0).0) == []
  {
    hide B.Accept;
    hide Coupled;
    StartCoupled(s, 0);
    FirstStart(s, 0);
  }

  lemma {:induction false} StartedSession(tenantId: string, callId: string, streamId: string) returns (w: World)
    ensures Reachable(w) && Running(w.s, 1, 0, 1) && Queue(w.s) == []
  {
    hide Reachable;
    hide ReadyToStart;
    hide Running;
    hide Start;
    var v := ReadySession(tenantId, callId, streamId);
    StepIsReachable(v, OpStart(0));
    StartRuns(v.s);
    w := Step(v, OpStart(0));
  }

  /**
    It happens: with a queue of one chunk, two seconds of audio and one sample more, the pause finds no
    room for the last sample, and the cancelled session reads PAUSED.
   */
  lemma {:induction false} PausedButCancelled(tenantId: string, callId: string, streamId: string) returns (w: World)
    ensures Reachable(w) && w.s.closed && w.s.status == PAUSED
  {
    hide Reachable;
    hide Running;
    hide Call;
    var w0 := StartedSession(tenantId, callId, streamId);
    var w1 := Recorded(w0, Zeros(CHUNK_BYTES), 1, 0, 1);
    var w2 := Recorded(w1, [0, 0], 0, 0, 1);
    StepIsReachable(w2, PAUSE_CALL);
    w := Step(w2, PAUSE_CALL);
    PauseOfRunning(w2.s, 1);
  }

  lemma {:induction false} Recorded(w: World, pcm: Bytes, room: nat, buffered: nat, generation: nat) returns (v: World)
    requires Reachable(w) && Running(w.s, room, buffered, generation) && 0 < |pcm| <= CHUNK_BYTES && |pcm| % 2 == 0
    requires (buffered + |pcm|) / CHUNK_BYTES <= room
    ensures |w.s.buffer| <= CHUNK_BYTES && Reachable(v) && v == Step(w, OpPcm(pcm, 0, 0, generation))
    ensures Running(v.s, room - (buffered + |pcm|) / CHUNK_BYTES, (buffered + |pcm|) % CHUNK_BYTES, generation)
  {
    hide Reachable;
    hide Running;
    hide Call;
    StepIsReachable(w, OpPcm(pcm, 0, 0, generation));
    PcmFits(w.s, pcm, room, buffered, generation);
    v := Step(w, OpPcm(pcm, 0, 0, generation));
  }

  /** A pause with nothing left in the normaliser. */
  const PAUSE_CALL := OpPause(true, 0, Flushed([]))

  lemma {:induction false} PauseOfRunning(s: Session, generation: nat)
    requires Running(s, 0, 2, generation) && |s.buffer| <= CHUNK_BYTES
    ensures var t := Call(s, PAUSE_CALL).0; t.closed && t.status == PAUSED
  {
    hide StopCapture;
    hide Live;
    PauseOverflows(s, 0, Flushed([]));
    assert Flatten<Byte>([]) == [];
  }

  // ----- Waiting for the pause -----

  /** A wait that has not decided, has returned its flag, or was refused on entry. */
  datatype Wait = Pending | Returned(paused: bool) | Refused

  /** One look at the session: the status alone decides. */
  function Looked(s: Session, timedOut: bool): Wait {
    if s.status == PAUSING then (if timedOut then Returned(false) else Pending) else Returned(s.status == PAUSED)
  }

  /** Only on entry is the session required to be open, and the resource to be its own. */
  function Entered(s: Session, ownResource: bool, timedOut: bool): Wait {
    if s.closed || !ownResource then Refused else Looked(s, timedOut)
  }

  /** While the wait is pending other calls run; it looks again whenever it is woken, or runs out of time. */
  datatype Move = Meanwhile(op: Op) | Look(timedOut: bool)

  ghost function Waited(w: World, wait: Wait, moves: seq<Move>): (end: (World, Wait))
    requires Consistent(w)
    ensures Consistent(end.0)
    decreases |moves|
  {
    if moves == [] || !wait.Pending? then (w, wait)
    else match moves[0]
      case Meanwhile(op) =>
        StepConsistent(w, op);
        Waited(Step(w, op), wait, moves[1..])
      case Look(timedOut) => Waited(w, Looked(w.s, timedOut), moves[1..])
  }

  /** A pause that finds the session open and leaves it cancelled. */
  predicate Overflows(s: Session, op: Op)
    requires |s.buffer| <= CHUNK_BYTES
  {
    op.OpPause? && !s.closed && Call(s, op).0.closed
  }

  /** Some pause overflowed while the wait was pending. */
  ghost predicate OverflowedMeanwhile(w: World, wait: Wait, moves: seq<Move>)
    requires Consistent(w)
    decreases |moves|
  {
    && moves != [] && wait.Pending?
    && match moves[0]
       case Meanwhile(op) =>
         StepConsistent(w, op);
         Overflows(w.s, op) || OverflowedMeanwhile(Step(w, op), wait, moves[1..])
       case Look(timedOut) => OverflowedMeanwhile(w, Looked(w.s, timedOut), moves[1..])
  }

  /** A cancelled session that does not read as paused, or as pausing. */
  predicate ShowsItsEnd(s: Session) {
    s.closed ==> s.status != PAUSED && s.status != PAUSING
  }

  lemma {:induction false} CancelShows(s: Session, reason: TerminalReason, now: int)
    requires ShowsItsEnd(s)
    ensures ShowsItsEnd(Cancel(s, reason, now).0)
  {
    hide B.Accept;
  }

  lemma {:induction false} StopShows(s: Session, own: bool, finalStatus: Status, now: int, flush: Option<Flush>)
    requires Coupled(s) && ShowsItsEnd(s) && Stopped(finalStatus)
    requires finalStatus == PAUSED && !s.closed ==> !StopCapture(s, own, finalStatus, now, flush).0.closed
    ensures ShowsItsEnd(StopCapture(s, own, finalStatus, now, flush).0)
  {
    hide FlushOut;
    hide FinishStopIfDrained;
    hide ChunksFor;
    hide Room;
    if !s.closed && own && s.status != PAUSING && s.status != PAUSED && s.capabilityActive {
      var p, items := s.(status := PAUSING), FlushedItems(flush);
      var stopped := if flush == Some(FlushRaised) then FAILED else finalStatus;
      assert StopCapture(s, own, finalStatus, now, flush).0
          == FinishStopIfDrained(Stopping(FlushOut(p, items, now), stopped));
      OverflowedStop(p, items, now, stopped);
    }
  }

  lemma {:induction false} PcmShows(s: Session, pcm: Bytes, captured: int, arrived: int, generation: nat)
    requires Coupled(s) && ShowsItsEnd(s)
    ensures ShowsItsEnd(AcceptPcm(s, pcm, captured, arrived, generation).0)
  {
    hide Append;
    hide B.Accept;
    hide Held;
    hide Orderly;
    hide Live;
    hide NotStarted;
    EnsureStartedCoupled(s, arrived);
    StartCoupled(s, arrived);
    var t := EnsureStarted(s, arrived).0;
    if Authorized(t) && (t.status == READY || t.status == STREAMING) && |pcm| % 2 == 0 {
      RunningIsLive(t);
      AppendRoom(t, pcm, arrived, Min(captured, arrived));
    }
  }

  lemma {:induction false} RunningIsLive(s: Session)
    requires Coupled(s) && Authorized(s) && (s.status == READY || s.status == STREAMING)
    ensures Open(s) && Live(s) && |s.buffer| < CHUNK_BYTES
  {
  }

  lemma {:induction false} FinishShows(s: Session, own: bool, now: int, flush: Flush)
    requires Coupled(s) && ShowsItsEnd(s)
    ensures ShowsItsEnd(FinishCall(s, own, now, flush).0)
  {
    hide FlushOut;
    hide Cancel;
    hide ChunksFor;
    hide Room;
    CancelShows(s, Failed, now);
    CancelShows(s, CompletedEnd, now);
    if !s.closed && Live(s) {
      FlushRoom(s, if s.capabilityActive && flush.Flushed? then flush.items else [], now);
    }
  }

  lemma {:induction false} IterateShows(s: Session, cancelled: bool, now: int)
    requires Coupled(s) && ShowsItsEnd(s)
    ensures ShowsItsEnd(Iterate(s, cancelled, now).0)
  {
    CancelShows(s, ResourceClosed, now);
  }

  lemma {:induction false} PlainShows(s: Session, op: Op)
    requires Coupled(s) && ShowsItsEnd(s)
    requires op.OpReadiness? || op.OpResume? || op.OpReconnecting? || op.OpAcknowledge? || op.OpRevoke?
    ensures ShowsItsEnd(Call(s, op).0)
  {
    hide Coupled;
    CoupledFits(s);
  }

  /** No call but an overflowing pause makes a cancelled session read as paused, and none reopens it. */
  lemma {:induction false} EndKeepsShowing(s: Session, op: Op)
    requires Coupled(s) && ShowsItsEnd(s) && !Overflows(s, op)
    ensures ShowsItsEnd(Call(s, op).0)
  {
    hide AcceptPcm;
    hide StopCapture;
    hide FinishCall;
    hide Iterate;
    hide Cancel;
    hide B.Accept;
    match op
    case OpStart(now) => StartCoupled(s, now);
    case OpPcm(pcm, captured, arrived, generation) => PcmShows(s, pcm, captured, arrived, generation);
    case OpPause(own, now, flush) => StopShows(s, own, PAUSED, now, Some(flush));
    case OpFailCapture(own, status, now) => if CaptureFailure(status) { StopShows(s, own, status, now, None); }
    case OpFinish(own, now, flush) => FinishShows(s, own, now, flush);
    case OpIterate(cancelled, now) => IterateShows(s, cancelled, now);
    case OpClose(reason, now) => CancelShows(s, reason, now);
    case OpFail(now) => CancelShows(s.(readiness := ASR_FAILED), Failed, now);
    case _ => PlainShows(s, op);
  }

  /** The wait returns true of a cancelled session exactly when a pause overflowed while it was pending. */
  lemma {:induction false} TrueOfCancelled(w: World, wait: Wait, moves: seq<Move>)
    requires Consistent(w) && ShowsItsEnd(w.s)
    ensures var (v, result) := Waited(w, wait, moves);
      wait.Pending? && result == Returned(true) ==>
        v.s.status == PAUSED && (v.s.closed <==> OverflowedMeanwhile(w, wait, moves))
    decreases |moves|
  {
    hide Consistent;
    hide Overflows;
    ConsistentFits(w);
    if moves != [] && wait.Pending? {
      match moves[0]
      case Look(timedOut) =>
        if Looked(w.s, timedOut).Pending? {
          TrueOfCancelled(w, Looked(w.s, timedOut), moves[1..]);
        }
      case Meanwhile(op) =>
        StepConsistent(w, op);
        if Overflows(w.s, op) {
          OverflowCloses(w, op);
          StaysClosed(Step(w, op), wait, moves[1..]);
        } else {
          StepShows(w, op);
          TrueOfCancelled(Step(w, op), wait, moves[1..]);
        }
    }
  }

  lemma {:induction false} StepShows(w: World, op: Op)
    requires Consistent(w) && ShowsItsEnd(w.s) && !Overflows(w.s, op)
    ensures ShowsItsEnd(Step(w, op).s)
  {
    EndKeepsShowing(w.s, op);
  }

  lemma {:induction false} OverflowCloses(w: World, op: Op)
    requires Consistent(w) && Overflows(w.s, op)
    ensures Step(w, op).s.closed
  {
  }

  lemma {:induction false} StaysClosed(w: World, wait: Wait, moves: seq<Move>)
    requires Consistent(w) && w.s.closed
    ensures var (v, result) := Waited(w, wait, moves);
      v.s.closed && (wait.Pending? && result == Returned(true) ==> v.s.status == PAUSED)
    decreases |moves|
  {
    hide Consistent;
    hide Call;
    ConsistentFits(w);
    if moves != [] && wait.Pending? {
      match moves[0]
      case Look(timedOut) =>
        if Looked(w.s, timedOut).Pending? {
          StaysClosed(w, Looked(w.s, timedOut), moves[1..]);
        }
      case Meanwhile(op) =>
        StepConsistent(w, op);
        ClosedForGood(w, op);
        StaysClosed(Step(w, op), wait, moves[1..]);
    }
  }

  lemma {:induction false} ClosedForGood(w: World, op: Op)
    requires Consistent(w) && w.s.closed
    ensures Step(w, op).s.closed
  {
    hide Call;
    CallCoupled(w.s, op);
  }

  /** Every chunk was drained and acknowledged, and the consumer has received all admitted audio. */
  ghost predicate Drained(w: World) {
    && !w.s.closed && !w.s.capabilityActive
    && Queue(w.s) == [] && w.s.buffer == [] && w.s.inFlight == 0
    && |w.yielded| == w.acknowledged && Audio(w.yielded) == w.admitted
  }

  /**
    The barrier. Whatever calls run while it waits, a wait that returns true found the session drained,
    acknowledged and lossless - unless, and exactly when, a pause overflowed meanwhile, which cancels it.
   */
  lemma {:induction false} TrueMeansDrained(w: World, ownResource: bool, timedOut: bool, moves: seq<Move>)
    requires Reachable(w)
    ensures Consistent(w)
    ensures var wait := Entered(w.s, ownResource, timedOut);
      var (v, result) := Waited(w, wait, moves);
      result == Returned(true) ==>
        if OverflowedMeanwhile(w, wait, moves) then v.s.closed && v.s.status == PAUSED
        else v.s.status == PAUSED && Drained(v)
  {
    hide Reachable;
    hide Consistent;
    hide OverflowedMeanwhile;
    T.ReachableIsConsistent(w);
    ConsistentFits(w);
    var wait := Entered(w.s, ownResource, timedOut);
    var (v, result) := Waited(w, wait, moves);
    if wait.Pending? {
      TrueOfCancelled(w, wait, moves);
    } else {
      NothingMeanwhile(w, wait, moves);
    }
    if result == Returned(true) && !v.s.closed {
      PausedIsDrained(v);
    }
  }

  lemma {:induction false} NothingMeanwhile(w: World, wait: Wait, moves: seq<Move>)
    requires Consistent(w) && !wait.Pending?
    ensures !OverflowedMeanwhile(w, wait, moves)
  {
  }

  lemma {:induction false} PausedIsDrained(w: World)
    requires Consistent(w) && !w.s.closed && w.s.status == PAUSED
    ensures Drained(w)
  {
    assert Audio(w.yielded) + ([] + []) == Audio(w.yielded);
  }

  /** Some call pauses a capture that is neither pausing nor paused. */
  ghost predicate PausesAgain(w: World, wait: Wait, moves: seq<Move>)
    requires Consistent(w)
    decreases |moves|
  {
    && moves != [] && wait.Pending?
    && match moves[0]
       case Meanwhile(op) =>
         StepConsistent(w, op);
         (op.OpPause? && w.s.status != PAUSING && w.s.status != PAUSED) || PausesAgain(Step(w, op), wait, moves[1..])
       case Look(timedOut) => PausesAgain(w, Looked(w.s, timedOut), moves[1..])
  }

  /** So a wait that looks as soon as the stop settles, or whose only pause is its own, never meets an overflow. */
  lemma {:induction false} OverflowNeedsAnotherPause(w: World, wait: Wait, moves: seq<Move>)
    requires Consistent(w) && OverflowedMeanwhile(w, wait, moves)
    ensures PausesAgain(w, wait, moves)
    decreases |moves|
  {
    hide Consistent;
    hide StopCapture;
    ConsistentFits(w);
    match moves[0]
    case Look(timedOut) => OverflowNeedsAnotherPause(w, Looked(w.s, timedOut), moves[1..]);
    case Meanwhile(op) =>
      StepConsistent(w, op);
      if Overflows(w.s, op) {
        OnlyRunningOverflows(w.s, op);
      } else {
        OverflowNeedsAnotherPause(Step(w, op), wait, moves[1..]);
      }
  }

  lemma {:induction false} OnlyRunningOverflows(s: Session, op: Op)
    requires |s.buffer| <= CHUNK_BYTES && Overflows(s, op)
    ensures s.status != PAUSING && s.status != PAUSED
  {
    hide FlushOut;
  }

  // ----- A wait that returns true of a cancelled session -----

  /** A pause that waits for its one queued chunk to be consumed. */
  ghost predicate Pausing(s: Session, generation: nat) {
    && Coupled(s) && !s.closed && s.callStarted && s.status == PAUSING && s.stopStatus == Some(PAUSED)
    && |Queue(s)| == 1 && s.boundary.limits.maxQueue == 1 && s.inFlight == 0 && s.generation == generation
  }

  lemma {:induction false} SampleIsBuffered(s: Session)
    requires s.buffer == []
    ensures Append(s, [0, 0], 0, 0) == (s.(buffer := [0, 0], bufferCapturedAt := Some(0)), None)
  {
    var t := AppendStep(s, [0, 0], 0, 0).0;
    assert [] + [0, 0][..2] == [0, 0] && [0, 0][2..] == [];
    assert Append(t, [], 0, 0) == (t, None);
  }

  lemma {:induction false} SampleStays(s: Session, generation: nat)
    requires Running(s, 1, 0, generation) && Queue(s) == []
    ensures Queue(Call(s, OpPcm([0, 0], 0, 0, generation)).0) == []
  {
    hide Append;
    hide Coupled;
    SampleIsBuffered(s);
  }

  /** The flushed sample becomes a chunk of its own. */
  lemma {:induction false} SampleLeaves(s: Session)
    requires Open(s) && Live(s) && |s.buffer| == 2 && Queue(s) == [] && Room(s) == 1
    ensures var (t, error) := FlushOut(s, [], 0);
      error.None? && !t.closed && |Queue(t)| == 1 && t.boundary.limits.maxQueue == 1
      && t.generation == s.generation && t.inFlight == s.inFlight && t.callStarted
  {
    hide Cancel;
    hide Closed;
    EmitRoom(s, 0, true);
    EmitLive(s, 0, true);
    var captured := Min(if s.bufferCapturedAt.Some? then s.bufferCapturedAt.value else 0, 0);
    OwnAudioOutcome(s, captured, 0, 2 as real / 32000.0, s.buffer);
  }

  lemma {:induction false} PauseQueues(s: Session, generation: nat)
    requires Running(s, 1, 2, generation) && Queue(s) == [] && |s.buffer| <= CHUNK_BYTES
    ensures Pausing(Call(s, PAUSE_CALL).0, generation)
  {
    hide FlushOut;
    hide Live;
    hide Room;
    RunningIsLive(s);
    var p := s.(status := PAUSING);
    RunningStop(s);
    RoomFrame(s, p);
    PausingIsLive(s);
    SampleLeaves(p);
    StopCoupled(s, true, PAUSED, 0, Some(Flushed([])));
    var t := Stopping(FlushOut(p, [], 0), PAUSED);
    assert Call(s, PAUSE_CALL).0 == FinishStopIfDrained(t);
    NotDrained(t);
  }

  lemma {:induction false} PausingIsLive(s: Session)
    requires Live(s)
    ensures Live(s.(status := PAUSING)) && Queue(s.(status := PAUSING)) == Queue(s)
  {
  }

  lemma {:induction false} NotDrained(s: Session)
    requires Queue(s) != []
    ensures FinishStopIfDrained(s) == s
  {
  }

  /** The chunk is consumed and acknowledged, and the stop settles. */
  lemma {:induction false} PauseSettles(s: Session, generation: nat)
    requires Pausing(s, generation)
    ensures var t := Call(s, OpIterate(false, 0)).0;
      |t.buffer| <= CHUNK_BYTES && Settled(Call(t, OpAcknowledge(true)).0, generation)
  {
    hide Audio;
    PausingHolds(s);
    IterateYields(s, 0);
    TakeOne(s);
    var t := Call(s, OpIterate(false, 0)).0;
    CoupledFits(t);
    AcknowledgeCoupled(t, true);
  }

  lemma {:induction false} PausingHolds(s: Session)
    requires Pausing(s, s.generation)
    ensures Live(s) && s.endReason.None? && !s.endEmitted && s.pausePending && !s.capabilityActive && s.buffer == []
  {
  }

  ghost predicate Settled(s: Session, generation: nat) {
    && Coupled(s) && !s.closed && s.callStarted && s.status == PAUSED
    && s.boundary.limits.maxQueue == 1 && s.generation == generation
  }

  /** The next generation is opened and started. */
  lemma {:induction false} ResumeRuns(s: Session, generation: nat)
    requires Settled(s, generation)
    ensures var t := Call(s, OpResume(true, true, true)).0;
      |t.buffer| <= CHUNK_BYTES && Running(Call(t, OpStart(0)).0, 1, 0, generation + 1)
  {
    ResumeCoupled(s, true, true, true);
    StartCoupled(Call(s, OpResume(true, true, true)).0, 0);
  }

  lemma {:induction false} WaitedStep(w: World, op: Op, rest: seq<Move>)
    requires Consistent(w)
    ensures |w.s.buffer| <= CHUNK_BYTES && Consistent(Step(w, op))
    ensures Waited(w, Pending, [Meanwhile(op)] + rest) == Waited(Step(w, op), Pending, rest)
  {
    hide Consistent;
    hide Step;
    ConsistentFits(w);
    StepConsistent(w, op);
    assert ([Meanwhile(op)] + rest)[1..] == rest;
  }

  /** Everything that happens between the pause and the look: the stop settles, and the capture runs and overflows. */
  lemma {:induction false} WaitedThrough(w: World, ops: seq<Op>, v: World)
    requires Consistent(w) && v == Run(w, ops) && v.s.status == PAUSED
    ensures Waited(w, Pending, During(ops)) == (v, Returned(true))
    decreases |ops|
  {
    hide Consistent;
    hide Step;
    if ops == [] {
      assert During(ops)[1..] == [];
    } else {
      WaitedStep(w, ops[0], During(ops[1..]));
      WaitedThrough(Step(w, ops[0]), ops[1..], v);
    }
  }

  /** Calls, and then one look. */
  function During(ops: seq<Op>): seq<Move> {
    if ops == [] then [Look(false)] else [Meanwhile(ops[0])] + During(ops[1..])
  }

  const SETTLE_AND_RESTART: seq<Op> :=
    [OpIterate(false, 0), OpAcknowledge(true), OpResume(true, true, true), OpStart(0)]

  lemma {:induction false} FourCalls(w: World, a: Op, b: Op, c: Op, d: Op) returns (v: World)
    requires Reachable(w) && Consistent(w)
    ensures v == Run(w, [a, b, c, d]) && Reachable(v)
    ensures |w.s.buffer| <= CHUNK_BYTES && |Call(w.s, a).0.buffer| <= CHUNK_BYTES
    ensures var t := Call(Call(w.s, a).0, b).0;
      |t.buffer| <= CHUNK_BYTES && |Call(t, c).0.buffer| <= CHUNK_BYTES && v.s == Call(Call(t, c).0, d).0
  {
    hide Consistent;
    hide Reachable;
    hide Call;
    StepIsReachable(w, a);
    RunSnoc(w, [], a);
    var w1 := Step(w, a);
    StepIsReachable(w1, b);
    RunSnoc(w, [a], b);
    var w2 := Step(w1, b);
    StepIsReachable(w2, c);
    RunSnoc(w, [a, b], c);
    var w3 := Step(w2, c);
    StepIsReachable(w3, d);
    RunSnoc(w, [a, b, c], d);
    v := Step(w3, d);
    assert [] + [a] == [a] && [a] + [b] == [a, b] && [a, b] + [c] == [a, b, c] && [a, b, c] + [d] == [a, b, c, d];
  }

  lemma {:induction false} SettledAndRestarted(w: World, generation: nat) returns (v: World)
    requires Reachable(w) && Consistent(w) && Pausing(w.s, generation)
    ensures v == Run(w, SETTLE_AND_RESTART) && Reachable(v) && Running(v.s, 1, 0, generation + 1)
  {
    hide Consistent;
    hide Reachable;
    hide Running;
    hide Call;
    hide Pausing;
    hide Settled;
    v := FourCalls(w, OpIterate(false, 0), OpAcknowledge(true), OpResume(true, true, true), OpStart(0));
    PauseSettles(w.s, generation);
    ResumeRuns(Call(Call(w.s, OpIterate(false, 0)).0, OpAcknowledge(true)).0, generation);
  }

  /** With a queue of one chunk: a started session that has buffered one sample is asked to pause. */
  lemma {:induction false} PausedOnce(tenantId: string, callId: string, streamId: string) returns (w: World)
    ensures Reachable(w) && Pausing(w.s, 1)
  {
    hide Reachable;
    hide Running;
    hide Call;
    hide Pausing;
    var w0 := StartedSession(tenantId, callId, streamId);
    SampleStays(w0.s, 1);
    var w1 := Recorded(w0, [0, 0], 1, 0, 1);
    StepIsReachable(w1, PAUSE_CALL);
    w := Step(w1, PAUSE_CALL);
    PauseQueues(w1.s, 1);
  }

  /** More is recorded than fits, and the pause overflows. */
  lemma {:induction false} OverflowedAfter(w: World, before: seq<Op>, v: World, generation: nat)
    returns (ops: seq<Op>, u: World)
    requires Consistent(w) && v == Run(w, before) && Reachable(v) && Running(v.s, 1, 0, generation)
    ensures u == Run(w, ops) && u.s.closed && u.s.status == PAUSED
  {
    hide Reachable;
    hide Consistent;
    hide Running;
    hide Call;
    var v1 := Recorded(v, Zeros(CHUNK_BYTES), 1, 0, generation);
    RunSnoc(w, before, OpPcm(Zeros(CHUNK_BYTES), 0, 0, generation));
    ops := before + [OpPcm(Zeros(CHUNK_BYTES), 0, 0, generation)];
    var v2 := Recorded(v1, [0, 0], 0, 0, generation);
    RunSnoc(w, ops, OpPcm([0, 0], 0, 0, generation));
    ops := ops + [OpPcm([0, 0], 0, 0, generation)];
    T.ReachableIsConsistent(v2);
    ConsistentFits(v2);
    PauseOfRunning(v2.s, generation);
    RunSnoc(w, ops, PAUSE_CALL);
    ops := ops + [PAUSE_CALL];
    u := Step(v2, PAUSE_CALL);
  }

  /**
    The exception happens. A wait is pending for a pause; the queued chunk is consumed and acknowledged, the
    capture resumes and records more than fits, and a second pause overflows, all before the wait looks again:
    it returns true, of a cancelled session.
   */
  lemma {:induction false} TrueOfCancelledRun(tenantId: string, callId: string, streamId: string)
    returns (w: World, moves: seq<Move>)
    ensures Reachable(w) && Consistent(w) && Entered(w.s, true, false) == Pending
    ensures var (v, result) := Waited(w, Pending, moves);
      result == Returned(true) && v.s.closed && OverflowedMeanwhile(w, Pending, moves)
  {
    hide Reachable;
    hide Consistent;
    hide Running;
    hide Call;
    hide Pausing;
    hide SETTLE_AND_RESTART;
    hide OverflowedMeanwhile;
    w := PausedOnce(tenantId, callId, streamId);
    T.ReachableIsConsistent(w);
    PausingIsPending(w.s, 1);
    var v := SettledAndRestarted(w, 1);
    var ops, u := OverflowedAfter(w, SETTLE_AND_RESTART, v, 2);
    moves := During(ops);
    WaitedThrough(w, ops, u);
    TrueMeansDrained(w, true, false, moves);
  }

  lemma {:induction false} PausingIsPending(s: Session, generation: nat)
    requires Pausing(s, generation)
    ensures Entered(s, true, false) == Pending
  {
  }
}
