/** Runs of the session: any sequence of its calls, interleaved with the consumer's. */
module SessionRuns {
  import opened Common
  import B = IngressBoundary
  import opened SessionModel
  import opened SessionInvariant

  datatype Op =
    | OpStart(now: int)
    | OpReadiness(readiness: Readiness, ownResource: bool)
    | OpPcm(pcm: Bytes, captured: int, arrived: int, generation: nat)
    | OpPause(ownResource: bool, now: int, flush: Flush)
    | OpFailCapture(ownResource: bool, status: Status, now: int)
    | OpResume(ownResource: bool, isNew: bool, authorizes: bool)
    | OpReconnecting(expected: Option<nat>)
    | OpAcknowledge(ownResource: bool)
    | OpFinish(ownResource: bool, now: int, flush: Flush)
    | OpIterate(cancelled: bool, now: int)
    | OpClose(reason: TerminalReason, now: int)
    | OpFail(now: int)
    | OpRevoke

  /** The session with what went in and what came out: audio bytes, chunks and acknowledgements. */
  datatype World = World(s: Session, admitted: Bytes, yielded: seq<B.Chunk>, acknowledged: nat)

  // ----- The run invariant -----

  predicate Stopped(status: Status) {
    status == PAUSED || CaptureFailure(status)
  }

  predicate Capturing(status: Status) {
    status == READY || status == STREAMING || status == RECONNECTING
  }

  /** Status, capability and flags of a session that has not been cancelled. */
  ghost predicate Orderly(s: Session) {
    && (s.endEmitted ==> s.endReason.Some?)
    && (s.endReason.Some? ==>
         && s.callStarted && !s.capabilityActive
         && s.endReason == Some(B.COMPLETED) && s.terminalStatus == Some(COMPLETED)
         && s.status == (if s.endEmitted then COMPLETED else STOP_REQUESTED))
    && (s.endReason.None? ==> s.status !in {STOP_REQUESTED, COMPLETED, OVERLOADED, REPLACED} && s.terminalStatus.None?)
    && (Capturing(s.status) ==> s.callStarted)
    && (!Capturing(s.status) ==> s.buffer == [])
    && (s.pausePending <==> s.status == PAUSING)
    && (s.pausePending ==> s.stopStatus.Some? && Stopped(s.stopStatus.value))
    && (Stopped(s.status) || s.status == PAUSING ==> !s.capabilityActive)
    && (Stopped(s.status) ==> Queue(s) == [] && s.inFlight == 0)
  }

  ghost predicate Coupled(s: Session) {
    if s.closed then Closed(s)
    else Open(s) && |s.buffer| < CHUNK_BYTES && (Live(s) || NotStarted(s) || Over(s)) && Orderly(s)
  }

  /** Nothing is lost while the session is not cancelled, and in-flight chunks are those not yet acknowledged. */
  ghost predicate Consistent(w: World) {
    && Coupled(w.s)
    && |w.yielded| == w.s.inFlight + w.acknowledged
    && (!w.s.closed ==> Audio(w.yielded) + Held(w.s) == w.admitted)
  }

  function Call(s: Session, op: Op): (Session, Outcome)
    requires |s.buffer| <= CHUNK_BYTES
  {
    match op
    case OpStart(now) => Start(s, now)
    case OpReadiness(readiness, own) => SetReadiness(s, readiness, own)
    case OpPcm(pcm, captured, arrived, generation) => AcceptPcm(s, pcm, captured, arrived, generation)
    case OpPause(own, now, flush) => Pause(s, own, now, flush)
    case OpFailCapture(own, status, now) => FailCapture(s, own, status, now)
    case OpResume(own, isNew, authorizes) => Resume(s, own, isNew, authorizes)
    case OpReconnecting(expected) => MarkReconnecting(s, expected)
    case OpAcknowledge(own) => Acknowledge(s, own)
    case OpFinish(own, now, flush) => FinishCall(s, own, now, flush)
    case OpIterate(cancelled, now) =>
      var (t, turn) := Iterate(s, cancelled, now);
      (t, if turn.Failure? then Raised(turn.error) else Done(turn.Yield?))
    case OpClose(reason, now) => Close(s, reason, now)
    case OpFail(now) => FailSession(s, now)
    case OpRevoke => (s.(capabilityActive := false), Done(true))
  }

  /** The audio a call took responsibility for: relayed PCM, or what the normaliser flushed into a started call. */
  function AdmittedBy(s: Session, op: Op, outcome: Outcome): Bytes {
    if outcome != Done(true) then []
    else match op
      case OpPcm(pcm, _, _, _) => pcm
      case OpPause(_, _, flush) => if s.callStarted && flush.Flushed? then Flatten(flush.items) else []
      case OpFinish(_, _, flush) => if s.capabilityActive && flush.Flushed? then Flatten(flush.items) else []
      case _ => []
  }

  function YieldedBy(s: Session, op: Op): seq<B.Chunk> {
    if !op.OpIterate? then []
    else
      var turn := Iterate(s, op.cancelled, op.now).1;
      if turn.Yield? then [turn.chunk] else []
  }

  function Step(w: World, op: Op): World
    requires |w.s.buffer| <= CHUNK_BYTES
  {
    var (t, outcome) := Call(w.s, op);
    World(t, w.admitted + AdmittedBy(w.s, op, outcome), w.yielded + YieldedBy(w.s, op),
          if op.OpAcknowledge? && outcome == Done(true) then w.acknowledged + 1 else w.acknowledged)
  }

  // ----- Preservation -----

  /** The session side of a step: how the audio held relates to what was admitted and yielded. */
  ghost predicate Balanced(s: Session, t: Session, admitted: Bytes, yielded: seq<B.Chunk>) {
    !t.closed ==> !s.closed && Audio(yielded) + Held(t) == Held(s) + admitted
  }

  lemma {:induction false} TakenIn(s: Session, t: Session, admitted: Bytes)
    requires !t.closed ==> !s.closed && Held(t) == Held(s) + admitted
    ensures Balanced(s, t, admitted, [])
  {
  }

  lemma {:induction false} SameHeld(s: Session, t: Session)
    requires Queue(t) == Queue(s) && t.buffer == s.buffer && (s.closed ==> t.closed)
    ensures Held(t) == Held(s) && Balanced(s, t, [], [])
  {
  }

  lemma {:induction false} FirstStart(s: Session, now: int)
    requires Coupled(s) && Authorized(s) && !s.callStarted
    ensures var (b, a) := B.Accept(s.boundary, EventOf(s, B.START, now, now, 0.0, [], None));
      && a.status == B.ACCEPTED
      && Live(s.(boundary := b, sequence := s.sequence + 1, callStarted := true))
      && b.active[KeyOf(s)].queue == [] && b.limits == s.boundary.limits
  {
  }

  lemma {:induction false} StartCoupled(s: Session, now: int)
    requires Coupled(s)
    ensures var (t, outcome) := Start(s, now);
      && Coupled(t) && t.inFlight == s.inFlight && t.generation == s.generation
      && Queue(t) == Queue(s) && t.buffer == s.buffer && t.closed == s.closed
      && (outcome == Done(true) ==> t.status == READY && Live(t) && Authorized(t))
      && (outcome.Raised? ==> t == s && outcome.error in {CapabilityRevoked, AsrNotReady, NotStartable})
  {
    if Authorized(s) && !s.callStarted {
      FirstStart(s, now);
    }
  }

  lemma {:induction false} EnsureStartedCoupled(s: Session, now: int)
    requires Coupled(s)
    ensures var (t, outcome) := EnsureStarted(s, now);
      && Coupled(t) && t.inFlight == s.inFlight && t.generation == s.generation
      && Queue(t) == Queue(s) && t.buffer == s.buffer && t.closed == s.closed
  {
    StartCoupled(s, now);
  }

  /** Audio taken by a session that is streaming. */
  lemma {:induction false} StreamingPcm(t: Session, pcm: Bytes, captured: int, arrived: int)
    requires Coupled(t) && Authorized(t) && (t.status == READY || t.status == STREAMING) && |pcm| % 2 == 0
    ensures var (u, error) := Append(t, pcm, arrived, captured);
      && u.inFlight == t.inFlight
      && (error.Some? ==> error.value == ChunkRejected)
      && (if u.closed then Coupled(u)
          else error.None? && Coupled(u.(status := STREAMING)) && Held(u) == Held(t) + pcm
               && u.generation == t.generation)
  {
    AppendLive(t, pcm, arrived, captured);
  }

  /** The audio a started stream takes in, weighed against the session before the call. */
  lemma {:induction false} PcmTaken(s: Session, t: Session, pcm: Bytes, captured: int, arrived: int)
    requires Coupled(t) && Authorized(t) && (t.status == READY || t.status == STREAMING) && |pcm| % 2 == 0
    requires !s.closed && Held(t) == Held(s) && t.inFlight == s.inFlight && t.generation == s.generation
    ensures var (u, error) := Append(t, pcm, arrived, captured);
      var v := u.(status := STREAMING);
      && u.inFlight == s.inFlight
      && (if u.closed then Coupled(u) && Balanced(s, u, [], [])
          else error.None? && Coupled(v) && Balanced(s, v, pcm, []) && v.generation == s.generation)
  {
    hide Coupled;
    hide Append;
    hide Audio;
    CoupledFits(t);
    StreamingPcm(t, pcm, captured, arrived);
    var u := Append(t, pcm, arrived, captured).0;
    if !u.closed {
      assert Held(u.(status := STREAMING)) == Held(u);
      TakenIn(s, u.(status := STREAMING), pcm);
    }
  }

  lemma {:induction false} PcmCoupled(s: Session, pcm: Bytes, captured: int, arrived: int, generation: nat)
    requires Coupled(s)
    ensures var (t, outcome) := AcceptPcm(s, pcm, captured, arrived, generation);
      && Coupled(t) && t.inFlight == s.inFlight
      && Balanced(s, t, if outcome == Done(true) then pcm else [], [])
      && (outcome == Done(true) ==> !t.closed && t.generation == s.generation)
  {
    hide Coupled;
    hide EnsureStarted;
    hide Append;
    hide Balanced;
    hide Held;
    CoupledFits(s);
    SameHeld(s, s);
    var t := EnsureStarted(s, arrived).0;
    EnsureStartedCoupled(s, arrived);
    SameHeld(s, t);
    if Authorized(t) && (t.status == READY || t.status == STREAMING) && |pcm| % 2 == 0 {
      PcmTaken(s, t, pcm, Min(captured, arrived), arrived);
    }
  }

  lemma {:induction false} PcmErrors(s: Session, pcm: Bytes, captured: int, arrived: int, generation: nat)
    requires Coupled(s)
    ensures AcceptPcm(s, pcm, captured, arrived, generation).1
      !in {Raised(EndRejected), Raised(StartRejected), Raised(PreviousCapabilityActive)}
  {
    hide Orderly;
    hide Live;
    hide NotStarted;
    hide Over;
    hide Append;
    hide Held;
    StartCoupled(s, arrived);
    EnsureStartedCoupled(s, arrived);
    var t := EnsureStarted(s, arrived).0;
    if Authorized(t) && (t.status == READY || t.status == STREAMING) && |pcm| % 2 == 0 {
      StreamingPcm(t, pcm, Min(captured, arrived), arrived);
    }
  }

  /** Once drained and acknowledged, a stop settles into its final status. */
  lemma {:induction false} SettledStop(s: Session)
    requires !s.closed && Open(s) && s.buffer == [] && (Live(s) || NotStarted(s) || Over(s))
    requires s.status == PAUSING ==> s.pausePending
    requires s.pausePending ==> s.status == PAUSING && s.stopStatus.Some? && Stopped(s.stopStatus.value)
                                && !s.capabilityActive && s.endReason.None? && s.terminalStatus.None? && !s.endEmitted
    requires s.status != PAUSING ==> Orderly(s)
    ensures Coupled(FinishStopIfDrained(s))
  {
    if s.pausePending && NothingRetained(s.boundary) && KeyOf(s) in s.boundary.active {
      assert s.boundary.active[KeyOf(s)].queue == [];
    }
  }

  lemma {:induction false} StopCoupled(s: Session, own: bool, finalStatus: Status, now: int, flush: Option<Flush>)
    requires Coupled(s) && Stopped(finalStatus)
    ensures var (t, outcome) := StopCapture(s, own, finalStatus, now, flush);
      && Coupled(t) && t.inFlight == s.inFlight
      && Balanced(s, t, if outcome == Done(true) && s.callStarted then Flatten(FlushedItems(flush)) else [], [])
  {
    SameHeld(s, s);
    if !s.closed && s.status != PAUSING && s.status != PAUSED && s.capabilityActive {
      StopRuns(s, finalStatus, now, flush);
    }
  }

  lemma {:induction false} StopFlushes(s: Session, items: seq<PcmItem>, now: int, stopped: Status)
    requires Coupled(s) && Stopped(stopped)
    requires !s.closed && s.status != PAUSING && s.status != PAUSED && s.capabilityActive
    ensures var v := Stopping(FlushOut(s.(status := PAUSING), items, now), stopped);
      && v.inFlight == s.inFlight
      && (if v.closed then Closed(v)
          else Open(v) && v.buffer == [] && (Live(v) || NotStarted(v)) && v.status == PAUSING
               && v.pausePending && v.stopStatus.Some? && Stopped(v.stopStatus.value) && !v.capabilityActive
               && v.endReason.None? && v.terminalStatus.None? && !v.endEmitted
               && Held(v) == Held(s) + (if s.callStarted then Flatten(items) else []))
  {
    var p := s.(status := PAUSING);
    assert Held(p) == Held(s) by { assert Queue(p) == Queue(s); }
    if Live(s) {
      FlushLive(p, items, now);
      var f := FlushOut(p, items, now);
      assert Queue(Stopping(f, stopped)) == Queue(f.0);
    } else {
      FlushDead(p, items, now);
      assert Held(s) + [] == Held(s);
    }
  }

  lemma {:induction false} StopRuns(s: Session, finalStatus: Status, now: int, flush: Option<Flush>)
    requires Coupled(s) && Stopped(finalStatus)
    requires !s.closed && s.status != PAUSING && s.status != PAUSED && s.capabilityActive
    ensures var t := StopCapture(s, true, finalStatus, now, flush).0;
      && Coupled(t) && t.inFlight == s.inFlight
      && Balanced(s, t, if s.callStarted then Flatten(FlushedItems(flush)) else [], [])
  {
    var items := FlushedItems(flush);
    var stopped := if flush == Some(FlushRaised) then FAILED else finalStatus;
    var v := Stopping(FlushOut(s.(status := PAUSING), items, now), stopped);
    StopFlushes(s, items, now, stopped);
    var t := FinishStopIfDrained(v);
    assert t == StopCapture(s, true, finalStatus, now, flush).0;
    if !v.closed {
      SettledStop(v);
      assert Held(t) == Held(v) by { assert Queue(t) == Queue(v); }
    }
    TakenIn(s, t, if s.callStarted then Flatten(items) else []);
  }

  lemma {:induction false} ResumeCoupled(s: Session, own: bool, isNew: bool, authorizes: bool)
    requires Coupled(s)
    ensures var (t, outcome) := Resume(s, own, isNew, authorizes);
      && Coupled(t) && Balanced(s, t, [], []) && t.inFlight == s.inFlight
      && (outcome == Done(true) ==> t.generation == s.generation + 1)
      && outcome != Raised(PreviousCapabilityActive)
  {
    SameHeld(s, Resume(s, own, isNew, authorizes).0);
  }

  lemma {:induction false} AcknowledgeCoupled(s: Session, own: bool)
    requires Coupled(s)
    ensures var (t, outcome) := Acknowledge(s, own);
      && Coupled(t) && Balanced(s, t, [], [])
      && t.inFlight == (if outcome == Done(true) then s.inFlight - 1 else s.inFlight)
  {
    var (t, outcome) := Acknowledge(s, own);
    SameHeld(s, t);
    if outcome == Done(true) && s.pausePending {
      SettledStop(s.(inFlight := s.inFlight - 1));
    }
  }

  lemma {:induction false} FinishCoupled(s: Session, own: bool, now: int, flush: Flush)
    requires Coupled(s)
    ensures var (t, outcome) := FinishCall(s, own, now, flush);
      && Coupled(t) && t.inFlight == s.inFlight
      && Balanced(s, t, if outcome == Done(true) && s.capabilityActive && flush.Flushed? then Flatten(flush.items)
                  else [], [])
      && outcome != Raised(EndRejected)
  {
    SameHeld(s, s);
    if s.endReason.Some? || s.closed || !own {
    } else if (s.capabilityActive && flush.FlushRaised?) || s.boundary.active.Keys == {} {
      CancelCloses(s, Failed, now);
      CancelCloses(s, CompletedEnd, now);
    } else {
      FinishDrains(s, now, flush);
    }
  }

  /** A finished, fully drained call ends at once, holding nothing. */
  lemma {:induction false} FinishEnds(u: Session, now: int)
    requires Open(u) && Live(u) && u.buffer == [] && u == Finishing(u)
    ensures Coupled(u)
    ensures NothingRetained(u.boundary) ==>
      EmitEnd(u, now).1.None? && Coupled(EmitEnd(u, now).0) && Held(EmitEnd(u, now).0) == Held(u)
  {
    if NothingRetained(u.boundary) {
      assert KeyOf(u) in u.boundary.active.Keys && Queue(u) == [];
      EndIsAccepted(u, now);
      assert Queue(EmitEnd(u, now).0) == [];
    }
  }

  lemma {:induction false} FinishDrains(s: Session, now: int, flush: Flush)
    requires Coupled(s) && !s.closed && s.endReason.None? && Live(s)
    requires s.capabilityActive ==> flush.Flushed?
    ensures var (t, outcome) := FinishCall(s, true, now, flush);
      && Coupled(t) && t.inFlight == s.inFlight
      && (!t.closed ==> outcome == Done(true))
      && Balanced(s, t, if s.capabilityActive then Flatten(flush.items) else [], [])
      && outcome != Raised(EndRejected)
  {
    var items := if s.capabilityActive then flush.items else [];
    FlushLive(s, items, now);
    var (f, error) := FlushOut(s, items, now);
    var t := FinishCall(s, true, now, flush).0;
    if !f.closed {
      assert Held(Finishing(f)) == Held(f) by { assert Queue(Finishing(f)) == Queue(f); }
      FinishEnds(Finishing(f), now);
    }
    TakenIn(s, t, Flatten(items));
  }

  lemma {:induction false} TakeOne(s: Session)
    requires Open(s) && Live(s) && Queue(s) != []
    ensures var (b, drained) := B.Drain(s.boundary, s.tenantId, PROVIDER, KeyOf(s), 1);
      var t := s.(boundary := b, inFlight := s.inFlight + 1);
      && drained == B.Drain(s.boundary, s.tenantId, PROVIDER, KeyOf(s), 1).1
      && drained.Ok? && drained.value == [Queue(s)[0]]
      && Live(t) && Queue(t) == Queue(s)[1..] && b.limits == s.boundary.limits
  {
  }

  lemma {:induction false} IterateCoupled(s: Session, cancelled: bool, now: int)
    requires Coupled(s)
    ensures var (t, turn) := Iterate(s, cancelled, now);
      && Coupled(t) && Balanced(s, t, [], if turn.Yield? then [turn.chunk] else [])
      && t.inFlight == (if turn.Yield? then s.inFlight + 1 else s.inFlight)
      && !turn.Failure?
  {
    SameHeld(s, s);
    if s.closed {
    } else if cancelled {
      CancelCloses(s, ResourceClosed, now);
    } else if Live(s) && Queue(s) != [] {
      IterateYields(s, now);
    } else if Live(s) && s.endReason.Some? {
      IterateEnds(s, now);
    } else {
      IterateIdles(s, now);
    }
  }

  lemma {:induction false} IterateYields(s: Session, now: int)
    requires Coupled(s) && !s.closed && Live(s) && Queue(s) != []
    ensures var (t, turn) := Iterate(s, false, now);
      turn == Yield(Queue(s)[0]) && t.inFlight == s.inFlight + 1 && Coupled(t) && Balanced(s, t, [], [turn.chunk])
  {
    hide Audio;
    hide Live;
    hide Queue;
    hide Orderly;
    hide B.Drain;
    TakeOne(s);
    var t := Iterate(s, false, now).0;
    HeadYielded(Queue(s));
    TakenCoupled(s, t);
    var c, rest := Queue(s)[0], Queue(s)[1..];
    assert Audio([c]) + (Audio(rest) + s.buffer) == Audio(Queue(s)) + s.buffer;
    assert Held(s) + [] == Held(s);
  }

  lemma {:induction false} TakenCoupled(s: Session, t: Session)
    requires Coupled(s) && !s.closed && Live(s) && Live(t) && Queue(s) != []
    requires t == s.(boundary := t.boundary, inFlight := t.inFlight) && t.boundary.limits == s.boundary.limits
    ensures Coupled(t)
  {
    hide Live;
  }

  lemma {:induction false} HeadYielded(queue: seq<B.Chunk>)
    requires queue != []
    ensures Audio(queue) == Audio([queue[0]]) + Audio(queue[1..])
  {
    assert queue == [queue[0]] + queue[1..];
    AudioAppend([queue[0]], queue[1..]);
  }

  lemma {:induction false} IterateEnds(s: Session, now: int)
    requires Coupled(s) && !s.closed && Live(s) && Queue(s) == [] && s.endReason.Some?
    ensures var (t, turn) := Iterate(s, false, now);
      turn == Stop && t.inFlight == s.inFlight && Coupled(t) && Balanced(s, t, [], [])
  {
    IterateIdles(s, now);
    EndIsAccepted(s, now);
    var t := EmitEnd(s, now).0;
    assert Queue(t) == [];
    SameHeld(s, t);
  }

  lemma {:induction false} IterateIdles(s: Session, now: int)
    requires Coupled(s) && !s.closed && Queue(s) == []
    ensures Iterate(s, false, now)
      == (if s.endReason.Some? then
          (EmitEnd(s, now).0, if EmitEnd(s, now).1.Some? then Failure(EmitEnd(s, now).1.value) else Stop)
                                       else if s.endEmitted then (s, Stop) else (s, Wait))
  {
  }

  lemma {:induction false} CloseCoupled(s: Session, reason: TerminalReason, now: int)
    requires Coupled(s)
    ensures var (t, outcome) := Close(s, reason, now);
      Coupled(t) && t.closed && t.inFlight == s.inFlight && outcome == Done(true)
  {
    if !s.closed {
      CancelCloses(s, reason, now);
    }
  }

  /** The joint invariant survives a call, and the audio balance and the in-flight count come out even. */
  ghost predicate Sound(s: Session, op: Op)
    requires |s.buffer| <= CHUNK_BYTES
  {
    var (t, outcome) := Call(s, op);
    && Coupled(t)
    && Balanced(s, t, AdmittedBy(s, op, outcome), YieldedBy(s, op))
    && t.inFlight + (if op.OpAcknowledge? && outcome == Done(true) then 1 else 0) == s.inFlight + |YieldedBy(s, op)|
  }

  lemma {:induction false} CaptureCallsAreSound(s: Session, op: Op)
    requires Coupled(s)
    requires op.OpStart? || op.OpPcm? || op.OpPause? || op.OpFailCapture? || op.OpResume?
    ensures Sound(s, op)
  {
    hide StopCapture;
    hide AcceptPcm;
    hide Start;
    hide Resume;
    hide Live;
    hide NotStarted;
    hide Over;
    hide Orderly;
    hide Balanced;
    SameHeld(s, s);
    match op
    case OpStart(now) =>
      StartCoupled(s, now);
      SameHeld(s, Start(s, now).0);
    case OpPcm(pcm, captured, arrived, generation) => PcmCoupled(s, pcm, captured, arrived, generation);
    case OpPause(own, now, flush) => StopCoupled(s, own, PAUSED, now, Some(flush));
    case OpFailCapture(own, status, now) =>
      if CaptureFailure(status) {
        StopCoupled(s, own, status, now, None);
        assert Flatten(FlushedItems(None)) == [];
      }
    case OpResume(own, isNew, authorizes) => ResumeCoupled(s, own, isNew, authorizes);
  }

  lemma {:induction false} FailedReadiness(s: Session)
    requires Coupled(s)
    ensures Coupled(s.(readiness := ASR_FAILED))
    ensures Queue(s.(readiness := ASR_FAILED)) == Queue(s) && Held(s.(readiness := ASR_FAILED)) == Held(s)
  {
  }

  lemma {:induction false} ClosingIsSound(s: Session, op: Op)
    requires Coupled(s) && (op.OpClose? || op.OpFail?)
    ensures Sound(s, op)
  {
    hide Coupled;
    hide Cancel;
    CoupledFits(s);
    if op.OpClose? {
      CloseCoupled(s, op.reason, op.now);
    } else {
      FailedCoupled(s, op.now);
    }
  }

  lemma {:induction false} FailedCoupled(s: Session, now: int)
    requires Coupled(s)
    ensures var (t, outcome) := FailSession(s, now);
      Coupled(t) && t.closed && t.inFlight == s.inFlight && outcome == Done(true)
  {
    hide Coupled;
    hide Cancel;
    FailedReadiness(s);
    CloseCoupled(s.(readiness := ASR_FAILED), Failed, now);
  }

  lemma {:induction false} EndingCallsAreSound(s: Session, op: Op)
    requires Coupled(s)
    requires op.OpFinish? || op.OpIterate? || op.OpClose? || op.OpFail?
    ensures Sound(s, op)
  {
    hide FinishCall;
    hide Iterate;
    hide Cancel;
    hide Balanced;
    hide Coupled;
    CoupledFits(s);
    match op
    case OpFinish(own, now, flush) => FinishCoupled(s, own, now, flush);
    case OpIterate(cancelled, now) => IterateCoupled(s, cancelled, now);
    case _ => ClosingIsSound(s, op);
  }

  lemma {:induction false} FlagCallsAreSound(s: Session, op: Op)
    requires Coupled(s)
    requires op.OpReadiness? || op.OpReconnecting? || op.OpRevoke?
    ensures Sound(s, op)
  {
    hide Coupled;
    hide Balanced;
    hide AcceptPcm;
    hide StopCapture;
    hide FinishCall;
    hide Iterate;
    hide Start;
    hide Resume;
    hide Cancel;
    CoupledFits(s);
    var t := Call(s, op).0;
    match op
    case OpReadiness(readiness, own) => FlagsChange(s, t);
    case OpReconnecting(expected) => FlagsChange(s, t);
    case OpRevoke => FlagsChange(s, t);
  }

  lemma {:induction false} CoupledFits(s: Session)
    requires Coupled(s)
    ensures |s.buffer| <= CHUNK_BYTES
  {
  }

  /** Flags may change; a status may change only from capturing to reconnecting. */
  lemma {:induction false} FlagsChange(s: Session, t: Session)
    requires Coupled(s)
    requires t == s.(status := t.status, readiness := t.readiness, capabilityActive := t.capabilityActive,
                     reconnectCount := t.reconnectCount)
    requires t.capabilityActive ==> s.capabilityActive
    requires t.status == s.status ||
      (!s.closed && (s.status == READY || s.status == STREAMING) && t.status == RECONNECTING && s.capabilityActive)
    ensures Coupled(t) && Balanced(s, t, [], [])
  {
    hide Held;
    hide Live;
    hide NotStarted;
    hide Over;
    StreamFrame(s, t);
    SameHeld(s, t);
  }

  /** Status, readiness, capability and the reconnect count are no part of what ties session and stream. */
  lemma {:induction false} StreamFrame(s: Session, t: Session)
    requires t == s.(status := t.status, readiness := t.readiness, capabilityActive := t.capabilityActive,
                     reconnectCount := t.reconnectCount)
    ensures (Live(t) <==> Live(s)) && (NotStarted(t) <==> NotStarted(s)) && (Over(t) <==> Over(s))
    ensures Queue(t) == Queue(s)
  {
  }

  lemma {:induction false} AcknowledgeIsSound(s: Session, own: bool)
    requires Coupled(s)
    ensures Sound(s, OpAcknowledge(own))
  {
    AcknowledgeCoupled(s, own);
  }

  lemma {:induction false} CallCoupled(s: Session, op: Op)
    requires Coupled(s)
    ensures Sound(s, op)
  {
    if op.OpStart? || op.OpPcm? || op.OpPause? || op.OpFailCapture? || op.OpResume? {
      CaptureCallsAreSound(s, op);
    } else if op.OpFinish? || op.OpIterate? || op.OpClose? || op.OpFail? {
      EndingCallsAreSound(s, op);
    } else if op.OpAcknowledge? {
      AcknowledgeIsSound(s, op.ownResource);
    } else {
      FlagCallsAreSound(s, op);
    }
  }

  lemma {:induction false} StepConsistent(w: World, op: Op)
    requires Consistent(w)
    ensures Consistent(Step(w, op))
  {
    CallCoupled(w.s, op);
    var (t, outcome) := Call(w.s, op);
    if !t.closed {
      BalanceCarries(w, t, AdmittedBy(w.s, op, outcome), YieldedBy(w.s, op));
    }
  }

  lemma {:induction false} BalanceCarries(w: World, t: Session, admitted: Bytes, yielded: seq<B.Chunk>)
    requires !w.s.closed && !t.closed && Audio(w.yielded) + Held(w.s) == w.admitted
    requires Balanced(w.s, t, admitted, yielded)
    ensures Audio(w.yielded + yielded) + Held(t) == w.admitted + admitted
  {
    AudioAppend(w.yielded, yielded);
    assert Audio(w.yielded) + Audio(yielded) + Held(t) == Audio(w.yielded) + (Audio(yielded) + Held(t));
    assert Audio(w.yielded) + (Held(w.s) + admitted) == Audio(w.yielded) + Held(w.s) + admitted;
  }

  function Initial(tenantId: string, callId: string, streamId: string, maxQueue: nat): World {
    World(Fresh(tenantId, callId, streamId, maxQueue), [], [], 0)
  }

  lemma {:induction false} InitialConsistent(tenantId: string, callId: string, streamId: string, maxQueue: nat)
    requires maxQueue > 0
    ensures Consistent(Initial(tenantId, callId, streamId, maxQueue))
  {
  }

  ghost function Run(w: World, ops: seq<Op>): (end: World)
    requires Consistent(w)
    ensures Consistent(end)
    decreases |ops|
  {
    if ops == [] then w
    else
      StepConsistent(w, ops[0]);
      Run(Step(w, ops[0]), ops[1..])
  }

  /** The outcome of a run from a new session with a positive queue limit. */
  ghost predicate Reachable(w: World) {
    exists tenantId, callId, streamId, maxQueue: nat, ops ::
      maxQueue > 0 && RunsTo(tenantId, callId, streamId, maxQueue, ops, w)
  }

  ghost predicate RunsTo(tenantId: string, callId: string, streamId: string, maxQueue: nat, ops: seq<Op>, w: World)
    requires maxQueue > 0
  {
    InitialConsistent(tenantId, callId, streamId, maxQueue);
    w == Run(Initial(tenantId, callId, streamId, maxQueue), ops)
  }

  lemma {:induction false} ConsistentFits(w: World)
    requires Consistent(w)
    ensures |w.s.buffer| <= CHUNK_BYTES
  {
  }

  lemma {:induction false} RunSnoc(w: World, ops: seq<Op>, op: Op)
    requires Consistent(w)
    ensures Run(w, ops + [op]) == Step(Run(w, ops), op)
    decreases |ops|
  {
    hide Consistent;
    hide Step;
    ConsistentFits(w);
    ConsistentFits(Run(w, ops));
    if ops == [] {
      assert [] + [op] == [op];
      StepConsistent(w, op);
      assert Run(Step(w, op), []) == Step(w, op);
    } else {
      assert (ops + [op])[1..] == ops[1..] + [op];
      StepConsistent(w, ops[0]);
      RunSnoc(Step(w, ops[0]), ops[1..], op);
    }
  }

  /** Reachability is kept by one more call. */
  lemma {:induction false} StepIsReachable(w: World, op: Op)
    requires Reachable(w)
    ensures |w.s.buffer| <= CHUNK_BYTES && Reachable(Step(w, op))
  {
    hide Consistent;
    hide Step;
    var tenantId, callId, streamId, maxQueue: nat, ops :|
      maxQueue > 0 && RunsTo(tenantId, callId, streamId, maxQueue, ops, w);
    InitialConsistent(tenantId, callId, streamId, maxQueue);
    ConsistentFits(w);
    RunSnoc(Initial(tenantId, callId, streamId, maxQueue), ops, op);
    assert RunsTo(tenantId, callId, streamId, maxQueue, ops + [op], Step(w, op));
  }

  lemma {:induction false} InitialIsReachable(tenantId: string, callId: string, streamId: string, maxQueue: nat)
    requires maxQueue > 0
    ensures Reachable(Initial(tenantId, callId, streamId, maxQueue))
  {
    InitialConsistent(tenantId, callId, streamId, maxQueue);
    assert RunsTo(tenantId, callId, streamId, maxQueue, [], Initial(tenantId, callId, streamId, maxQueue));
  }
}
