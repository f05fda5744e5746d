/** What every run of the session guarantees. */
module SessionTheorems {
  import opened Common
  import B = IngressBoundary
  import opened SessionModel
  import opened SessionInvariant
  import opened SessionRuns

  lemma {:induction false} ReachableIsConsistent(w: World)
    requires Reachable(w)
    ensures Consistent(w)
  {
    var tenantId, callId, streamId, maxQueue: nat, ops :|
      maxQueue > 0 && RunsTo(tenantId, callId, streamId, maxQueue, ops, w);
    InitialConsistent(tenantId, callId, streamId, maxQueue);
    assert w == Run(Initial(tenantId, callId, streamId, maxQueue), ops);
  }

  /**
    Lockstep. While the stream is active the session and the boundary hold the same sequence
    number and format for the one stream there is; otherwise the boundary has no stream at all.
   */
  lemma {:induction false} CountersAgree(w: World)
    requires Reachable(w)
    ensures w.s.callStarted && !w.s.endEmitted ==>
      && w.s.boundary.active.Keys == {KeyOf(w.s)}
      && w.s.boundary.active[KeyOf(w.s)].next == w.s.sequence
      && OwnFormat(w.s, w.s.boundary.active[KeyOf(w.s)])
    ensures !(w.s.callStarted && !w.s.endEmitted) ==> w.s.boundary.active == map[]
  {
    ReachableIsConsistent(w);
  }

  /** No call, in any reachable state, has its START or END turned down by the boundary. */
  lemma {:induction false} ControlIsNeverRejected(w: World, op: Op)
    requires Reachable(w)
    ensures |w.s.buffer| <= CHUNK_BYTES
    ensures Call(w.s, op).1 !in {Raised(EndRejected), Raised(StartRejected), Raised(PreviousCapabilityActive)}
  {
    ReachableIsConsistent(w);
    if op.OpFinish? || op.OpIterate? || op.OpClose? || op.OpFail? {
      EndingErrors(w.s, op);
    } else {
      CaptureErrors(w.s, op);
    }
  }

  lemma {:induction false} EndingErrors(s: Session, op: Op)
    requires Coupled(s) && (op.OpFinish? || op.OpIterate? || op.OpClose? || op.OpFail?)
    ensures Call(s, op).1 !in {Raised(EndRejected), Raised(StartRejected), Raised(PreviousCapabilityActive)}
  {
    hide FinishCall;
    hide Iterate;
    hide Cancel;
    hide Live;
    hide NotStarted;
    hide Over;
    hide Orderly;
    match op
    case OpFinish(own, now, flush) =>
      FinishCoupled(s, own, now, flush);
      FinishErrors(s, own, now, flush);
    case OpIterate(cancelled, now) => IterateCoupled(s, cancelled, now);
    case OpClose(reason, now) => CloseCoupled(s, reason, now);
    case OpFail(now) =>
      FailedReadiness(s);
      CloseCoupled(s.(readiness := ASR_FAILED), Failed, now);
  }

  lemma {:induction false} CaptureErrors(s: Session, op: Op)
    requires Coupled(s) && !op.OpFinish? && !op.OpIterate? && !op.OpClose? && !op.OpFail?
    ensures Call(s, op).1 !in {Raised(EndRejected), Raised(StartRejected), Raised(PreviousCapabilityActive)}
  {
    hide AcceptPcm;
    hide Live;
    hide NotStarted;
    hide Over;
    match op
    case OpStart(now) => StartCoupled(s, now);
    case OpPcm(pcm, captured, arrived, generation) => PcmErrors(s, pcm, captured, arrived, generation);
    case OpResume(own, isNew, authorizes) => ResumeCoupled(s, own, isNew, authorizes);
    case _ =>
  }

  lemma {:induction false} FinishErrors(s: Session, own: bool, now: int, flush: Flush)
    requires Coupled(s)
    ensures FinishCall(s, own, now, flush).1 !in {Raised(EndRejected), Raised(StartRejected),
                                                  Raised(PreviousCapabilityActive)}
  {
    FinishCoupled(s, own, now, flush);
    if !s.closed && s.endReason.None? && own {
      if (s.capabilityActive && flush.FlushRaised?) || s.boundary.active.Keys == {} {
        CancelCloses(s, Failed, now);
        CancelCloses(s, CompletedEnd, now);
      } else {
        var items := if s.capabilityActive then flush.items else [];
        FlushLive(s, items, now);
        var f := FlushOut(s, items, now).0;
        if !f.closed {
          assert Queue(Finishing(f)) == Queue(f);
          FinishEnds(Finishing(f), now);
        }
      }
    }
  }

  /** END is emitted at most once and nothing follows it: the boundary and the counter are final. */
  lemma {:induction false} NothingFollowsEnd(w: World, op: Op)
    requires Reachable(w) && w.s.endEmitted
    ensures |w.s.buffer| <= CHUNK_BYTES
    ensures var t := Call(w.s, op).0;
      t.endEmitted && t.boundary == w.s.boundary && t.sequence == w.s.sequence
    ensures YieldedBy(w.s, op) == []
  {
    ReachableIsConsistent(w);
    EndedIsUnauthorized(w.s);
    if op.OpFinish? || op.OpIterate? || op.OpClose? || op.OpFail? {
      EndedStaysEnded(w.s, op);
    } else {
      EndedIgnoresCapture(w.s, op);
    }
  }

  /** After END there is no stream, no capability, and a reason on record. */
  ghost predicate Settled(s: Session) {
    && s.endEmitted && s.endReason.Some? && !s.capabilityActive
    && s.boundary.active == map[] && |s.buffer| <= CHUNK_BYTES
  }

  lemma {:induction false} EndedIsUnauthorized(s: Session)
    requires Coupled(s) && s.endEmitted
    ensures Settled(s)
  {
  }

  lemma {:induction false} EndedStaysEnded(s: Session, op: Op)
    requires Settled(s) && (op.OpFinish? || op.OpIterate? || op.OpClose? || op.OpFail?)
    ensures var t := Call(s, op).0; t.endEmitted && t.boundary == s.boundary && t.sequence == s.sequence
    ensures YieldedBy(s, op) == []
  {
    hide FlushOut;
    match op
    case OpFinish(own, now, flush) =>
    case OpIterate(cancelled, now) =>
    case OpClose(reason, now) =>
    case OpFail(now) =>
  }

  lemma {:induction false} EndedIgnoresCapture(s: Session, op: Op)
    requires Settled(s) && !op.OpFinish? && !op.OpIterate? && !op.OpClose? && !op.OpFail?
    ensures var t := Call(s, op).0; t.endEmitted && t.boundary == s.boundary && t.sequence == s.sequence
    ensures YieldedBy(s, op) == []
  {
    hide FlushOut;
    hide Append;
    match op
    case OpPcm(pcm, captured, arrived, generation) =>
    case OpPause(own, now, flush) =>
    case OpResume(own, isNew, authorizes) =>
    case _ =>
  }

  /**
    No loss short of cancellation: what the consumer received, then what is queued and
    buffered, is all the audio admitted, in order.
   */
  lemma {:induction false} NoAudioIsLost(w: World)
    requires Reachable(w) && !w.s.closed
    ensures Audio(w.yielded) + Audio(Queue(w.s)) + w.s.buffer == w.admitted
  {
    hide Live;
    hide NotStarted;
    hide Over;
    hide Orderly;
    hide Audio;
    hide Queue;
    ReachableIsConsistent(w);
    assert Audio(w.yielded) + (Audio(Queue(w.s)) + w.s.buffer) == Audio(w.yielded) + Audio(Queue(w.s)) + w.s.buffer;
  }

  /** A call that ended without being cancelled delivered every admitted byte before its END. */
  lemma {:induction false} FinishIsLossless(w: World)
    requires Reachable(w) && !w.s.closed && w.s.endEmitted
    ensures Audio(w.yielded) == w.admitted
    ensures w.s.endReason == Some(B.COMPLETED)
  {
    ReachableIsConsistent(w);
    assert Queue(w.s) == [] && w.s.buffer == [];
    assert Audio(w.yielded) + ([] + []) == Audio(w.yielded);
  }

  /** The queue an uncancelled END clears is already empty. */
  lemma {:induction false} EndDiscardsNothing(w: World, op: Op)
    requires Reachable(w) && !w.s.endEmitted
    requires |w.s.buffer| <= CHUNK_BYTES && Call(w.s, op).0.endEmitted && !Call(w.s, op).0.closed
    ensures Audio(w.yielded + YieldedBy(w.s, op)) == w.admitted + AdmittedBy(w.s, op, Call(w.s, op).1)
  {
    ReachableIsConsistent(w);
    StepConsistent(w, op);
    var v := Step(w, op);
    assert Queue(v.s) == [] && v.s.buffer == [];
    assert Audio(v.yielded) + ([] + []) == Audio(v.yielded);
  }

  /**
    Pause barrier. A session that is paused and not cancelled holds nothing: every chunk was
    drained and acknowledged, and the consumer has received all admitted audio.
   */
  lemma {:induction false} PausedMeansDrained(w: World)
    requires Reachable(w) && !w.s.closed && Stopped(w.s.status)
    ensures Queue(w.s) == [] && w.s.buffer == [] && w.s.inFlight == 0
    ensures |w.yielded| == w.acknowledged
    ensures Audio(w.yielded) == w.admitted
    ensures !w.s.capabilityActive
  {
    ReachableIsConsistent(w);
    assert Audio(w.yielded) + ([] + []) == Audio(w.yielded);
  }

  /** Leaving PAUSING by any call is a settled stop, an accepted finish, or a cancellation that shows. */
  lemma {:induction false} PausingSettlesOrCloses(w: World, op: Op)
    requires Reachable(w) && !w.s.closed && w.s.status == PAUSING
    ensures |w.s.buffer| <= CHUNK_BYTES
    ensures var t := Call(w.s, op).0;
      t.status == PAUSED ==> !t.closed && op.OpAcknowledge? && w.s.stopStatus == Some(PAUSED)
  {
    ReachableIsConsistent(w);
    if op.OpFinish? || op.OpIterate? || op.OpClose? || op.OpFail? {
      PausingEnds(w.s, op);
    } else {
      PausingWaits(w.s, op);
    }
  }

  lemma {:induction false} PausingEnds(s: Session, op: Op)
    requires Coupled(s) && !s.closed && s.status == PAUSING
    requires op.OpFinish? || op.OpIterate? || op.OpClose? || op.OpFail?
    ensures Call(s, op).0.status != PAUSED
  {
    hide FinishCall;
    hide Iterate;
    hide Cancel;
    hide Live;
    hide NotStarted;
    hide Over;
    match op
    case OpFinish(own, now, flush) => FinishStatus(s, own, now, flush);
    case OpIterate(cancelled, now) => IterateStatus(s, cancelled, now);
    case OpClose(reason, now) => CancelStatus(s, reason, now);
    case OpFail(now) =>
      FailedReadiness(s);
      CancelStatus(s.(readiness := ASR_FAILED), Failed, now);
  }

  lemma {:induction false} PausingWaits(s: Session, op: Op)
    requires Coupled(s) && !s.closed && s.status == PAUSING
    requires !op.OpFinish? && !op.OpIterate? && !op.OpClose? && !op.OpFail?
    ensures var t := Call(s, op).0;
      t.status == PAUSED ==> !t.closed && op.OpAcknowledge? && s.stopStatus == Some(PAUSED)
  {
    hide FlushOut;
    hide Append;
    hide Live;
    hide NotStarted;
    hide Over;
  }

  lemma {:induction false} CancelStatus(s: Session, reason: TerminalReason, now: int)
    requires Coupled(s) && !s.closed
    ensures Cancel(s, reason, now).0.status != PAUSED
  {
    CancelCloses(s, reason, now);
  }

  lemma {:induction false} FinishStatus(s: Session, own: bool, now: int, flush: Flush)
    requires Coupled(s) && !s.closed && s.status == PAUSING
    ensures FinishCall(s, own, now, flush).0.status != PAUSED
  {
    if own {
      CancelStatus(s, Failed, now);
      CancelStatus(s, CompletedEnd, now);
      if s.boundary.active.Keys != {} {
        assert !s.capabilityActive && s.buffer == [];
        assert FlushOut(s, [], now) == (s, None);
        assert Queue(Finishing(s)) == Queue(s);
        FinishEnds(Finishing(s), now);
      }
    }
  }

  lemma {:induction false} IterateStatus(s: Session, cancelled: bool, now: int)
    requires Coupled(s) && !s.closed && s.status == PAUSING
    ensures Iterate(s, cancelled, now).0.status != PAUSED
  {
    CancelStatus(s, ResourceClosed, now);
  }
}
