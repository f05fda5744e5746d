/**
  The session as the mutable object it is, over its own boundary object. Every method
  is proved to compute the state and outcome SessionModel gives for the same call.
 */
module MicrophoneSession {
  import opened Common
  import B = IngressBoundary
  import opened SessionModel

  class LocalMicrophoneIngressSession {
    const tenantId: string
    const callId: string
    const streamId: string
    const boundary: B.LiveAudioIngressBoundary
    var capabilityActive: bool
    var buffer: Bytes
    var bufferCapturedAt: Option<int>
    var sequence: nat
    var callStarted: bool
    var captureGeneration: nat
    var pauseCount: nat
    var reconnectCount: nat
    var pausePending: bool
    var captureStopStatus: Option<Status>
    var inFlightChunkCount: nat
    var status: Status
    var asrReadiness: Readiness
    var receivedChunkCount: nat
    var endReason: Option<B.EndReason>
    var terminalStatus: Option<Status>
    var endEmitted: bool
    var closed: bool

    constructor (tenantId: string, callId: string, streamId: string, maxQueue: nat)
      requires maxQueue > 0
      ensures Model() == SessionModel.Fresh(tenantId, callId, streamId, maxQueue)
      ensures fresh(boundary)
    {
      this.tenantId, this.callId, this.streamId := tenantId, callId, streamId;
      boundary := new B.LiveAudioIngressBoundary(LimitsFor(tenantId, maxQueue));
      capabilityActive, buffer, bufferCapturedAt, sequence, callStarted := true, [], None, 0, false;
      captureGeneration, pauseCount, reconnectCount, pausePending, captureStopStatus := 1, 0, 0, false, None;
      inFlightChunkCount, status, asrReadiness, receivedChunkCount := 0, PERMISSION_PENDING, PREPARING_MODEL, 0;
      endReason, terminalStatus, endEmitted, closed := None, None, false, false;
    }

    ghost function Model(): Session
      reads this, boundary
    {
      Session(tenantId, callId, streamId, boundary.Model(), capabilityActive, buffer, bufferCapturedAt, sequence,
              callStarted, captureGeneration, pauseCount, reconnectCount, pausePending, captureStopStatus,
              inFlightChunkCount, status, asrReadiness, receivedChunkCount, endReason, terminalStatus, endEmitted,
              closed)
    }

    /** Hands one event of the session's stream to the boundary. */
    method Submit(kind: B.EventType, captured: int, arrived: int, duration: real, payload: Bytes,
                  reason: Option<B.EndReason>) returns (a: B.Answer)
      requires EventOf(Model(), kind, captured, arrived, duration, payload, reason).Valid()
      modifies boundary
      ensures (boundary.Model(), a)
           == B.Accept(old(boundary.Model()), EventOf(old(Model()), kind, captured, arrived, duration, payload, reason))
    {
      var e := B.Event(tenantId, PROVIDER, callId, streamId, kind, sequence, CODEC, SAMPLE_RATE, 1, captured, arrived,
                       duration, payload, reason);
      a := boundary.AcceptEvent(e);
    }

    method NothingIsRetained() returns (empty: bool)
      ensures empty == NothingRetained(boundary.Model())
    {
      var rest := boundary.active.Keys;
      while rest != {}
        invariant rest <= boundary.active.Keys
        invariant forall k :: k in boundary.active.Keys - rest ==> boundary.active[k].queue == []
        decreases |rest|
      {
        var k: B.Key :| k in rest;
        if boundary.active[k].queue != [] {
          return false;
        }
        rest := rest - {k};
      }
      return true;
    }

    // ----- Ending -----

    method SendEnd(now: int) returns (error: Option<Error>)
      modifies this, boundary
      ensures (Model(), error) == EmitEnd(old(Model()), now)
    {
      hide B.Accept;
      hide Ended;
      if endEmitted {
        return None;
      }
      var reason := if endReason.Some? then endReason.value else B.CANCELLED;
      var a := Submit(B.END, now, now, 0.0, [], Some(reason));
      if a.status != B.FINISHED {
        return Some(EndRejected);
      }
      MarkEnded(reason);
      return None;
    }

    method MarkEnded(reason: B.EndReason)
      modifies this
      ensures Model() == Ended(old(Model()), reason)
    {
      sequence := sequence + 1;
      endEmitted := true;
      status := if terminalStatus.Some? then terminalStatus.value
                else if reason == B.COMPLETED then COMPLETED else status;
      capabilityActive := false;
    }

    method MarkCancelled(reason: TerminalReason)
      modifies this
      ensures Model() == Cancelling(old(Model()), reason)
    {
      hide Dropped;
      ClearBuffer();
      MarkClosed(CancelledStatus(reason));
      SetReason(None, B.CANCELLED);
    }

    method MarkClosed(final: Status)
      modifies this`closed, this`status
      ensures Model() == old(Model()).(closed := true, status := final)
    {
      closed, status := true, final;
    }

    method CancelSession(reason: TerminalReason, now: int) returns (error: Option<Error>)
      modifies this, boundary
      ensures (Model(), error) == Cancel(old(Model()), reason, now)
    {
      hide EmitEnd;
      hide B.Accept;
      hide Cancelling;
      if closed {
        return None;
      }
      MarkCancelled(reason);
      if boundary.active.Keys != {} {
        error := SendEnd(now);
      } else {
        endEmitted, capabilityActive := true, false;
        error := None;
      }
    }

    // ----- Aggregating -----

    method SendBuffer(arrived: int, allowShort: bool) returns (error: Option<Error>)
      requires |buffer| <= CHUNK_BYTES
      modifies this, boundary
      ensures (Model(), error) == EmitBuffer(old(Model()), arrived, allowShort)
    {
      hide B.Accept;
      hide Cancel;
      if buffer == [] || (!allowShort && |buffer| != CHUNK_BYTES) {
        return None;
      }
      var duration := |buffer| as real / 32000.0;
      var captured := Min(if bufferCapturedAt.Some? then bufferCapturedAt.value else arrived, arrived);
      var a := Submit(B.AUDIO_CHUNK, captured, arrived, duration, buffer, None);
      if a.status == B.OVERLOADED {
        ClearBuffer();
        error := CancelSession(Overloaded, arrived);
        return;
      }
      if a.status != B.ACCEPTED {
        return Some(ChunkRejected);
      }
      CountChunk();
      ClearBuffer();
      return None;
    }

    method CountChunk()
      modifies this`sequence, this`receivedChunkCount
      ensures sequence == old(sequence) + 1 && receivedChunkCount == old(receivedChunkCount) + 1
    {
      sequence := sequence + 1;
      receivedChunkCount := receivedChunkCount + 1;
    }

    /** Fills the buffer from `pcm[offset..]`, and sends it when it is full. */
    method FillBuffer(pcm: Bytes, offset: nat, arrived: int, captured: int) returns (next: nat, error: Option<Error>)
      requires |buffer| <= CHUNK_BYTES && offset < |pcm|
      modifies this, boundary
      ensures next == offset + Min(CHUNK_BYTES - |old(buffer)|, |pcm| - offset)
      ensures (Model(), error) == AppendStep(old(Model()), pcm[offset..], arrived, captured)
    {
      if buffer == [] {
        bufferCapturedAt := Some(captured);
      }
      var take := Min(CHUNK_BYTES - |buffer|, |pcm| - offset);
      assert pcm[offset..][..take] == pcm[offset..offset + take];
      buffer := buffer + pcm[offset..offset + take];
      next, error := offset + take, None;
      if |buffer| == CHUNK_BYTES {
        error := SendBuffer(arrived, false);
      }
    }

    method AppendNormalized(pcm: Bytes, arrived: int, captured: int) returns (error: Option<Error>)
      requires |buffer| <= CHUNK_BYTES
      modifies this, boundary
      ensures (Model(), error) == Append(old(Model()), pcm, arrived, captured)
    {
      var offset := 0;
      assert pcm[0..] == pcm;
      while offset < |pcm|
        invariant 0 <= offset <= |pcm| && |buffer| <= CHUNK_BYTES
        invariant Append(Model(), pcm[offset..], arrived, captured) == Append(old(Model()), pcm, arrived, captured)
        decreases |pcm| - offset, |buffer|
      {
        AppendNext(Model(), pcm, offset, arrived, captured);
        offset, error := FillBuffer(pcm, offset, arrived, captured);
        if error.Some? {
          return;
        }
      }
      return None;
    }

    method AppendAll(items: seq<PcmItem>, arrived: int) returns (error: Option<Error>)
      requires |buffer| <= CHUNK_BYTES
      modifies this, boundary
      ensures |buffer| <= CHUNK_BYTES
      ensures (Model(), error) == AppendItems(old(Model()), items, arrived)
    {
      var i := 0;
      assert items[0..] == items;
      while i < |items|
        invariant 0 <= i <= |items| && |buffer| <= CHUNK_BYTES
        invariant AppendItems(Model(), items[i..], arrived) == AppendItems(old(Model()), items, arrived)
      {
        assert items[i..][1..] == items[i + 1..];
        error := AppendNormalized(items[i], arrived, arrived);
        if error.Some? {
          return;
        }
        i := i + 1;
      }
      return None;
    }

    // ----- Calls -----

    method StartCall(now: int) returns (outcome: Outcome)
      modifies this, boundary
      ensures (Model(), outcome) == Start(old(Model()), now)
    {
      hide B.Accept;
      if closed || !capabilityActive {
        return Raised(CapabilityRevoked);
      }
      if status == READY || status == STREAMING {
        return Done(false);
      }
      if asrReadiness != READY_TO_CAPTURE {
        return Raised(AsrNotReady);
      }
      if status != PERMISSION_PENDING && status != RECONNECTING {
        return Raised(NotStartable);
      }
      if !callStarted {
        var a := Submit(B.START, now, now, 0.0, [], None);
        if a.status != B.ACCEPTED {
          return Raised(StartRejected);
        }
        sequence := sequence + 1;
        callStarted := true;
      }
      status, asrReadiness := READY, ASR_STREAMING;
      return Done(true);
    }

    method AcceptValidatedPcm(pcm: Bytes, captured: int, arrived: int, generation: nat) returns (outcome: Outcome)
      requires |buffer| <= CHUNK_BYTES
      modifies this, boundary
      ensures (Model(), outcome) == AcceptPcm(old(Model()), pcm, captured, arrived, generation)
    {
      hide Start;
      hide Append;
      if generation != captureGeneration {
        return Raised(StaleGeneration);
      }
      if asrReadiness != READY_TO_CAPTURE && asrReadiness != ASR_STREAMING {
        return Raised(AsrNotReady);
      }
      StartKeepsBuffer(Model(), arrived);
      if status == PERMISSION_PENDING || status == RECONNECTING {
        outcome := StartCall(arrived);
        if outcome.Raised? {
          return;
        }
      }
      if closed || !capabilityActive {
        return Raised(CapabilityRevoked);
      }
      if status != READY && status != STREAMING {
        return Raised(NotStreaming);
      }
      if pcm == [] || |pcm| > CHUNK_BYTES || |pcm| % 2 != 0 {
        return Raised(InvalidPcm);
      }
      var error := AppendNormalized(pcm, arrived, Min(captured, arrived));
      if error.Some? {
        return Raised(error.value);
      }
      if closed {
        return Raised(IngressRejected);
      }
      status := STREAMING;
      return Done(true);
    }

    method FinishCaptureStopIfDrained()
      modifies this
      ensures Model() == FinishStopIfDrained(old(Model()))
    {
      var empty := NothingIsRetained();
      if pausePending && empty && inFlightChunkCount == 0 {
        pausePending := false;
        status := if captureStopStatus.Some? then captureStopStatus.value else PAUSED;
        captureStopStatus := None;
      }
    }

    method FlushOutAudio(items: seq<PcmItem>, now: int) returns (error: Option<Error>)
      requires |buffer| <= CHUNK_BYTES
      modifies this, boundary
      ensures (Model(), error) == FlushOut(old(Model()), items, now)
    {
      error := AppendAll(items, now);
      if error.None? {
        error := SendBuffer(now, true);
      }
    }

    method Stop(ownResource: bool, finalStatus: Status, now: int, flush: Option<Flush>) returns (outcome: Outcome)
      requires |buffer| <= CHUNK_BYTES
      modifies this, boundary
      ensures (Model(), outcome) == StopCapture(old(Model()), ownResource, finalStatus, now, flush)
    {
      hide FlushedItems;
      hide FlushOut;
      hide Stopping;
      hide FinishStopIfDrained;
      hide NothingRetained;
      if closed || !ownResource {
        return Raised(InvalidCapability);
      }
      if status == PAUSING || status == PAUSED {
        return Done(false);
      }
      if !capabilityActive {
        return Done(false);
      }
      RunStop(finalStatus, now, flush);
      return Done(true);
    }

    method RunStop(finalStatus: Status, now: int, flush: Option<Flush>)
      requires |buffer| <= CHUNK_BYTES
      modifies this, boundary
      ensures Model() == FinishStopIfDrained(
                Stopping(FlushOut(old(Model()).(status := PAUSING), FlushedItems(flush), now),
                         if flush == Some(FlushRaised) then FAILED else finalStatus))
    {
      hide FlushOut;
      hide Stopping;
      hide FinishStopIfDrained;
      status := PAUSING;
      var error := FlushOutAudio(FlushedItems(flush), now);
      RecordStop(error, if flush == Some(FlushRaised) then FAILED else finalStatus);
      FinishCaptureStopIfDrained();
    }

    method RecordStop(error: Option<Error>, finalStatus: Status)
      modifies this
      ensures Model() == Stopping((old(Model()), error), finalStatus)
    {
      hide Dropped;
      hide Awaiting;
      if error.Some? {
        ClearBuffer();
        AwaitDrain(FAILED);
      } else {
        AwaitDrain(finalStatus);
      }
      RevokeCapability(READY_TO_CAPTURE);
    }

    method AwaitDrain(stopped: Status)
      modifies this`pauseCount, this`pausePending, this`captureStopStatus
      ensures Model() == Awaiting(old(Model()), stopped)
    {
      pauseCount := pauseCount + 1;
      pausePending := true;
      captureStopStatus := Some(stopped);
    }

    method RevokeCapability(readiness: Readiness)
      modifies this`capabilityActive, this`asrReadiness
      ensures Model() == old(Model()).(capabilityActive := false, readiness := readiness)
    {
      capabilityActive := false;
      asrReadiness := readiness;
    }

    method PauseCapture(ownResource: bool, now: int, flush: Flush) returns (outcome: Outcome)
      requires |buffer| <= CHUNK_BYTES
      modifies this, boundary
      ensures (Model(), outcome) == Pause(old(Model()), ownResource, now, flush)
    {
      outcome := Stop(ownResource, PAUSED, now, Some(flush));
    }

    method FailCaptureWith(ownResource: bool, failure: Status, now: int) returns (outcome: Outcome)
      requires |buffer| <= CHUNK_BYTES
      modifies this, boundary
      ensures (Model(), outcome) == FailCapture(old(Model()), ownResource, failure, now)
    {
      if !CaptureFailure(failure) {
        return Raised(InvalidFailure);
      }
      outcome := Stop(ownResource, failure, now, None);
    }

    method ResumeCapture(ownResource: bool, isNew: bool, authorizes: bool) returns (outcome: Outcome)
      modifies this
      ensures (Model(), outcome) == Resume(old(Model()), ownResource, isNew, authorizes)
    {
      hide Reopened;
      if closed || !ownResource {
        return Raised(InvalidCapability);
      }
      if status == PERMISSION_PENDING || status == READY || status == STREAMING || status == RECONNECTING
        || status == PAUSING {
        return Done(false);
      }
      if status != PAUSED && status != PERMISSION_DENIED && status != DISCONNECTED && status != FAILED {
        return Raised(NotResumable);
      }
      if !isNew || !authorizes {
        return Raised(InvalidCapability);
      }
      if capabilityActive {
        return Raised(PreviousCapabilityActive);
      }
      Reopen();
      return Done(true);
    }

    method Reopen()
      modifies this
      ensures Model() == Reopened(old(Model()))
    {
      ClearBuffer();
      ClearStop();
      capabilityActive := true;
      captureGeneration := captureGeneration + 1;
      status, asrReadiness := PERMISSION_PENDING, READY_TO_CAPTURE;
    }

    method ClearBuffer()
      modifies this`buffer, this`bufferCapturedAt
      ensures buffer == [] && bufferCapturedAt == None && Model() == Dropped(old(Model()))
    {
      buffer, bufferCapturedAt := [], None;
    }

    method ClearStop()
      modifies this`pausePending, this`captureStopStatus
      ensures !pausePending && captureStopStatus == None
    {
      pausePending, captureStopStatus := false, None;
    }

    method AcknowledgeProcessedChunk(ownResource: bool) returns (outcome: Outcome)
      modifies this
      ensures (Model(), outcome) == Acknowledge(old(Model()), ownResource)
    {
      if closed || !ownResource {
        return Raised(InvalidCapability);
      }
      if inFlightChunkCount <= 0 {
        return Raised(NotInFlight);
      }
      inFlightChunkCount := inFlightChunkCount - 1;
      FinishCaptureStopIfDrained();
      return Done(true);
    }

    method RequestDrainingEnd(ownResource: bool, now: int, flush: Flush) returns (outcome: Outcome)
      requires |buffer| <= CHUNK_BYTES
      modifies this, boundary
      ensures (Model(), outcome) == FinishCall(old(Model()), ownResource, now, flush)
    {
      hide FlushOut;
      hide EndIfDrained;
      if endReason.Some? || closed {
        return Done(false);
      }
      if !ownResource {
        return Raised(InvalidCapability);
      }
      var items := [];
      if capabilityActive {
        if flush.FlushRaised? {
          var failed := CancelSession(Failed, now);
          return if failed.Some? then Raised(failed.value) else Done(false);
        }
        items := flush.items;
      }
      if boundary.active.Keys == {} {
        // With no stream left the cancellation sends nothing, so nothing can be refused.
        var _ := CancelSession(CompletedEnd, now);
        return Done(true);
      }
      var error := FlushOutAudio(items, now);
      if error.Some? {
        return Raised(error.value);
      }
      if closed {
        return Done(false);
      }
      outcome := MarkFinished(now);
    }

    method SetReason(terminal: Option<Status>, reason: B.EndReason)
      modifies this`terminalStatus, this`endReason
      ensures terminalStatus == terminal && endReason == Some(reason)
    {
      terminalStatus, endReason := terminal, Some(reason);
    }

    method RequestStop()
      modifies this`status, this`capabilityActive, this`pausePending, this`captureStopStatus
      ensures Model() == StopRequested(old(Model()))
    {
      status, capabilityActive, pausePending, captureStopStatus := STOP_REQUESTED, false, false, None;
    }

    method RecordFinish()
      modifies this
      ensures Model() == Finishing(old(Model()))
    {
      hide StopRequested;
      RequestStop();
      SetReason(Some(COMPLETED), B.COMPLETED);
    }

    /** Records the finish; END goes out at once when nothing is retained. */
    method MarkFinished(now: int) returns (outcome: Outcome)
      modifies this, boundary
      ensures (Model(), outcome) == EndIfDrained(Finishing(old(Model())), now)
    {
      hide Finishing;
      hide EmitEnd;
      hide NothingRetained;
      RecordFinish();
      var empty := NothingIsRetained();
      if empty {
        var error := SendEnd(now);
        if error.Some? {
          return Raised(error.value);
        }
      }
      return Done(true);
    }

    /** One turn of the chunk generator. */
    method NextChunk(cancelled: bool, now: int) returns (turn: Turn)
      modifies this, boundary
      ensures (Model(), turn) == Iterate(old(Model()), cancelled, now)
    {
      if cancelled {
        var error := CancelSession(ResourceClosed, now);
        return if error.Some? then Failure(error.value) else Turn.Stop;
      }
      var drained := boundary.DrainStream(tenantId, PROVIDER, (callId, streamId), 1);
      if drained.Ok? && drained.value != [] {
        inFlightChunkCount := inFlightChunkCount + 1;
        return Yield(drained.value[0]);
      }
      DrainedEmpty(old(boundary.Model()), tenantId, (callId, streamId));
      if endReason.Some? {
        var error := SendEnd(now);
        return if error.Some? then Failure(error.value) else Turn.Stop;
      }
      return if endEmitted then Turn.Stop else Wait;
    }

    method SetAsrReadiness(readiness: Readiness, ownResource: bool) returns (outcome: Outcome)
      modifies this`asrReadiness
      ensures (Model(), outcome) == SetReadiness(old(Model()), readiness, ownResource)
    {
      if closed || !ownResource {
        return Raised(InvalidCapability);
      }
      if readiness == asrReadiness {
        return Done(false);
      }
      var allowed := match asrReadiness
        case PREPARING_MODEL => readiness == WARMING_UP || readiness == ASR_FAILED
        case WARMING_UP => readiness == READY_TO_CAPTURE || readiness == ASR_FAILED
        case READY_TO_CAPTURE => readiness == ASR_STREAMING || readiness == ASR_FAILED
        case ASR_STREAMING => readiness == READY_TO_CAPTURE || readiness == ASR_FAILED
        case ASR_FAILED => false;
      if !allowed {
        return Raised(InvalidTransition);
      }
      asrReadiness := readiness;
      return Done(true);
    }

    /** A media track that ends is transient until the user acts. */
    method MarkCaptureReconnecting(generation: Option<nat>) returns (outcome: Outcome)
      modifies this`status, this`reconnectCount, this`asrReadiness
      ensures (Model(), outcome) == MarkReconnecting(old(Model()), generation)
    {
      if generation.Some? && generation.value != captureGeneration {
        return Done(false);
      }
      if closed || !capabilityActive {
        return Done(false);
      }
      if status != READY && status != STREAMING {
        return Done(false);
      }
      status := RECONNECTING;
      reconnectCount := reconnectCount + 1;
      asrReadiness := READY_TO_CAPTURE;
      return Done(true);
    }

    method CloseSession(reason: TerminalReason, now: int) returns (outcome: Outcome)
      modifies this, boundary
      ensures (Model(), outcome) == Close(old(Model()), reason, now)
    {
      var error := CancelSession(reason, now);
      return if error.Some? then Raised(error.value) else Done(true);
    }
  }

  /** One pass of the aggregation loop, in terms of the offset. */
  lemma {:induction false} AppendNext(s: Session, pcm: Bytes, offset: nat, arrived: int, captured: int)
    requires |s.buffer| <= CHUNK_BYTES && offset < |pcm|
    ensures var step := AppendStep(s, pcm[offset..], arrived, captured);
      var next := offset + Min(CHUNK_BYTES - |s.buffer|, |pcm| - offset);
      && |step.0.buffer| <= CHUNK_BYTES
      && Append(s, pcm[offset..], arrived, captured)
           == (if step.1.Some? then step else Append(step.0, pcm[next..], arrived, captured))
      && (step.1.None? && next == offset ==> step.0.buffer == [] && s.buffer != [])
  {
    var take := Min(CHUNK_BYTES - |s.buffer|, |pcm| - offset);
    assert pcm[offset..][take..] == pcm[offset + take..];
  }

  /** Draining an empty queue leaves the boundary as it was. */
  lemma {:induction false} DrainedEmpty(b: B.Boundary, tenantId: string, key: B.Key)
    ensures var (c, drained) := B.Drain(b, tenantId, PROVIDER, key, 1);
      drained.Ok? && drained.value == [] ==> c == b
  {
  }
}
