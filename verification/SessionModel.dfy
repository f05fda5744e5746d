/**
  The local microphone session as a value: captured PCM is aggregated into
  two-second chunks on one boundary stream, across pauses, resumes and a draining
  or cancelling end. Every call of the session is a function from state to state.
 */
module SessionModel {
  import opened Common
  import B = IngressBoundary

  const PROVIDER := "LOCAL_MIC_TEST"
  const CODEC := "pcm_s16le"
  const SAMPLE_RATE := 16000
  const CHUNK_BYTES := 64000

  datatype Status =
    | PERMISSION_PENDING | READY | STREAMING | PAUSING | PAUSED | RECONNECTING | STOP_REQUESTED
    | COMPLETED | PERMISSION_DENIED | OVERLOADED | DISCONNECTED | FAILED | REPLACED

  datatype Readiness = PREPARING_MODEL | WARMING_UP | READY_TO_CAPTURE | ASR_STREAMING | ASR_FAILED

  datatype TerminalReason =
    | CompletedEnd | PermissionDenied | Overloaded | Disconnected | Failed | ResetEnd | Replaced | ResourceClosed

  /** The errors the session raises. */
  datatype Error =
    | CapabilityRevoked | InvalidCapability | AsrNotReady | InvalidTransition | NotStartable | StartRejected
    | StaleGeneration | NotStreaming | InvalidPcm | IngressRejected | ChunkRejected | EndRejected
    | InvalidFailure | NotResumable | PreviousCapabilityActive | NotInFlight

  /** A call returns a flag or raises an error. */
  datatype Outcome = Done(ok: bool) | Raised(error: Error)

  /** One non-empty block of whole samples, as the normaliser hands it out. */
  type PcmItem = b: Bytes | |b| > 0 && |b| % 2 == 0 witness [0, 0]

  datatype Flush = Flushed(items: seq<PcmItem>) | FlushRaised

  datatype Session = Session(
    tenantId: string, callId: string, streamId: string, boundary: B.Boundary,
    capabilityActive: bool, buffer: Bytes, bufferCapturedAt: Option<int>, sequence: nat, callStarted: bool,
    generation: nat, pauseCount: nat, reconnectCount: nat, pausePending: bool, stopStatus: Option<Status>,
    inFlight: nat, status: Status, readiness: Readiness, receivedChunks: nat,
    endReason: Option<B.EndReason>, terminalStatus: Option<Status>, endEmitted: bool, closed: bool)

  function LimitsFor(tenantId: string, maxQueue: nat): B.Limits {
    B.Limits(tenantId, PROVIDER, 32, maxQueue, 64, 128)
  }

  function Fresh(tenantId: string, callId: string, streamId: string, maxQueue: nat): Session {
    Session(tenantId, callId, streamId, B.Fresh(LimitsFor(tenantId, maxQueue)), true, [], None, 0, false,
            1, 0, 0, false, None, 0, PERMISSION_PENDING, PREPARING_MODEL, 0, None, None, false, false)
  }

  function KeyOf(s: Session): B.Key {
    (s.callId, s.streamId)
  }

  function EventOf(s: Session, kind: B.EventType, captured: int, arrived: int, duration: real, payload: Bytes,
                   endReason: Option<B.EndReason>): B.Event {
    B.Event(s.tenantId, PROVIDER, s.callId, s.streamId, kind, s.sequence, CODEC, SAMPLE_RATE, 1, captured, arrived,
            duration, payload, endReason)
  }

  predicate NothingRetained(b: B.Boundary) {
    forall k :: k in b.active ==> b.active[k].queue == []
  }

  predicate Authorized(s: Session) {
    !s.closed && s.capabilityActive
  }

  // ----- Ending -----

  function EmitEnd(s: Session, now: int): (Session, Option<Error>) {
    if s.endEmitted then (s, None)
    else
      var reason := if s.endReason.Some? then s.endReason.value else B.CANCELLED;
      var (b, a) := B.Accept(s.boundary, EventOf(s, B.END, now, now, 0.0, [], Some(reason)));
      if a.status != B.FINISHED then (s.(boundary := b), Some(EndRejected))
      else
        (Ended(s.(boundary := b), reason), None)
  }

  function Ended(s: Session, reason: B.EndReason): Session {
    s.(sequence := s.sequence + 1, endEmitted := true, capabilityActive := false,
       status := if s.terminalStatus.Some? then s.terminalStatus.value
                 else if reason == B.COMPLETED then COMPLETED else s.status)
  }

  function CancelledStatus(reason: TerminalReason): Status {
    match reason
    case PermissionDenied => PERMISSION_DENIED
    case Overloaded => OVERLOADED
    case Disconnected => DISCONNECTED
    case Failed => FAILED
    case Replaced => REPLACED
    case _ => COMPLETED
  }

  function Cancelling(s: Session, reason: TerminalReason): Session {
    Dropped(s).(closed := true, status := CancelledStatus(reason), endReason := Some(B.CANCELLED),
                terminalStatus := None)
  }

  /** The audio being aggregated is given up. */
  function Dropped(s: Session): Session {
    s.(buffer := [], bufferCapturedAt := None)
  }

  function Cancel(s: Session, reason: TerminalReason, now: int): (Session, Option<Error>) {
    if s.closed then (s, None)
    else
      var t := Cancelling(s, reason);
      if t.boundary.active.Keys != {} then EmitEnd(t, now)
      else (t.(endEmitted := true, capabilityActive := false), None)
  }

  // ----- Aggregating -----

  function EmitBuffer(s: Session, arrived: int, allowShort: bool): (r: (Session, Option<Error>))
    ensures |s.buffer| <= CHUNK_BYTES ==> |r.0.buffer| <= CHUNK_BYTES
    ensures r.1.None? && (allowShort || |s.buffer| == CHUNK_BYTES) ==> r.0.buffer == []
  {
    if s.buffer == [] || (!allowShort && |s.buffer| != CHUNK_BYTES) then (s, None)
    else
      var captured := Min(if s.bufferCapturedAt.Some? then s.bufferCapturedAt.value else arrived, arrived);
      var duration := |s.buffer| as real / 32000.0;
      var (b, a) := B.Accept(s.boundary, EventOf(s, B.AUDIO_CHUNK, captured, arrived, duration, s.buffer, None));
      var t := s.(boundary := b, buffer := [], bufferCapturedAt := None);
      if a.status == B.OVERLOADED then
        CancelKeepsEmpty(t, Overloaded, arrived);
        Cancel(t, Overloaded, arrived)
      else if a.status != B.ACCEPTED then (s.(boundary := b), Some(ChunkRejected))
      else (t.(sequence := s.sequence + 1, receivedChunks := s.receivedChunks + 1), None)
  }

  lemma {:induction false} CancelKeepsEmpty(s: Session, reason: TerminalReason, now: int)
    requires s.buffer == []
    ensures Cancel(s, reason, now).0.buffer == []
  {
  }

  /** One pass of the aggregation loop: fill the buffer, and emit it when it is full. */
  function AppendStep(s: Session, pcm: Bytes, arrived: int, captured: int): (Session, Option<Error>)
    requires |s.buffer| <= CHUNK_BYTES
  {
    var take := Min(CHUNK_BYTES - |s.buffer|, |pcm|);
    var t := s.(bufferCapturedAt := if s.buffer == [] then Some(captured) else s.bufferCapturedAt,
                buffer := s.buffer + pcm[..take]);
    if |t.buffer| == CHUNK_BYTES then EmitBuffer(t, arrived, false) else (t, None)
  }

  function Append(s: Session, pcm: Bytes, arrived: int, captured: int): (r: (Session, Option<Error>))
    requires |s.buffer| <= CHUNK_BYTES
    ensures |r.0.buffer| <= CHUNK_BYTES
    decreases |pcm|, |s.buffer|
  {
    if pcm == [] then (s, None)
    else
      var step := AppendStep(s, pcm, arrived, captured);
      if step.1.Some? then step
      else Append(step.0, pcm[Min(CHUNK_BYTES - |s.buffer|, |pcm|)..], arrived, captured)
  }

  function AppendItems(s: Session, items: seq<PcmItem>, arrived: int): (r: (Session, Option<Error>))
    requires |s.buffer| <= CHUNK_BYTES
    ensures |r.0.buffer| <= CHUNK_BYTES
    decreases |items|
  {
    if items == [] then (s, None)
    else
      var first := Append(s, items[0], arrived, arrived);
      if first.1.Some? then first else AppendItems(first.0, items[1..], arrived)
  }

  // ----- Calls -----

  function Start(s: Session, now: int): (Session, Outcome) {
    if !Authorized(s) then (s, Raised(CapabilityRevoked))
    else if s.status == READY || s.status == STREAMING then (s, Done(false))
    else if s.readiness != READY_TO_CAPTURE then (s, Raised(AsrNotReady))
    else if s.status != PERMISSION_PENDING && s.status != RECONNECTING then
      (s, Raised(NotStartable))
    else if s.callStarted then (s.(status := READY, readiness := ASR_STREAMING), Done(true))
    else
      var (b, a) := B.Accept(s.boundary, EventOf(s, B.START, now, now, 0.0, [], None));
      if a.status != B.ACCEPTED then (s.(boundary := b), Raised(StartRejected))
      else (s.(boundary := b, sequence := s.sequence + 1, callStarted := true, status := READY,
               readiness := ASR_STREAMING),
            Done(true))
  }

  function SetReadiness(s: Session, readiness: Readiness, ownResource: bool): (Session, Outcome) {
    if s.closed || !ownResource then (s, Raised(InvalidCapability))
    else if readiness == s.readiness then (s, Done(false))
    else if (match s.readiness
             case PREPARING_MODEL => readiness == WARMING_UP || readiness == ASR_FAILED
             case WARMING_UP => readiness == READY_TO_CAPTURE || readiness == ASR_FAILED
             case READY_TO_CAPTURE => readiness == ASR_STREAMING || readiness == ASR_FAILED
             case ASR_STREAMING => readiness == READY_TO_CAPTURE || readiness == ASR_FAILED
             case ASR_FAILED => false)
    then (s.(readiness := readiness), Done(true))
    else (s, Raised(InvalidTransition))
  }

  /** A pending or reconnecting capture is started by its first audio. */
  function EnsureStarted(s: Session, now: int): (Session, Outcome) {
    if s.status == PERMISSION_PENDING || s.status == RECONNECTING then Start(s, now) else (s, Done(true))
  }

  function AcceptPcm(s: Session, pcm: Bytes, captured: int, arrived: int, generation: nat): (Session, Outcome)
    requires |s.buffer| <= CHUNK_BYTES
  {
    if generation != s.generation then (s, Raised(StaleGeneration))
    else if s.readiness != READY_TO_CAPTURE && s.readiness != ASR_STREAMING then
      (s, Raised(AsrNotReady))
    else
      StartKeepsBuffer(s, arrived);
      var (t, started) := EnsureStarted(s, arrived);
      if started.Raised? then (t, started)
      else if !Authorized(t) then (t, Raised(CapabilityRevoked))
      else if t.status != READY && t.status != STREAMING then (t, Raised(NotStreaming))
      else if pcm == [] || |pcm| > CHUNK_BYTES || |pcm| % 2 != 0 then (t, Raised(InvalidPcm))
      else
        var (u, error) := Append(t, pcm, arrived, Min(captured, arrived));
        if error.Some? then (u, Raised(error.value))
        else if u.closed then (u, Raised(IngressRejected))
        else (u.(status := STREAMING), Done(true))
  }

  lemma {:induction false} StartKeepsBuffer(s: Session, now: int)
    ensures EnsureStarted(s, now).0.buffer == s.buffer
  {
  }

  function FinishStopIfDrained(s: Session): Session {
    if s.pausePending && NothingRetained(s.boundary) && s.inFlight == 0 then
      s.(pausePending := false, status := if s.stopStatus.Some? then s.stopStatus.value else PAUSED, stopStatus := None)
    else s
  }

  /** The buffered and flushed audio leaves as a last, possibly short, chunk. */
  function FlushOut(s: Session, items: seq<PcmItem>, now: int): (r: (Session, Option<Error>))
    requires |s.buffer| <= CHUNK_BYTES
  {
    var appended := AppendItems(s, items, now);
    if appended.1.Some? then appended else EmitBuffer(appended.0, now, true)
  }

  function FlushedItems(flush: Option<Flush>): seq<PcmItem> {
    if flush.Some? && flush.value.Flushed? then flush.value.items else []
  }

  /** What a stop records once its audio is flushed; a failed flush drops the buffer. */
  function Stopping(flushed: (Session, Option<Error>), stopped: Status): Session {
    var (t, error) := flushed;
    Awaiting(if error.Some? then Dropped(t) else t, if error.Some? then FAILED else stopped)
    .(capabilityActive := false, readiness := READY_TO_CAPTURE)
  }

  /** A stop waits for the queue to drain before it shows its status. */
  function Awaiting(t: Session, stopped: Status): Session {
    t.(pauseCount := t.pauseCount + 1, pausePending := true, stopStatus := Some(stopped))
  }

  /** `flush` is absent when the capture is stopped without flushing the normaliser. */
  function StopCapture(s: Session, ownResource: bool, finalStatus: Status, now: int, flush: Option<Flush>)
    : (Session, Outcome)
    requires |s.buffer| <= CHUNK_BYTES
  {
    if s.closed || !ownResource then (s, Raised(InvalidCapability))
    else if s.status == PAUSING || s.status == PAUSED || !s.capabilityActive then (s, Done(false))
    else
      var flushed := FlushOut(s.(status := PAUSING), FlushedItems(flush), now);
      var stopped := if flush == Some(FlushRaised) then FAILED else finalStatus;
      (FinishStopIfDrained(Stopping(flushed, stopped)), Done(true))
  }

  function Pause(s: Session, ownResource: bool, now: int, flush: Flush): (Session, Outcome)
    requires |s.buffer| <= CHUNK_BYTES
  {
    StopCapture(s, ownResource, PAUSED, now, Some(flush))
  }

  predicate CaptureFailure(status: Status) {
    status == FAILED || status == PERMISSION_DENIED || status == DISCONNECTED
  }

  function FailCapture(s: Session, ownResource: bool, status: Status, now: int): (Session, Outcome)
    requires |s.buffer| <= CHUNK_BYTES
  {
    if !CaptureFailure(status) then (s, Raised(InvalidFailure))
    else StopCapture(s, ownResource, status, now, None)
  }

  /** A new capture generation, waiting for permission with an empty buffer. */
  function Reopened(s: Session): Session {
    s.(capabilityActive := true, generation := s.generation + 1, buffer := [], bufferCapturedAt := None,
       pausePending := false, stopStatus := None, status := PERMISSION_PENDING, readiness := READY_TO_CAPTURE)
  }

  /** `isNew`: the capability is not the session's own; `authorizes`: it is active for this exact scope. */
  function Resume(s: Session, ownResource: bool, isNew: bool, authorizes: bool): (Session, Outcome) {
    if s.closed || !ownResource then (s, Raised(InvalidCapability))
    else if s.status == PERMISSION_PENDING || s.status == READY || s.status == STREAMING
            || s.status == RECONNECTING || s.status == PAUSING
    then (s, Done(false))
    else if s.status != PAUSED && s.status != PERMISSION_DENIED && s.status != DISCONNECTED && s.status != FAILED then
      (s, Raised(NotResumable))
    else if !isNew || !authorizes then (s, Raised(InvalidCapability))
    else if s.capabilityActive then (s, Raised(PreviousCapabilityActive))
    else (Reopened(s), Done(true))
  }

  function MarkReconnecting(s: Session, generation: Option<nat>): (Session, Outcome) {
    if (generation.Some? && generation.value != s.generation) || !Authorized(s)
       || (s.status != READY && s.status != STREAMING)
    then (s, Done(false))
    else (s.(status := RECONNECTING, reconnectCount := s.reconnectCount + 1, readiness := READY_TO_CAPTURE), Done(true))
  }

  function Acknowledge(s: Session, ownResource: bool): (Session, Outcome) {
    if s.closed || !ownResource then (s, Raised(InvalidCapability))
    else if s.inFlight == 0 then (s, Raised(NotInFlight))
    else (FinishStopIfDrained(s.(inFlight := s.inFlight - 1)), Done(true))
  }

  /** `flush` is consulted only while the capability is active. */
  function FinishCall(s: Session, ownResource: bool, now: int, flush: Flush): (Session, Outcome)
    requires |s.buffer| <= CHUNK_BYTES
  {
    if s.endReason.Some? || s.closed then (s, Done(false))
    else if !ownResource then (s, Raised(InvalidCapability))
    else if s.capabilityActive && flush.FlushRaised? then
      var (t, error) := Cancel(s, Failed, now);
      (t, if error.Some? then Raised(error.value) else Done(false))
    else if s.boundary.active.Keys == {} then
      var (t, error) := Cancel(s, CompletedEnd, now);
      (t, if error.Some? then Raised(error.value) else Done(true))
    else
      var (t, error) := FlushOut(s, if s.capabilityActive then flush.items else [], now);
      if error.Some? then (t, Raised(error.value))
      else if t.closed then (t, Done(false))
      else
        EndIfDrained(Finishing(t), now)
  }

  function Finishing(t: Session): Session {
    StopRequested(t).(terminalStatus := Some(COMPLETED), endReason := Some(B.COMPLETED))
  }

  /** The capture is over: a pending stop is superseded and the capability revoked. */
  function StopRequested(t: Session): Session {
    t.(status := STOP_REQUESTED, pausePending := false, stopStatus := None, capabilityActive := false)
  }

  function EndIfDrained(s: Session, now: int): (Session, Outcome) {
    if !NothingRetained(s.boundary) then (s, Done(true))
    else
      var (t, error) := EmitEnd(s, now);
      (t, if error.Some? then Raised(error.value) else Done(true))
  }

  /** One turn of the consuming generator. */
  datatype Turn = Yield(chunk: B.Chunk) | Stop | Wait | Failure(error: Error)

  function Iterate(s: Session, cancelled: bool, now: int): (Session, Turn) {
    if cancelled then
      var (t, error) := Cancel(s, ResourceClosed, now);
      (t, if error.Some? then Failure(error.value) else Stop)
    else
      var (b, drained) := B.Drain(s.boundary, s.tenantId, PROVIDER, KeyOf(s), 1);
      if drained.Ok? && drained.value != [] then
        (s.(boundary := b, inFlight := s.inFlight + 1), Yield(drained.value[0]))
      else if s.endReason.Some? then
        var (t, error) := EmitEnd(s, now);
        (t, if error.Some? then Failure(error.value) else Stop)
      else if s.endEmitted then (s, Stop)
      else (s, Wait)
  }

  function Close(s: Session, reason: TerminalReason, now: int): (Session, Outcome) {
    var (t, error) := Cancel(s, reason, now);
    (t, if error.Some? then Raised(error.value) else Done(true))
  }

  function FailSession(s: Session, now: int): (Session, Outcome) {
    Close(s.(readiness := ASR_FAILED), Failed, now)
  }
}
