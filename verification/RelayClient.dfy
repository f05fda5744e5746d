/**
  The relay client: a sender with a bounded queue and one exchange in flight, fed by
  a capture that cuts PCM into chunks, composed with the server's state machine.
  Enqueues are atomic. A pause, resume or end may be asked for while an earlier one
  waits for its acknowledgement, and the capture opens when its own thread gets there:
  which commands and which openings are harmless is part of what is proved.
 */
module RelayClient {
  import opened Common
  import F = RelayFraming
  import M = RelayMachine

  const CHUNK_BYTES := 64000

  datatype Status = DISCONNECTED | CONNECTING | STREAMING | PAUSED | ENDED | FAILED

  datatype Outbound = Outbound(kind: F.MessageType, sequence: nat, generation: nat, capturedAt: int, payload: Bytes)

  datatype Sender = Sender(limit: nat, status: Status, generation: nat, next: nat, queue: seq<Outbound>,
                           closed: bool, failure: Option<F.Reason>, sentChunks: nat, acknowledgedChunks: nat)

  function FreshSender(limit: nat): Sender {
    Sender(limit, DISCONNECTED, 1, 1, [], false, None, 0, 0)
  }

  function Fail(s: Sender, reason: F.Reason): Sender {
    if s.status == ENDED || s.status == FAILED then s
    else s.(status := FAILED, failure := Some(reason), closed := true)
  }

  /** The number is taken before the queue is tried; a full queue fails the sender. */
  function Put(s: Sender, o: Outbound): (Sender, bool) {
    var t := s.(next := s.next + 1);
    if |s.queue| >= s.limit then (Fail(t, F.BufferLimit), false)
    else (t.(queue := s.queue + [o]), true)
  }

  function EnqueueAudio(s: Sender, payload: Bytes, capturedAt: int): (Sender, bool) {
    if payload == [] || |payload| > CHUNK_BYTES || |payload| % 2 != 0 then (Fail(s, F.InvalidFormat), false)
    else if s.status != STREAMING then (s, false)
    else Put(s, Outbound(F.AUDIO, s.next, s.generation, capturedAt, payload))
  }

  function Pause(s: Sender): (Sender, bool) {
    if s.status != STREAMING then (s, false) else Put(s, Outbound(F.PAUSE, s.next, s.generation, 0, []))
  }

  function Resume(s: Sender): (Sender, bool) {
    if s.status != PAUSED then (s, false) else Put(s, Outbound(F.RESUME, s.next, s.generation + 1, 0, []))
  }

  function End(s: Sender): (Sender, bool) {
    if s.status != STREAMING && s.status != PAUSED then (s, false)
    else Put(s, Outbound(F.END, s.next, s.generation, 0, []))
  }

  /** What an acknowledged exchange does to the sender; a resume may fail to reopen the microphone. */
  function Acknowledged(s: Sender, o: Outbound, reopened: bool): Sender {
    match o.kind
    case AUDIO => s.(sentChunks := s.sentChunks + 1, acknowledgedChunks := s.acknowledgedChunks + 1)
    case PAUSE => s.(status := PAUSED)
    case RESUME =>
      var t := s.(generation := o.generation, status := STREAMING);
      if reopened then t else Fail(t, F.MicrophoneOpenFailed)
    case END => s.(status := ENDED)
    case _ => s
  }

  // ----- Capture -----

  /**
    `hasOpened`: the capture's thread has opened the device and let audio in; a resume does not do that for
    it, and the flag that a resume sets for the page to read is not among these. `stopped`: the thread is to
    give up, after a refused chunk or a close. `released`: a close has let the device go for good.
   */
  datatype Capture = Capture(started: bool, hasOpened: bool, admitting: bool, stopped: bool, released: bool,
                             buffer: Bytes)
  {
    /** The thread runs and has yet to open; a stop makes it give up. */
    predicate CanOpen() {
      started && !hasOpened && !stopped && !released
    }

    /** An acknowledged resume can start the device again, if the thread has made it by then. */
    predicate Reopens() {
      started && !released
    }
  }

  const NEW_CAPTURE := Capture(false, false, false, false, false, [])

  function Release(c: Capture): Capture {
    c.(admitting := false, stopped := true, released := true)
  }

  /** Blocks fill a chunk buffer; a full chunk is enqueued, and a refused one stops the capture. */
  function Append(c: Capture, s: Sender, pcm: Bytes, now: int): (r: (Capture, Sender))
    requires |c.buffer| < CHUNK_BYTES
    ensures |r.0.buffer| < CHUNK_BYTES
    decreases |pcm|
  {
    if pcm == [] then (c, s)
    else
      var take := Min(CHUNK_BYTES - |c.buffer|, |pcm|);
      var filled := c.buffer + pcm[..take];
      if |filled| < CHUNK_BYTES then Append(c.(buffer := filled), s, pcm[take..], now)
      else
        var (t, accepted) := EnqueueAudio(s, filled, now);
        if !accepted then (c.(stopped := true, buffer := []), t)
        else Append(c.(buffer := []), t, pcm[take..], now)
  }

  function Flush(c: Capture, s: Sender, now: int): (Capture, Sender, bool) {
    if c.buffer == [] then (c, s, true)
    else
      var (t, accepted) := EnqueueAudio(s, c.buffer, now);
      (c.(buffer := []), t, accepted)
  }

  // ----- Composition with the server -----

  datatype Phase = Idle | Starting | Ready | InFlight(o: Outbound) | Stopped

  /** `late` records that the capture once opened while paused or while a command was outstanding. */
  datatype Client = Client(scope: M.Scope, sender: Sender, phase: Phase, capture: Capture, machine: M.Machine,
                           sent: seq<F.Record>, captured: Bytes, late: bool)
  {
    predicate Sound() {
      |capture.buffer| < CHUNK_BYTES
    }
  }

  /** Closing the capture is the last thing an end does, and the first that a close does. */
  datatype Event =
    | Connect
    | StartCapture
    | Open
    | Block(pcm: Bytes, now: int)
    | AskPause(now: int)
    | AskResume
    | AskEnd(now: int)
    | TakeNext
    | AckReceived(reopened: bool)
    | Fault(reason: F.Reason)
    | CloseCapture
    | Close

  function Initial(scope: M.Scope, limit: nat): Client {
    Client(scope, FreshSender(limit), Idle, NEW_CAPTURE, M.Fresh(scope), [], [], false)
  }

  function MetaOf(o: Outbound): F.Metadata {
    match o.kind
    case AUDIO => F.AudioMeta(o.sequence, o.generation, |o.payload| / 2, o.capturedAt)
    case END => F.EndMeta(o.sequence, o.generation, F.COMPLETED)
    case _ => F.ControlMeta(o.sequence, o.generation)
  }

  /** The record as the server decodes it. Nothing below depends on what its fingerprint is. */
  function RecordOf(o: Outbound): F.Record {
    F.Record(o.kind, MetaOf(o), o.payload, [F.TypeCode(o.kind)] + o.payload)
  }

  function StartRecord(scope: M.Scope): F.Record {
    var meta := F.StartMeta(scope.token, scope.tenantId, scope.callId, scope.streamId, 0, 1);
    F.Record(F.START, meta, [], [F.TypeCode(F.START)])
  }

  function Transmit(c: Client, r: F.Record): Client {
    c.(machine := M.AcceptRecord(c.machine, r).0, sent := c.sent + [r])
  }

  predicate IsCommand(o: Outbound) {
    o.kind != F.AUDIO
  }

  predicate HoldsCommand(queue: seq<Outbound>) {
    exists i :: 0 <= i < |queue| && IsCommand(queue[i])
  }

  /** A pause, resume or end is queued or on the wire. */
  predicate CommandOutstanding(c: Client) {
    (c.phase.InFlight? && IsCommand(c.phase.o)) || HoldsCommand(c.sender.queue)
  }

  predicate Holds(queue: seq<Outbound>, kind: F.MessageType) {
    exists i :: 0 <= i < |queue| && queue[i].kind == kind
  }

  predicate Outstanding(c: Client, kind: F.MessageType) {
    (c.phase.InFlight? && c.phase.o.kind == kind) || Holds(c.sender.queue, kind)
  }

  /** A pause is on its way to the server, and the conversation will go on behind it. */
  predicate PauseAhead(c: Client) {
    c.sender.status == STREAMING && Outstanding(c, F.PAUSE) && !Outstanding(c, F.END)
  }

  /** So is a resume, and the capture can be reopened when it is acknowledged. */
  predicate ResumeAhead(c: Client) {
    c.sender.status == PAUSED && Outstanding(c, F.RESUME) && !Outstanding(c, F.END) && c.capture.Reopens()
  }

  /** The moment the capture is meant to open: streaming, with nothing asked for. */
  predicate Timely(c: Client) {
    c.sender.status == STREAMING && !CommandOutstanding(c)
  }

  function Opened(c: Client): Client {
    if !c.capture.CanOpen() then c
    else c.(capture := c.capture.(hasOpened := true, admitting := true), late := c.late || !Timely(c))
  }

  /** Stop admitting, flush what is buffered, then ask the sender. */
  function Ask(c: Client, now: int, end: bool): Client {
    var (capture, sender, flushed) := Flush(c.capture.(admitting := false), c.sender, now);
    var asked := if !flushed then sender else if end then End(sender).0 else Pause(sender).0;
    c.(capture := capture, sender := asked)
  }

  function Captured(c: Client, pcm: Bytes, now: int): Client
    requires c.Sound()
  {
    if !c.capture.hasOpened || !c.capture.admitting || c.capture.stopped then c
    else
      var (capture, sender) := Append(c.capture, c.sender, pcm, now);
      c.(capture := capture, sender := sender, captured := c.captured + pcm)
  }

  /** The worker takes the oldest record; a closed sender makes it stop instead. */
  function Taken(c: Client): Client {
    if !c.phase.Ready? then c
    else if c.sender.queue == [] then (if c.sender.closed then c.(phase := Stopped) else c)
    else
      var o := c.sender.queue[0];
      var t := c.(sender := c.sender.(queue := c.sender.queue[1..]));
      if c.sender.closed then t.(phase := Stopped) else Transmit(t.(phase := InFlight(o)), RecordOf(o))
  }

  function AckedStep(c: Client, reopened: bool): Client {
    match c.phase
    case Starting => c.(phase := Ready, sender := c.sender.(status := STREAMING))
    case InFlight(o) =>
      var restarted := reopened && c.capture.Reopens();
      c.(sender := Acknowledged(c.sender, o, restarted),
         capture := if o.kind == F.RESUME && restarted then c.capture.(admitting := true) else c.capture,
         phase := if o.kind == F.END || (o.kind == F.RESUME && !restarted) then Stopped else Ready)
    case _ => c
  }

  function Closed(s: Sender): Sender {
    if s.closed then s
    else s.(closed := true, status := if s.status == ENDED || s.status == FAILED then s.status else DISCONNECTED)
  }

  function Step(c: Client, e: Event): (d: Client)
    requires c.Sound()
    ensures d.Sound()
  {
    match e
    case Connect =>
      if !c.phase.Idle? || c.sender.closed then c
      else Transmit(c.(phase := Starting, sender := c.sender.(status := CONNECTING)), StartRecord(c.scope))
    case StartCapture =>
      if c.sender.status == STREAMING && !c.capture.started then
        c.(capture := c.capture.(started := true))
      else c
    case Open => Opened(c)
    case Block(pcm, now) => Captured(c, pcm, now)
    case AskPause(now) => Ask(c, now, false)
    case AskResume => c.(sender := Resume(c.sender).0)
    case AskEnd(now) => Ask(c, now, true)
    case TakeNext => Taken(c)
    case AckReceived(reopened) => AckedStep(c, reopened)
    case Fault(reason) => c.(sender := Fail(c.sender, reason))
    case CloseCapture => c.(capture := Release(c.capture))
    case Close => c.(sender := Closed(c.sender), capture := Release(c.capture))
  }

  /** The command gets into the queue behind one that makes the server refuse it. */
  predicate Clashes(c: Client, e: Event) {
    && !c.sender.closed && |c.sender.queue| < c.sender.limit
    && match e
       case AskPause(_) => PauseAhead(c)
       case AskResume => ResumeAhead(c)
       case AskEnd(_) => ResumeAhead(c) && c.capture.buffer == []
       case _ => false
  }

  /** The discipline: no command is asked for that clashes with an earlier one, and blocks are whole samples. */
  predicate Allowed(c: Client, e: Event) {
    !Clashes(c, e) && (e.Block? ==> |e.pcm| % 2 == 0)
  }

  /** The capture does not open while a pause is on its way. */
  predicate Harmless(c: Client, e: Event) {
    e.Open? && c.capture.CanOpen() ==> !PauseAhead(c)
  }

  function Run(c: Client, es: seq<Event>): (d: Client)
    requires c.Sound()
    ensures d.Sound()
  {
    if es == [] then c else Step(Run(c, es[..|es| - 1]), es[|es| - 1])
  }

  predicate Disciplined(c: Client, es: seq<Event>)
    requires c.Sound()
  {
    es == [] || (Disciplined(c, es[..|es| - 1]) && Allowed(Run(c, es[..|es| - 1]), es[|es| - 1]))
  }

  predicate OpensHarmlessly(c: Client, es: seq<Event>)
    requires c.Sound()
  {
    es == [] || (OpensHarmlessly(c, es[..|es| - 1]) && Harmless(Run(c, es[..|es| - 1]), es[|es| - 1]))
  }

  // ----- The run invariant -----

  predicate SameState(status: Status, state: M.State) {
    (status == STREAMING && state == M.STREAMING) || (status == PAUSED && state == M.PAUSED)
  }

  predicate AudioRecord(o: Outbound, sequence: nat, generation: nat) {
    o.kind == F.AUDIO && o.sequence == sequence && o.generation == generation
  }

  /** Audio only, numbered on from `base`. */
  ghost predicate AudioOnly(queue: seq<Outbound>, base: nat, generation: nat) {
    forall i {:trigger queue[i]} :: 0 <= i < |queue| ==> AudioRecord(queue[i], base + i, generation)
  }

  /** The command at the end of the queue, as the two ends will find it when it is sent. */
  predicate CommandFits(o: Outbound, s: Sender, sequence: nat) {
    && o.sequence == sequence && o.payload == []
    && match o.kind
       case PAUSE => s.status == STREAMING && o.generation == s.generation
       case RESUME => s.status == PAUSED && o.generation == s.generation + 1
       case END => o.generation == s.generation
       case _ => false
  }

  predicate Quiet(c: Capture) {
    c.buffer == [] && !c.admitting
  }

  /** A capture that opened late may be admitting, and holding audio, while the client is paused. */
  predicate Still(c: Client) {
    c.late || Quiet(c.capture)
  }

  /** Both ends agree on state and generation, and on the next number to be sent. */
  ghost predicate InStep(c: Client) {
    && SameState(c.sender.status, c.machine.state)
    && c.machine.generation == Some(c.sender.generation)
    && c.sender.next == c.machine.next + |c.sender.queue|
  }

  ghost predicate Flowing(c: Client) {
    && AudioOnly(c.sender.queue, c.machine.next, c.sender.generation)
    && (c.sender.status == PAUSED ==> c.sender.queue == [] && Still(c))
  }

  /** What may stand behind a command: an end behind a pause, anything behind the last record that is sent. */
  predicate Behind(o: Outbound, rest: seq<Outbound>, s: Sender, sequence: nat, capture: Capture) {
    match o.kind
    case PAUSE => rest == [] || EndFits(rest[0], s, sequence)
    case RESUME => rest == [] || !capture.Reopens()
    case _ => true
  }

  predicate EndFits(o: Outbound, s: Sender, sequence: nat) {
    o.kind == F.END && CommandFits(o, s, sequence)
  }

  /** No audio comes behind a command, unless the capture opened late; behind a pause with no end behind it, none. */
  ghost predicate QuietFor(o: Outbound, rest: seq<Outbound>, c: Client) {
    && Still(c) && (!c.late ==> QueuedAudio(rest) == [])
    && (o.kind == F.PAUSE && rest == [] ==> Quiet(c.capture))
  }

  /** The first command of the queue is at `k`, behind audio the server wants next. */
  ghost predicate CommandAt(c: Client, k: nat) {
    var q := c.sender.queue;
    && k < |q| && (c.sender.status == PAUSED ==> k == 0)
    && AudioOnly(q[..k], c.machine.next, c.sender.generation)
    && CommandFits(q[k], c.sender, c.machine.next + k)
    && Behind(q[k], q[k + 1..], c.sender, c.machine.next + k + 1, c.capture)
    && QuietFor(q[k], q[k + 1..], c)
  }

  ghost predicate Commanded(c: Client) {
    exists k: nat :: CommandAt(c, k)
  }

  /** A command is on the wire: the server has moved, the sender has not. */
  predicate Crossing(o: Outbound, s: Sender, m: M.Machine) {
    match o.kind
    case PAUSE => s.status == STREAMING && m.state == M.PAUSED && m.generation == Some(s.generation)
    case RESUME => s.status == PAUSED && m.state == M.STREAMING && o.generation == s.generation + 1
                   && m.generation == Some(o.generation)
    case END => m.state == M.ENDED
    case _ => false
  }

  ghost predicate Working(c: Client) {
    InStep(c) && (Flowing(c) || Commanded(c))
  }

  /** A command is on the wire, and the records behind it are those the server will want. */
  ghost predicate Commanding(c: Client, o: Outbound) {
    && Crossing(o, c.sender, c.machine) && c.sender.next == c.machine.next + |c.sender.queue|
    && Behind(o, c.sender.queue, c.sender, c.machine.next, c.capture)
    && QuietFor(o, c.sender.queue, c)
  }

  /** The worker's exchange is in step with the server: nothing is on the wire, or audio is. */
  predicate Moving(c: Client) {
    c.phase.Ready? || (c.phase.InFlight? && !IsCommand(c.phase.o))
  }

  ghost predicate Orderly(c: Client) {
    match c.phase
    case Idle => c.sender == FreshSender(c.sender.limit) && Quiet(c.capture) && !c.capture.started && c.sent == []
    case Starting => c.sender.status == CONNECTING && c.sender.queue == [] && Quiet(c.capture) && !c.capture.started
                     && c.machine.state == M.STREAMING && c.machine.generation == Some(c.sender.generation)
                     && c.sender.next == c.machine.next
    case Ready => Working(c)
    case InFlight(o) => if IsCommand(o) then Commanding(c, o) else Working(c)
    case Stopped => c.sender.status == ENDED && c.machine.state == M.ENDED
                    && Still(c) && (!c.late ==> QueuedAudio(c.sender.queue) == [])
  }

  function QueuedAudio(queue: seq<Outbound>): Bytes {
    if queue == [] then [] else queue[0].payload + QueuedAudio(queue[1..])
  }

  /** What the server has is the client's own transcript, in which nothing was refused. */
  ghost predicate Served(scope: M.Scope, m: M.Machine, sent: seq<F.Record>) {
    && scope.Valid() && m.scope == scope
    && M.Follows(m, sent) && m.state != M.FAILED
    && M.AcceptAll(M.Fresh(scope), sent).0 == m
    && M.Trace(M.Fresh(scope), sent) == sent
  }

  ghost predicate Conserved(c: Client) {
    M.AudioOf(c.sent) + (QueuedAudio(c.sender.queue) + c.capture.buffer) == c.captured
  }

  ghost predicate Live(c: Client) {
    Orderly(c) && (!c.late ==> Conserved(c)) && |c.capture.buffer| % 2 == 0 && c.sender.limit > 0
  }

  /** The client's own half of the invariant. */
  ghost predicate Ordered(c: Client) {
    && c.Sound()
    && (!c.late ==> M.AudioOf(c.sent) <= c.captured)
    && (!c.sender.closed ==> Live(c))
  }

  ghost predicate Consistent(c: Client) {
    Served(c.scope, c.machine, c.sent) && Ordered(c)
  }

  // ----- The sender's queue -----

  lemma {:induction false} QueuedAudioSnoc(queue: seq<Outbound>, o: Outbound)
    ensures QueuedAudio(queue + [o]) == QueuedAudio(queue) + o.payload
  {
    if queue == [] {
      assert queue + [o] == [o] && [o][1..] == [];
    } else {
      assert (queue + [o])[1..] == queue[1..] + [o];
      QueuedAudioSnoc(queue[1..], o);
    }
  }

  /** A sender in its streaming flow, with audio numbered on from `base`. */
  ghost predicate Streaming(s: Sender, base: nat) {
    s.status == STREAMING && s.next == base + |s.queue| && AudioOnly(s.queue, base, s.generation)
  }

  lemma {:induction false} EnqueueAudioFlows(s: Sender, base: nat, payload: Bytes, now: int)
    requires Streaming(s, base) && !s.closed
    requires 0 < |payload| <= CHUNK_BYTES && |payload| % 2 == 0
    ensures EnqueueAudio(s, payload, now).1 <==> !EnqueueAudio(s, payload, now).0.closed
    ensures EnqueueAudio(s, payload, now).1 ==>
      && Streaming(EnqueueAudio(s, payload, now).0, base)
      && EnqueueAudio(s, payload, now).0.generation == s.generation
      && EnqueueAudio(s, payload, now).0.limit == s.limit
      && QueuedAudio(EnqueueAudio(s, payload, now).0.queue) == QueuedAudio(s.queue) + payload
  {
    QueuedAudioSnoc(s.queue, Outbound(F.AUDIO, s.next, s.generation, now, payload));
  }

  /** Appending moves the new bytes into the queue and the buffer, or closes the sender. */
  lemma {:induction false} AppendFlows(c: Capture, s: Sender, base: nat, pcm: Bytes, now: int)
    requires |c.buffer| < CHUNK_BYTES && |c.buffer| % 2 == 0 && |pcm| % 2 == 0
    requires Streaming(s, base) && !s.closed
    ensures !Append(c, s, pcm, now).1.closed ==>
      && Streaming(Append(c, s, pcm, now).1, base)
      && Append(c, s, pcm, now).1.generation == s.generation
      && Append(c, s, pcm, now).1.limit == s.limit
      && Append(c, s, pcm, now).0 == c.(buffer := Append(c, s, pcm, now).0.buffer)
      && |Append(c, s, pcm, now).0.buffer| % 2 == 0
      && QueuedAudio(Append(c, s, pcm, now).1.queue) + Append(c, s, pcm, now).0.buffer
         == QueuedAudio(s.queue) + c.buffer + pcm
    decreases |pcm|
  {
    hide Streaming;
    hide EnqueueAudio;
    hide QueuedAudio;
    if pcm != [] {
      var take := Min(CHUNK_BYTES - |c.buffer|, |pcm|);
      var filled := c.buffer + pcm[..take];
      assert pcm == pcm[..take] + pcm[take..];
      if |filled| < CHUNK_BYTES {
        AppendFlows(c.(buffer := filled), s, base, pcm[take..], now);
        assert QueuedAudio(s.queue) + c.buffer + pcm == QueuedAudio(s.queue) + filled + pcm[take..];
      } else {
        EnqueueAudioFlows(s, base, filled, now);
        var (t, accepted) := EnqueueAudio(s, filled, now);
        if accepted {
          AppendFlows(c.(buffer := []), t, base, pcm[take..], now);
          assert QueuedAudio(s.queue) + c.buffer + pcm == QueuedAudio(t.queue) + [] + pcm[take..];
        }
      }
    }
  }

  lemma {:induction false} FlushFlows(c: Capture, s: Sender, base: nat, now: int)
    requires |c.buffer| < CHUNK_BYTES && |c.buffer| % 2 == 0
    requires Streaming(s, base) && !s.closed
    ensures Flush(c, s, now).2 <==> !Flush(c, s, now).1.closed
    ensures Flush(c, s, now).2 ==>
      && Streaming(Flush(c, s, now).1, base)
      && Flush(c, s, now).1.generation == s.generation
      && Flush(c, s, now).1.limit == s.limit
      && Flush(c, s, now).0 == c.(buffer := [])
      && QueuedAudio(Flush(c, s, now).1.queue) == QueuedAudio(s.queue) + c.buffer
  {
    if c.buffer != [] {
      EnqueueAudioFlows(s, base, c.buffer, now);
    }
  }

  // ----- One step -----

  lemma {:induction false} ServedAccept(scope: M.Scope, m: M.Machine, sent: seq<F.Record>, r: F.Record)
    requires Served(scope, m, sent) && M.AcceptRecord(m, r).1.status == M.ACCEPTED
    ensures Served(scope, M.AcceptRecord(m, r).0, sent + [r])
  {
    M.AcceptOutcomes(m, r);
    M.FollowsStep(m, sent, r);
    M.AcceptedIsNotFailed(m, r);
    assert (sent + [r])[..|sent|] == sent;
  }

  lemma {:induction false} ConnectConsistent(c: Client)
    requires Consistent(c) && c.phase.Idle? && !c.sender.closed
    ensures Consistent(Step(c, Connect))
  {
    var r := StartRecord(c.scope);
    assert M.AcceptRecord(c.machine, r).1.status == M.ACCEPTED;
    ServedAccept(c.scope, c.machine, c.sent, r);
    M.AudioSnoc(c.sent, r);
  }

  lemma {:induction false} ConservedIsPrefix(c: Client)
    requires Conserved(c)
    ensures M.AudioOf(c.sent) <= c.captured
  {
  }

  lemma {:induction false} AudioIsAccepted(m: M.Machine, o: Outbound)
    requires m.state == M.STREAMING && AudioRecord(o, m.next, o.generation) && m.generation == Some(o.generation)
    ensures M.AcceptRecord(m, RecordOf(o)).1.status == M.ACCEPTED
    ensures M.AcceptRecord(m, RecordOf(o)).0.state == m.state
    ensures M.AcceptRecord(m, RecordOf(o)).0.generation == m.generation
    ensures M.AcceptRecord(m, RecordOf(o)).0.next == m.next + 1
  {
  }

  lemma {:induction false} CommandIsAccepted(m: M.Machine, o: Outbound, s: Sender)
    requires CommandFits(o, s, m.next) && SameState(s.status, m.state) && m.generation == Some(s.generation)
    ensures M.AcceptRecord(m, RecordOf(o)).1.status == M.ACCEPTED
    ensures Crossing(o, s, M.AcceptRecord(m, RecordOf(o)).0)
    ensures M.AcceptRecord(m, RecordOf(o)).0.next == m.next + 1
  {
  }

  /** Taking the oldest record moves its bytes from the queue to the transcript. */
  lemma {:induction false} TakeConserves(c: Client, r: F.Record)
    requires Conserved(c) && c.sender.queue != [] && r.payload == c.sender.queue[0].payload
    requires r.kind == F.AUDIO || r.payload == []
    ensures M.AudioOf(c.sent + [r]) + (QueuedAudio(c.sender.queue[1..]) + c.capture.buffer) == c.captured
  {
    hide M.AudioOf;
    hide QueuedAudio;
    var sent, first, rest := M.AudioOf(c.sent), r.payload, QueuedAudio(c.sender.queue[1..]);
    M.AudioSnoc(c.sent, r);
    assert sent + [] == sent;
    HeadQueued(c.sender.queue);
    assert sent + first + (rest + c.capture.buffer) == sent + (first + rest + c.capture.buffer);
  }

  lemma {:induction false} HeadQueued(queue: seq<Outbound>)
    requires queue != []
    ensures QueuedAudio(queue) == queue[0].payload + QueuedAudio(queue[1..])
  {
  }

  /** The oldest record of a working sender is audio the server wants next, or its first command. */
  lemma {:induction false} OldestFits(c: Client)
    requires Working(c) && c.sender.queue != []
    ensures c.sender.queue[0].kind == F.AUDIO ==>
      AudioRecord(c.sender.queue[0], c.machine.next, c.sender.generation) && c.sender.status == STREAMING
    ensures c.sender.queue[0].kind != F.AUDIO ==> CommandAt(c, 0)
  {
    if Commanded(c) {
      var k: nat :| CommandAt(c, k);
      assert k > 0 ==> c.sender.queue[..k][0] == c.sender.queue[0];
    }
  }

  /** The queue left behind, once the server has taken the oldest record. */
  lemma {:induction false} RestIsOrderly(c: Client, d: Client)
    requires Working(c) && c.sender.queue != [] && c.sender.queue[0].kind == F.AUDIO
    requires d.sender == c.sender.(queue := c.sender.queue[1..]) && d.capture == c.capture && d.late == c.late
    requires d.machine.state == c.machine.state && d.machine.generation == c.machine.generation
    requires d.machine.next == c.machine.next + 1
    ensures Working(d)
  {
    if Commanded(c) {
      var k: nat :| CommandAt(c, k);
      CommandMovesUp(c, d, k);
    }
  }

  lemma {:induction false} CommandMovesUp(c: Client, d: Client, k: nat)
    requires CommandAt(c, k) && c.sender.queue[0].kind == F.AUDIO
    requires d.sender == c.sender.(queue := c.sender.queue[1..]) && d.capture == c.capture && d.late == c.late
    requires d.machine.next == c.machine.next + 1
    ensures k > 0 && CommandAt(d, k - 1)
  {
    hide QueuedAudio;
    var q := c.sender.queue;
    assert k > 0;
    assert q[1..][..k - 1] == q[..k][1..];
    assert q[1..][k..] == q[k + 1..];
  }

  lemma {:induction false} TakeOrderly(c: Client)
    requires Working(c) && c.phase.Ready? && !c.sender.closed && c.sender.queue != []
    ensures M.AcceptRecord(c.machine, RecordOf(c.sender.queue[0])).1.status == M.ACCEPTED
    ensures Orderly(Taken(c))
  {
    hide QueuedAudio;
    OldestFits(c);
    if c.sender.queue[0].kind == F.AUDIO {
      AudioIsAccepted(c.machine, c.sender.queue[0]);
      RestIsOrderly(c, Taken(c));
    } else {
      CommandIsAccepted(c.machine, c.sender.queue[0], c.sender);
    }
  }

  lemma {:induction false} CommandsCarryNoAudio(c: Client)
    requires Working(c) && c.sender.queue != []
    ensures c.sender.queue[0].kind == F.AUDIO || c.sender.queue[0].payload == []
  {
    OldestFits(c);
  }

  lemma {:induction false} TakeOrdered(c: Client)
    requires Live(c) && c.Sound() && c.phase.Ready? && !c.sender.closed && c.sender.queue != []
    ensures M.AcceptRecord(c.machine, RecordOf(c.sender.queue[0])).1.status == M.ACCEPTED
    ensures Ordered(Taken(c))
  {
    TakeOrderly(c);
    if !c.late {
      CommandsCarryNoAudio(c);
      TakeConserves(c, RecordOf(c.sender.queue[0]));
      ConservedIsPrefix(Taken(c));
    }
  }

  lemma {:induction false} TakeConsistent(c: Client)
    requires Consistent(c) && c.phase.Ready? && !c.sender.closed && c.sender.queue != []
    ensures Consistent(Step(c, TakeNext))
  {
    hide Served;
    TakeOrdered(c);
    ServedAccept(c.scope, c.machine, c.sent, RecordOf(c.sender.queue[0]));
  }

  lemma {:induction false} TakeNothing(c: Client)
    requires Ordered(c) && !(c.phase.Ready? && !c.sender.closed && c.sender.queue != [])
    ensures Ordered(Taken(c)) && Taken(c).machine == c.machine && Taken(c).sent == c.sent
  {
  }

  /** A working client whose queue and capture stay is working still. */
  lemma {:induction false} SameQueueWorks(c: Client, d: Client)
    requires Working(c) && d.machine == c.machine && d.late == c.late
    requires d.sender == c.sender.(sentChunks := d.sender.sentChunks, acknowledgedChunks := d.sender.acknowledgedChunks)
    requires d.capture == c.capture.(started := d.capture.started)
    requires d.capture.started == c.capture.started || c.sender.status == STREAMING
    ensures Working(d)
  {
    if Commanded(c) {
      var k: nat :| CommandAt(c, k);
      assert CommandAt(d, k);
    }
  }

  lemma {:induction false} AckAudioLive(c: Client, reopened: bool)
    requires Live(c) && c.phase.InFlight? && c.phase.o.kind == F.AUDIO
    ensures Live(AckedStep(c, reopened))
  {
    SameQueueWorks(c, AckedStep(c, reopened));
  }

  /** An acknowledged pause leaves nothing behind it, or the end that comes next. */
  lemma {:induction false} AckPauseOrderly(c: Client, reopened: bool)
    requires Orderly(c) && c.phase.InFlight? && c.phase.o.kind == F.PAUSE
    ensures Orderly(AckedStep(c, reopened))
  {
    var d := AckedStep(c, reopened);
    if c.sender.queue != [] {
      HeadQueued(c.sender.queue);
      assert c.sender.queue[0 + 1..] == c.sender.queue[1..];
      assert CommandAt(d, 0);
    }
  }

  lemma {:induction false} AckCommandLive(c: Client, reopened: bool)
    requires Live(c) && !AckedStep(c, reopened).sender.closed
    requires c.phase.Starting? || (c.phase.InFlight? && c.phase.o.kind != F.AUDIO)
    ensures Live(AckedStep(c, reopened))
  {
    if c.phase.InFlight? && c.phase.o.kind == F.PAUSE {
      AckPauseOrderly(c, reopened);
    }
  }

  lemma {:induction false} AckOrdered(c: Client, reopened: bool)
    requires Ordered(c)
    ensures Ordered(AckedStep(c, reopened))
  {
    if !AckedStep(c, reopened).sender.closed {
      if c.phase.InFlight? && c.phase.o.kind == F.AUDIO {
        AckAudioLive(c, reopened);
      } else if c.phase.InFlight? || c.phase.Starting? {
        AckCommandLive(c, reopened);
      }
    }
  }

  // ----- What goes behind an outstanding command -----

  lemma {:induction false} AudioHoldsNoCommand(queue: seq<Outbound>, base: nat, generation: nat)
    requires AudioOnly(queue, base, generation)
    ensures !HoldsCommand(queue)
  {
  }

  lemma {:induction false} CommandedHoldsOne(c: Client)
    ensures Commanded(c) ==> HoldsCommand(c.sender.queue)
  {
  }

  predicate Conversing(status: Status) {
    status == STREAMING || status == PAUSED
  }

  lemma {:induction false} NoCommandFlows(c: Client)
    requires Orderly(c) && !CommandOutstanding(c) && Conversing(c.sender.status)
    ensures Moving(c) && InStep(c) && Flowing(c)
  {
    CommandedHoldsOne(c);
  }

  lemma {:induction false} CommandIsFirst(c: Client)
    requires Orderly(c) && CommandOutstanding(c) && !c.phase.Stopped?
    ensures (c.phase.InFlight? && IsCommand(c.phase.o) && Commanding(c, c.phase.o))
      || (Moving(c) && Working(c) && Commanded(c))
  {
    if Moving(c) && Flowing(c) {
      AudioHoldsNoCommand(c.sender.queue, c.machine.next, c.sender.generation);
    }
  }

  /** Nothing but a fitting end goes behind a pause or resume that is on its way. */
  predicate Joins(c: Client, added: seq<Outbound>) {
    added != [] ==> !ResumeAhead(c) && (PauseAhead(c) ==> EndFits(added[0], c.sender, c.sender.next))
  }

  /** The same exchange with records added to the queue, and a capture that can still reopen or no longer can. */
  ghost predicate Grown(c: Client, d: Client, added: seq<Outbound>) {
    && d.phase == c.phase && d.machine == c.machine && d.late == c.late
    && d.sender == c.sender.(queue := c.sender.queue + added, next := c.sender.next + |added|)
    && (d.capture.Reopens() ==> c.capture.Reopens())
    && Still(d) && (!c.late ==> QueuedAudio(added) == [])
    && (PauseAhead(c) && added == [] ==> Quiet(d.capture))
  }

  lemma {:induction false} QueuedAudioConcat(a: seq<Outbound>, b: seq<Outbound>)
    ensures QueuedAudio(a + b) == QueuedAudio(a) + QueuedAudio(b)
  {
    if a == [] {
      assert a + b == b;
    } else {
      assert (a + b)[0] == a[0] && (a + b)[1..] == a[1..] + b;
      QueuedAudioConcat(a[1..], b);
    }
  }

  /** What a command and the records behind it are, once more is added. */
  lemma {:induction false} BehindGrows(c: Client, d: Client, added: seq<Outbound>, o: Outbound, rest: seq<Outbound>,
                                       sequence: nat)
    requires Grown(c, d, added) && Joins(c, added)
    requires Behind(o, rest, c.sender, sequence, c.capture) && QuietFor(o, rest, c)
    requires c.sender.next == sequence + |rest|
    requires o.kind == F.PAUSE && rest == [] ==> PauseAhead(c)
    requires o.kind == F.RESUME && rest == [] && c.capture.Reopens() ==> ResumeAhead(c)
    ensures Behind(o, rest + added, d.sender, sequence, d.capture) && QuietFor(o, rest + added, d)
  {
    hide QueuedAudio;
    hide PauseAhead;
    hide ResumeAhead;
    QueuedAudioConcat(rest, added);
    if rest == [] {
      assert rest + added == added;
    } else {
      assert (rest + added)[0] == rest[0];
    }
  }

  lemma {:induction false} CommandAtGrows(c: Client, d: Client, added: seq<Outbound>, k: nat)
    requires Moving(c) && InStep(c) && CommandAt(c, k) && Grown(c, d, added) && Joins(c, added)
    ensures CommandAt(d, k)
  {
    hide QueuedAudio;
    hide Joins;
    var q := c.sender.queue;
    FirstIsAhead(c, k);
    BehindGrows(c, d, added, q[k], q[k + 1..], c.machine.next + k + 1);
    assert (q + added)[..k] == q[..k] && (q + added)[k] == q[k];
    assert (q + added)[k + 1..] == q[k + 1..] + added;
  }

  /** A pause or resume with nothing behind it is on its way, and the conversation goes on behind it. */
  lemma {:induction false} FirstIsAhead(c: Client, k: nat)
    requires Moving(c) && CommandAt(c, k)
    ensures c.sender.queue[k].kind == F.PAUSE && c.sender.queue[k + 1..] == [] ==> PauseAhead(c)
    ensures c.sender.queue[k].kind == F.RESUME && c.sender.queue[k + 1..] == [] && c.capture.Reopens() ==>
      ResumeAhead(c)
  {
    hide QueuedAudio;
    hide QuietFor;
    var q := c.sender.queue;
    if q[k + 1..] == [] && q[k].kind != F.END {
      assert |q| == k + 1;
      assert forall i :: 0 <= i < k ==> q[i] == q[..k][i];
      assert !Holds(q, F.END);
    }
  }

  /** Behind the first outstanding command, the queue may grow by whatever joins it. */
  lemma {:induction false} GrownIsOrderly(c: Client, d: Client, added: seq<Outbound>)
    requires Orderly(c) && CommandOutstanding(c) && !c.phase.Stopped?
    requires Grown(c, d, added) && Joins(c, added)
    ensures Orderly(d)
  {
    hide QueuedAudio;
    hide CommandAt;
    hide Joins;
    CommandIsFirst(c);
    if c.phase.InFlight? && IsCommand(c.phase.o) {
      BehindGrows(c, d, added, c.phase.o, c.sender.queue, c.machine.next);
    } else {
      var k: nat :| CommandAt(c, k);
      CommandAtGrows(c, d, added, k);
    }
  }

  lemma {:induction false} OutstandingIsCommand(c: Client, kind: F.MessageType)
    requires Outstanding(c, kind) && kind != F.AUDIO
    ensures CommandOutstanding(c)
  {
  }

  /** A pause that the conversation goes on behind is the last record, and the capture is quiet. */
  lemma {:induction false} PauseIsFirst(c: Client)
    requires Orderly(c) && PauseAhead(c)
    ensures CommandOutstanding(c) && Quiet(c.capture)
    ensures (c.phase.InFlight? && c.phase.o.kind == F.PAUSE && Commanding(c, c.phase.o) && c.sender.queue == [])
      || (Moving(c) && Working(c) && exists k: nat :: CommandAt(c, k) && LastIs(c.sender.queue, k, F.PAUSE))
  {
    hide QueuedAudio;
    OutstandingIsCommand(c, F.PAUSE);
    CommandIsFirst(c);
    if Moving(c) {
      var k: nat :| CommandAt(c, k);
      LastBehindAudio(c, k);
    }
  }

  predicate LastIs(queue: seq<Outbound>, k: nat, kind: F.MessageType) {
    |queue| == k + 1 && queue[k].kind == kind
  }

  lemma {:induction false} LastBehindAudio(c: Client, k: nat)
    requires CommandAt(c, k) && !Outstanding(c, F.END)
    ensures c.sender.queue[k].kind == F.PAUSE ==> |c.sender.queue| == k + 1
    ensures c.sender.queue[k].kind != F.END
  {
    hide QuietFor;
    var q := c.sender.queue;
    assert q[k + 1..] != [] ==> q[k + 1..][0] == q[k + 1];
  }

  /** So is a resume; nothing is ahead of it. */
  lemma {:induction false} ResumeIsFirst(c: Client)
    requires Orderly(c) && ResumeAhead(c)
    ensures CommandOutstanding(c)
    ensures (c.phase.InFlight? && c.phase.o.kind == F.RESUME && Commanding(c, c.phase.o) && c.sender.queue == [])
      || (Moving(c) && Working(c) && CommandAt(c, 0) && LastIs(c.sender.queue, 0, F.RESUME))
  {
    hide QueuedAudio;
    OutstandingIsCommand(c, F.RESUME);
    CommandIsFirst(c);
    if Moving(c) {
      var k: nat :| CommandAt(c, k);
      assert k == 0;
      LastBehindAudio(c, 0);
    }
  }

  /** Behind a command, and while the client is not streaming, only a capture that opened late is heard. */
  lemma {:induction false} OtherwiseStill(c: Client)
    requires Orderly(c) && (c.sender.status != STREAMING || CommandOutstanding(c))
    ensures Still(c)
  {
    hide QueuedAudio;
    if CommandOutstanding(c) && !c.phase.Stopped? && !c.phase.Idle? && !c.phase.Starting? {
      CommandIsFirst(c);
    }
  }

  // ----- Blocks -----

  lemma {:induction false} StreamingIsOrderly(c: Client, d: Client)
    requires Orderly(c) && InStep(c) && Moving(c)
    requires d.phase == c.phase && d.machine == c.machine
    requires Streaming(d.sender, c.machine.next) && c.sender.status == STREAMING
    requires d.sender.generation == c.sender.generation
    ensures Orderly(d)
  {
  }

  lemma {:induction false} StreamingBlockLive(c: Client, pcm: Bytes, now: int)
    requires Live(c) && c.Sound() && |pcm| % 2 == 0
    requires c.capture.hasOpened && c.capture.admitting && !c.capture.stopped && !c.sender.closed
    requires !Captured(c, pcm, now).sender.closed && Timely(c)
    ensures Live(Captured(c, pcm, now))
  {
    var d := Captured(c, pcm, now);
    NoCommandFlows(c);
    AppendFlows(c.capture, c.sender, c.machine.next, pcm, now);
    StreamingIsOrderly(c, d);
    var a, q, b := M.AudioOf(c.sent), QueuedAudio(c.sender.queue), c.capture.buffer;
    assert a + (q + b + pcm) == a + (q + b) + pcm;
  }

  lemma {:induction false} EnqueueExtends(s: Sender, payload: Bytes, now: int)
    requires !s.closed && 0 < |payload| <= CHUNK_BYTES && |payload| % 2 == 0
    ensures var (t, accepted) := EnqueueAudio(s, payload, now);
      if accepted then
        var o := Outbound(F.AUDIO, s.next, s.generation, now, payload);
        s.status == STREAMING && t == s.(queue := s.queue + [o], next := s.next + 1)
      else t.closed || t == s
  {
  }

  /** Whole chunks go to the end of the queue; a sender that does not stream takes none. */
  lemma {:induction false} AppendExtends(c: Capture, s: Sender, pcm: Bytes, now: int) returns (added: seq<Outbound>)
    requires |c.buffer| < CHUNK_BYTES && |c.buffer| % 2 == 0 && |pcm| % 2 == 0 && !s.closed
    ensures var (d, t) := Append(c, s, pcm, now);
      !t.closed ==>
        && t == s.(queue := s.queue + added, next := s.next + |added|)
        && d == c.(stopped := d.stopped, buffer := d.buffer) && |d.buffer| % 2 == 0
        && (s.status != STREAMING ==> added == [])
    decreases |pcm|
  {
    hide EnqueueAudio;
    added := [];
    assert s.queue + [] == s.queue;
    if pcm != [] {
      var take := Min(CHUNK_BYTES - |c.buffer|, |pcm|);
      var filled := c.buffer + pcm[..take];
      if |filled| < CHUNK_BYTES {
        added := AppendExtends(c.(buffer := filled), s, pcm[take..], now);
      } else {
        EnqueueExtends(s, filled, now);
        var (t, accepted) := EnqueueAudio(s, filled, now);
        if accepted {
          var rest := AppendExtends(c.(buffer := []), t, pcm[take..], now);
          var o := Outbound(F.AUDIO, s.next, s.generation, now, filled);
          added := [o] + rest;
          assert s.queue + [o] + rest == s.queue + added;
        }
      }
    }
  }

  /** What a late capture delivers goes behind the outstanding commands, or is refused. */
  lemma {:induction false} LateBlockLive(c: Client, pcm: Bytes, now: int)
    requires Live(c) && c.Sound() && |pcm| % 2 == 0
    requires c.capture.hasOpened && c.capture.admitting && !c.capture.stopped && !c.sender.closed
    requires !Captured(c, pcm, now).sender.closed && !Timely(c)
    ensures Live(Captured(c, pcm, now))
  {
    hide QueuedAudio;
    hide Append;
    hide CommandAt;
    var d := Captured(c, pcm, now);
    var added := AppendExtends(c.capture, c.sender, pcm, now);
    OtherwiseStill(c);
    if PauseAhead(c) {
      PauseIsFirst(c);
    }
    assert c.sender.queue + [] == c.sender.queue;
    if CommandOutstanding(c) && !c.phase.Stopped? && !c.phase.Idle? && !c.phase.Starting? {
      GrownIsOrderly(c, d, added);
    } else if c.sender.status == PAUSED {
      NoCommandFlows(c);
    }
  }

  lemma {:induction false} ClosedStaysClosed(c: Capture, s: Sender, pcm: Bytes, now: int)
    requires |c.buffer| < CHUNK_BYTES && s.closed
    ensures Append(c, s, pcm, now).1.closed
    decreases |pcm|
  {
    if pcm != [] {
      var take := Min(CHUNK_BYTES - |c.buffer|, |pcm|);
      var filled := c.buffer + pcm[..take];
      if |filled| < CHUNK_BYTES {
        ClosedStaysClosed(c.(buffer := filled), s, pcm[take..], now);
      } else {
        var (t, accepted) := EnqueueAudio(s, filled, now);
        if accepted {
          ClosedStaysClosed(c.(buffer := []), t, pcm[take..], now);
        }
      }
    }
  }

  lemma {:induction false} BlockOrdered(c: Client, pcm: Bytes, now: int)
    requires Ordered(c) && |pcm| % 2 == 0
    ensures Ordered(Captured(c, pcm, now))
  {
    hide Live;
    assert c.captured <= c.captured + pcm;
    if c.capture.hasOpened && c.capture.admitting && !c.capture.stopped {
      if c.sender.closed {
        ClosedStaysClosed(c.capture, c.sender, pcm, now);
      } else if !Captured(c, pcm, now).sender.closed {
        if Timely(c) {
          StreamingBlockLive(c, pcm, now);
        } else {
          LateBlockLive(c, pcm, now);
        }
      }
    }
  }

  // ----- Commands -----

  lemma {:induction false} HoldsSnoc(queue: seq<Outbound>, o: Outbound, kind: F.MessageType)
    ensures Holds(queue + [o], kind) <==> Holds(queue, kind) || o.kind == kind
  {
    assert (queue + [o])[|queue|] == o;
    assert forall i :: 0 <= i < |queue| ==> (queue + [o])[i] == queue[i];
  }

  /** With no command outstanding, the new one is the queue's first. */
  lemma {:induction false} PutFirst(c: Client, d: Client, o: Outbound)
    requires Moving(c) && InStep(c) && Flowing(c) && !c.sender.closed && !d.sender.closed
    requires CommandFits(o, c.sender, c.sender.next) && Still(c) && (o.kind == F.PAUSE ==> Quiet(c.capture))
    requires d == c.(sender := Put(c.sender, o).0)
    ensures Orderly(d)
  {
    var q, k := d.sender.queue, |c.sender.queue|;
    assert q[..k] == c.sender.queue && q[k] == o && q[k + 1..] == [];
    assert CommandAt(d, k);
  }

  lemma {:induction false} PutLive(c: Client, d: Client, o: Outbound)
    requires Live(c) && !c.sender.closed && Conversing(c.sender.status) && !d.sender.closed
    requires CommandFits(o, c.sender, c.sender.next) && Still(c) && (o.kind == F.PAUSE ==> Quiet(c.capture))
    requires d == c.(sender := Put(c.sender, o).0)
    requires (PauseAhead(c) ==> o.kind == F.END) && !ResumeAhead(c)
    ensures Live(d)
  {
    hide CommandAt;
    hide QueuedAudio;
    QueuedAudioSnoc(c.sender.queue, o);
    assert QueuedAudio(c.sender.queue) + [] == QueuedAudio(c.sender.queue);
    SameAudio(c, d);
    if CommandOutstanding(c) {
      OneCommand(o);
      GrownIsOrderly(c, d, [o]);
    } else {
      NoCommandFlows(c);
      PutFirst(c, d, o);
    }
  }

  lemma {:induction false} OneCommand(o: Outbound)
    requires o.payload == []
    ensures QueuedAudio([o]) == []
  {
  }

  lemma {:induction false} SameAudio(c: Client, d: Client)
    requires d.sent == c.sent && d.captured == c.captured
    requires QueuedAudio(d.sender.queue) == QueuedAudio(c.sender.queue) && d.capture.buffer == c.capture.buffer
    ensures Conserved(d) <==> Conserved(c)
  {
  }

  /** The client after its capture has been quietened and flushed. */
  function Flushed(c: Client, now: int): Client {
    var (capture, sender, flushed) := Flush(c.capture.(admitting := false), c.sender, now);
    c.(capture := capture, sender := sender)
  }

  /** A capture that falls silent, with an empty buffer or with late audio that is lost. */
  lemma {:induction false} SilencedLive(c: Client, d: Client)
    requires Live(c) && (c.capture.buffer == [] || c.late)
    requires d == c.(capture := d.capture) && Quiet(d.capture)
    requires d.capture.Reopens() ==> c.capture.Reopens()
    requires d.capture.started == c.capture.started
    ensures Live(d)
  {
    hide QueuedAudio;
    hide CommandAt;
    SameAudioWhenSilent(c, d);
    assert c.sender.queue + [] == c.sender.queue;
    if CommandOutstanding(c) && !c.phase.Stopped? && !c.phase.Idle? && !c.phase.Starting? {
      NoneAdded();
      GrownIsOrderly(c, d, []);
    } else if Conversing(c.sender.status) {
      NoCommandFlows(c);
    }
  }

  lemma {:induction false} NoneAdded()
    ensures QueuedAudio([]) == []
  {
  }

  lemma {:induction false} SameAudioWhenSilent(c: Client, d: Client)
    requires c.capture.buffer == [] || c.late
    requires d == c.(capture := d.capture) && Quiet(d.capture)
    ensures !c.late && Conserved(c) ==> Conserved(d)
  {
  }

  /** Flushed audio joins the stream. */
  lemma {:induction false} StreamingFlushLive(c: Client, now: int)
    requires Live(c) && c.Sound() && !c.sender.closed && Timely(c) && c.capture.buffer != []
    requires !Flushed(c, now).sender.closed
    ensures Live(Flushed(c, now)) && !CommandOutstanding(Flushed(c, now))
  {
    var d := Flushed(c, now);
    NoCommandFlows(c);
    FlushFlows(c.capture.(admitting := false), c.sender, c.machine.next, now);
    StreamingIsOrderly(c, d);
    AudioHoldsNoCommand(d.sender.queue, c.machine.next, c.sender.generation);
    var a, q, b := M.AudioOf(c.sent), QueuedAudio(c.sender.queue), c.capture.buffer;
    assert a + ((q + b) + []) == a + (q + b);
  }

  /** Late audio that is flushed behind an outstanding command stays behind it. */
  lemma {:induction false} LateFlushLive(c: Client, now: int)
    requires Live(c) && c.Sound() && !c.sender.closed && c.sender.status == STREAMING && CommandOutstanding(c)
    requires c.capture.buffer != [] && !Flushed(c, now).sender.closed
    ensures Live(Flushed(c, now)) && !PauseAhead(c) && !PauseAhead(Flushed(c, now))
  {
    hide QueuedAudio;
    hide CommandAt;
    var d := Flushed(c, now);
    OtherwiseStill(c);
    if PauseAhead(c) {
      PauseIsFirst(c);
    }
    var o := Outbound(F.AUDIO, c.sender.next, c.sender.generation, now, c.capture.buffer);
    GrownIsOrderly(c, d, [o]);
    HoldsSnoc(c.sender.queue, o, F.PAUSE);
    HoldsSnoc(c.sender.queue, o, F.END);
  }

  /** The flush is refused when audio is buffered while the sender does not stream. */
  predicate FlushRefused(c: Client) {
    c.capture.buffer != [] && c.sender.status != STREAMING
  }

  lemma {:induction false} FlushLive(c: Client, now: int)
    requires Live(c) && c.Sound() && !c.sender.closed && !FlushRefused(c)
    requires !Flushed(c, now).sender.closed
    ensures var d := Flushed(c, now);
      && Live(d) && Quiet(d.capture) && d.sender.status == c.sender.status
      && Flush(c.capture.(admitting := false), c.sender, now).2
      && (PauseAhead(d) ==> PauseAhead(c) && d.sender == c.sender)
      && (ResumeAhead(d) ==> ResumeAhead(c) && d.sender == c.sender)
  {
    hide Live;
    hide Orderly;
    var d := Flushed(c, now);
    if c.capture.buffer == [] {
      SilencedLive(c, d);
    } else if CommandOutstanding(c) {
      LateFlushLive(c, now);
    } else {
      StreamingFlushLive(c, now);
      if Outstanding(d, F.PAUSE) {
        OutstandingIsCommand(d, F.PAUSE);
      }
    }
  }

  lemma {:induction false} FlushClosed(c: Capture, s: Sender, now: int)
    requires s.closed
    ensures Flush(c, s, now).1.closed
  {
  }

  /** Audio that a late opening let in is lost when its flush is refused, and nothing is asked for. */
  lemma {:induction false} RefusedFlushLive(c: Client, now: int, end: bool)
    requires Live(c) && c.Sound() && !c.sender.closed && FlushRefused(c)
    ensures Live(Ask(c, now, end)) && c.late
  {
    hide QueuedAudio;
    OtherwiseStill(c);
    var d := Ask(c, now, end);
    assert d == c.(capture := c.capture.(admitting := false, buffer := []));
    SilencedLive(c, d);
  }

  function Asking(now: int, end: bool): Event {
    if end then AskEnd(now) else AskPause(now)
  }

  lemma {:induction false} AskLive(c: Client, now: int, end: bool)
    requires Live(c) && c.Sound() && !c.sender.closed && !Clashes(c, Asking(now, end))
    requires !Ask(c, now, end).sender.closed
    ensures Live(Ask(c, now, end))
  {
    hide Orderly;
    hide Conserved;
    hide EnqueueAudio;
    hide PauseAhead;
    hide ResumeAhead;
    if FlushRefused(c) {
      RefusedFlushLive(c, now, end);
      return;
    }
    var e, d := Flushed(c, now), Ask(c, now, end);
    assert !e.sender.closed;
    FlushLive(c, now);
    if e.sender.status == STREAMING || (end && e.sender.status == PAUSED) {
      AheadStatus(e);
      var kind := if end then F.END else F.PAUSE;
      PutLive(e, d, Outbound(kind, e.sender.next, e.sender.generation, 0, []));
    }
  }

  lemma {:induction false} AheadStatus(c: Client)
    ensures PauseAhead(c) ==> c.sender.status == STREAMING
    ensures ResumeAhead(c) ==> c.sender.status == PAUSED
  {
  }

  lemma {:induction false} AskOrdered(c: Client, now: int, end: bool)
    requires Ordered(c) && !Clashes(c, Asking(now, end))
    ensures Ordered(Ask(c, now, end))
  {
    hide Live;
    if c.sender.closed {
      FlushClosed(c.capture.(admitting := false), c.sender, now);
    } else if !Ask(c, now, end).sender.closed {
      AskLive(c, now, end);
    }
  }

  lemma {:induction false} ResumeLive(c: Client)
    requires Live(c) && c.Sound() && !c.sender.closed && !Clashes(c, AskResume) && !Resume(c.sender).0.closed
    ensures Live(Step(c, AskResume))
  {
    hide Orderly;
    hide Conserved;
    hide PauseAhead;
    hide ResumeAhead;
    if c.sender.status == PAUSED {
      OtherwiseStill(c);
      AheadStatus(c);
      var o := Outbound(F.RESUME, c.sender.next, c.sender.generation + 1, 0, []);
      PutLive(c, Step(c, AskResume), o);
    }
  }

  // ----- The capture -----

  lemma {:induction false} StartCaptureLive(c: Client)
    requires Live(c) && c.Sound()
    ensures Live(Step(c, StartCapture))
  {
    var d := Step(c, StartCapture);
    if c.sender.status == STREAMING && !c.capture.started {
      if Moving(c) {
        SameQueueWorks(c, d);
      }
    }
  }

  lemma {:induction false} CloseCaptureLive(c: Client)
    requires Live(c) && c.Sound()
    ensures Live(Step(c, CloseCapture))
  {
    hide QueuedAudio;
    hide CommandAt;
    var d := Step(c, CloseCapture);
    assert c.sender.queue + [] == c.sender.queue;
    if CommandOutstanding(c) && !c.phase.Stopped? && !c.phase.Idle? && !c.phase.Starting? {
      OtherwiseStill(c);
      if PauseAhead(c) {
        PauseIsFirst(c);
      }
      NoneAdded();
      GrownIsOrderly(c, d, []);
    } else if Conversing(c.sender.status) {
      NoCommandFlows(c);
    }
  }

  lemma {:induction false} LateIsOrderly(c: Client)
    requires Orderly(c)
    ensures Orderly(c.(late := true))
  {
    var d := c.(late := true);
    if Moving(c) && Commanded(c) {
      var k: nat :| CommandAt(c, k);
      assert CommandAt(d, k);
    }
  }

  /** A harmless opening: whatever is outstanding, no pause is on its way. */
  lemma {:induction false} OpenLive(c: Client)
    requires Live(c) && c.Sound() && Harmless(c, Open)
    ensures Live(Opened(c))
  {
    hide QueuedAudio;
    hide CommandAt;
    if c.capture.CanOpen() {
      var b, d := c.(late := true), Opened(c);
      LateIsOrderly(c);
      assert c.sender.queue + [] == c.sender.queue;
      if CommandOutstanding(c) && !c.phase.Stopped? {
        NoneAdded();
        assert !PauseAhead(b) && CommandOutstanding(b);
        GrownIsOrderly(b, d, []);
      } else if Conversing(c.sender.status) {
        NoCommandFlows(c);
      }
    }
  }

  // ----- Every step -----

  /** Every step but connecting and sending leaves the server alone. */
  lemma {:induction false} LocalStepKeepsServer(c: Client, e: Event)
    requires c.Sound()
    requires e.Connect? ==> !c.phase.Idle? || c.sender.closed
    requires e.TakeNext? ==> !c.phase.Ready? || c.sender.closed || c.sender.queue == []
    ensures Step(c, e).machine == c.machine && Step(c, e).sent == c.sent && Step(c, e).scope == c.scope
  {
    hide Append;
    hide Flush;
  }

  lemma {:induction false} CapturingStepOrdered(c: Client, e: Event)
    requires Ordered(c) && Allowed(c, e) && Harmless(c, e)
    requires e.StartCapture? || e.Open? || e.Block? || e.CloseCapture?
    ensures Ordered(Step(c, e))
  {
    hide Live;
    if e.Block? {
      BlockOrdered(c, e.pcm, e.now);
    } else if !c.sender.closed {
      if e.Open? {
        OpenLive(c);
      } else if e.StartCapture? {
        StartCaptureLive(c);
      } else {
        CloseCaptureLive(c);
      }
    }
  }

  lemma {:induction false} AskingStepOrdered(c: Client, e: Event)
    requires Ordered(c) && Allowed(c, e)
    requires e.AskPause? || e.AskResume? || e.AskEnd?
    ensures Ordered(Step(c, e))
  {
    hide Live;
    hide Ask;
    hide Clashes;
    if e.AskResume? {
      if !c.sender.closed && !Resume(c.sender).0.closed {
        ResumeLive(c);
      }
    } else {
      AskOrdered(c, e.now, e.AskEnd?);
    }
  }

  lemma {:induction false} LocalStepOrdered(c: Client, e: Event)
    requires Ordered(c) && Allowed(c, e) && Harmless(c, e)
    requires e.Connect? ==> !c.phase.Idle? || c.sender.closed
    requires e.TakeNext? ==> !c.phase.Ready? || c.sender.closed || c.sender.queue == []
    ensures Ordered(Step(c, e))
  {
    hide Ordered;
    match e
    case StartCapture => CapturingStepOrdered(c, e);
    case Open => CapturingStepOrdered(c, e);
    case Block(_, _) => CapturingStepOrdered(c, e);
    case CloseCapture => CapturingStepOrdered(c, e);
    case AskPause(_) => AskingStepOrdered(c, e);
    case AskResume => AskingStepOrdered(c, e);
    case AskEnd(_) => AskingStepOrdered(c, e);
    case TakeNext => TakeNothing(c);
    case AckReceived(reopened) => AckOrdered(c, reopened);
    case _ => ClosingOrdered(c, e);
  }

  lemma {:induction false} ClosingOrdered(c: Client, e: Event)
    requires Ordered(c) && (e.Connect? || e.Fault? || e.Close?)
    requires e.Connect? ==> !c.phase.Idle? || c.sender.closed
    ensures Ordered(Step(c, e))
  {
  }

  lemma {:induction false} StepConsistent(c: Client, e: Event)
    requires Consistent(c) && Allowed(c, e) && Harmless(c, e)
    ensures Consistent(Step(c, e))
  {
    if e.Connect? && c.phase.Idle? && !c.sender.closed {
      ConnectConsistent(c);
    } else if e.TakeNext? && c.phase.Ready? && !c.sender.closed && c.sender.queue != [] {
      TakeConsistent(c);
    } else {
      LocalStepOrdered(c, e);
      LocalStepKeepsServer(c, e);
    }
  }

  lemma {:induction false} ConsistentIsSound(c: Client)
    requires Consistent(c)
    ensures c.Sound()
  {
  }

  lemma {:induction false} RunConsistent(c: Client, es: seq<Event>)
    requires Consistent(c) && Disciplined(c, es) && OpensHarmlessly(c, es)
    ensures Consistent(Run(c, es))
  {
    hide Consistent;
    hide Step;
    ConsistentIsSound(c);
    if es != [] {
      RunConsistent(c, es[..|es| - 1]);
      StepConsistent(Run(c, es[..|es| - 1]), es[|es| - 1]);
    }
  }

  lemma {:induction false} InitialConsistent(scope: M.Scope, limit: nat)
    requires scope.Valid() && limit > 0
    ensures Consistent(Initial(scope, limit))
  {
  }

  lemma {:induction false} ScopeIsKept(c: Client, es: seq<Event>)
    requires c.Sound()
    ensures Run(c, es).scope == c.scope
  {
    if es != [] {
      ScopeIsKept(c, es[..|es| - 1]);
    }
  }

  // ----- The composition theorems -----

  predicate RunsTo(scope: M.Scope, limit: nat, es: seq<Event>, c: Client) {
    var start := Initial(scope, limit);
    Disciplined(start, es) && OpensHarmlessly(start, es) && c == Run(start, es)
  }

  /** A disciplined client whose capture never opens while a pause is on its way. */
  ghost predicate Reachable(scope: M.Scope, c: Client) {
    exists limit: nat, es: seq<Event> :: limit > 0 && RunsTo(scope, limit, es, c)
  }

  lemma {:induction false} ReachableIsConsistent(scope: M.Scope, c: Client)
    requires scope.Valid() && Reachable(scope, c)
    ensures Consistent(c) && c.scope == scope
  {
    var limit: nat, es: seq<Event> :| limit > 0 && RunsTo(scope, limit, es, c);
    InitialConsistent(scope, limit);
    RunConsistent(Initial(scope, limit), es);
    ScopeIsKept(Initial(scope, limit), es);
  }

  /**
    Every record a disciplined client transmits is accepted by the server, and in the order sent:
    no gap, no stale or foreign generation, no order error. This holds whether or not the queue
    has overflowed, a device has failed or the client has been closed, and whenever the capture
    opened, as long as no pause was then on its way.
   */
  lemma {:induction false} EverySentRecordIsAccepted(scope: M.Scope, c: Client)
    requires scope.Valid() && Reachable(scope, c)
    ensures M.Trace(M.Fresh(scope), c.sent) == c.sent
    ensures M.LegalTrace(scope, c.sent)
    ensures M.AcceptAll(M.Fresh(scope), c.sent).0.state != M.FAILED
  {
    ReachableIsConsistent(scope, c);
  }

  /**
    Unless the capture opened late, the audio on the wire is always a prefix of what was captured.
    Until the sender closes, the rest is exactly what is queued and buffered; once END is
    acknowledged there is no rest.
   */
  lemma {:induction false} AudioReachesTheServerInOrder(scope: M.Scope, c: Client)
    requires scope.Valid() && Reachable(scope, c) && !c.late
    ensures M.AudioOf(c.sent) <= c.captured
    ensures !c.sender.closed ==> M.AudioOf(c.sent) + QueuedAudio(c.sender.queue) + c.capture.buffer == c.captured
    ensures !c.sender.closed && c.sender.status == ENDED ==> M.AudioOf(c.sent) == c.captured
  {
    ReachableIsConsistent(scope, c);
    OrderedAudio(c);
  }

  lemma {:induction false} OrderedAudio(c: Client)
    requires Ordered(c) && !c.late
    ensures M.AudioOf(c.sent) <= c.captured
    ensures !c.sender.closed ==> M.AudioOf(c.sent) + QueuedAudio(c.sender.queue) + c.capture.buffer == c.captured
    ensures !c.sender.closed && c.sender.status == ENDED ==> M.AudioOf(c.sent) == c.captured
  {
  }

  /** An acknowledged END has ended the server. */
  lemma {:induction false} EndedClientEndedServer(scope: M.Scope, c: Client)
    requires scope.Valid() && Reachable(scope, c) && !c.sender.closed && c.sender.status == ENDED
    ensures c.machine.state == M.ENDED && M.Follows(c.machine, c.sent)
  {
    ReachableIsConsistent(scope, c);
    EndedIsStopped(c);
  }

  lemma {:induction false} EndedIsStopped(c: Client)
    requires Orderly(c) && c.sender.status == ENDED
    ensures c.machine.state == M.ENDED
  {
  }

  // ----- Which openings and which commands are harmless -----

  lemma {:induction false} RunPrepend(c: Client, e: Event, es: seq<Event>)
    requires c.Sound()
    ensures Run(c, [e] + es) == Run(Step(c, e), es)
    ensures Disciplined(c, [e] + es) <==> Allowed(c, e) && Disciplined(Step(c, e), es)
    ensures OpensHarmlessly(c, [e] + es) <==> Harmless(c, e) && OpensHarmlessly(Step(c, e), es)
    decreases |es|
  {
    hide Step;
    hide Allowed;
    hide Harmless;
    if es == [] {
      assert [e] + es == [e] && [e][..0] == [];
      assert Run(c, []) == c && Disciplined(c, []) && OpensHarmlessly(c, []);
    } else {
      assert ([e] + es)[..|es|] == [e] + es[..|es| - 1];
      RunPrepend(c, e, es[..|es| - 1]);
    }
  }

  lemma {:induction false} RunConcat(c: Client, a: seq<Event>, b: seq<Event>)
    requires c.Sound()
    ensures Run(c, a + b) == Run(Run(c, a), b)
    ensures Disciplined(c, a + b) <==> Disciplined(c, a) && Disciplined(Run(c, a), b)
    ensures OpensHarmlessly(c, a + b) <==> OpensHarmlessly(c, a) && OpensHarmlessly(Run(c, a), b)
    decreases |b|
  {
    hide Step;
    hide Allowed;
    hide Harmless;
    if b == [] {
      assert a + b == a;
    } else {
      assert (a + b)[..|a + b| - 1] == a + b[..|b| - 1];
      RunConcat(c, a, b[..|b| - 1]);
    }
  }

  lemma {:induction false} OneStep(c: Client, e: Event)
    requires c.Sound()
    ensures Run(c, [e]) == Step(c, e)
    ensures Disciplined(c, [e]) <==> Allowed(c, e)
    ensures OpensHarmlessly(c, [e]) <==> Harmless(c, e)
  {
    hide Step;
    hide Allowed;
    hide Harmless;
    assert [e] + [] == [e];
    RunPrepend(c, e, []);
  }

  lemma {:induction false} TwoSteps(c: Client, e0: Event, e1: Event)
    requires c.Sound()
    ensures Run(c, [e0, e1]) == Step(Step(c, e0), e1)
    ensures Disciplined(c, [e0, e1]) <==> Allowed(c, e0) && Allowed(Step(c, e0), e1)
    ensures OpensHarmlessly(c, [e0, e1]) <==> Harmless(c, e0) && Harmless(Step(c, e0), e1)
  {
    hide Step;
    hide Allowed;
    hide Harmless;
    assert [e0, e1] == [e0] + [e1];
    RunPrepend(c, e0, [e1]);
    OneStep(Step(c, e0), e1);
  }

  lemma {:induction false} ThreeSteps(c: Client, e0: Event, e1: Event, e2: Event)
    requires c.Sound()
    ensures Run(c, [e0, e1, e2]) == Step(Step(Step(c, e0), e1), e2)
    ensures Disciplined(c, [e0, e1, e2]) <==>
      Allowed(c, e0) && Allowed(Step(c, e0), e1) && Allowed(Step(Step(c, e0), e1), e2)
    ensures OpensHarmlessly(c, [e0, e1, e2]) <==>
      Harmless(c, e0) && Harmless(Step(c, e0), e1) && Harmless(Step(Step(c, e0), e1), e2)
  {
    hide Step;
    hide Allowed;
    hide Harmless;
    assert [e0, e1, e2] == [e0] + [e1, e2];
    RunPrepend(c, e0, [e1, e2]);
    TwoSteps(Step(c, e0), e1, e2);
  }

  /** Once it has opened, a capture does not open again, so the discipline alone is left. */
  lemma {:induction false} OpensOnce(c: Client, es: seq<Event>)
    requires c.Sound() && c.capture.hasOpened
    ensures Run(c, es).capture.hasOpened && Run(c, es).late == c.late
    ensures OpensHarmlessly(c, es)
  {
    hide Step;
    if es != [] {
      OpensOnce(c, es[..|es| - 1]);
      StaysOpened(Run(c, es[..|es| - 1]), es[|es| - 1]);
    }
  }

  lemma {:induction false} StaysOpened(c: Client, e: Event)
    requires c.Sound() && c.capture.hasOpened
    ensures Step(c, e).capture.hasOpened && Step(c, e).late == c.late
  {
    if e.Block? {
      AppendKeepsOpened(c.capture, c.sender, e.pcm, e.now);
    }
  }

  lemma {:induction false} AppendKeepsOpened(c: Capture, s: Sender, pcm: Bytes, now: int)
    requires |c.buffer| < CHUNK_BYTES
    ensures Append(c, s, pcm, now).0.hasOpened == c.hasOpened
    decreases |pcm|
  {
    if pcm != [] {
      var take := Min(CHUNK_BYTES - |c.buffer|, |pcm|);
      var filled := c.buffer + pcm[..take];
      if |filled| < CHUNK_BYTES {
        AppendKeepsOpened(c.(buffer := filled), s, pcm[take..], now);
      } else {
        var (t, accepted) := EnqueueAudio(s, filled, now);
        if accepted {
          AppendKeepsOpened(c.(buffer := []), t, pcm[take..], now);
        }
      }
    }
  }

  /** The queue's first command is at `k`, whatever is behind it. */
  ghost predicate Waits(c: Client, k: nat) {
    var q := c.sender.queue;
    && k < |q| && InStep(c) && Moving(c) && (c.sender.status == PAUSED ==> k == 0)
    && AudioOnly(q[..k], c.machine.next, c.sender.generation)
    && CommandFits(q[k], c.sender, c.machine.next + k)
  }

  /** A command is on the wire: the server has moved, the sender has not. */
  ghost predicate Crosses(c: Client, o: Outbound) {
    && c.phase == InFlight(o) && IsCommand(o) && Crossing(o, c.sender, c.machine)
    && c.sender.next == c.machine.next + |c.sender.queue|
  }

  /** Same capture, limit, status and generation, still open, and nothing lost on the way. */
  ghost predicate Drains(c: Client, d: Client) {
    && d.capture == c.capture && d.captured == c.captured && !d.sender.closed && d.sender.limit == c.sender.limit
    && d.sender.status == c.sender.status && d.sender.generation == c.sender.generation
    && d.sender.next == c.sender.next
    && (Conserved(c) ==> Conserved(d))
  }

  /** Left alone, the exchange goes on until the first command is on the wire. */
  lemma {:induction false} Drain(c: Client, k: nat) returns (es: seq<Event>)
    requires c.Sound() && !c.sender.closed && Waits(c, k)
    ensures Disciplined(c, es) && OpensHarmlessly(c, es)
    ensures Crosses(Run(c, es), c.sender.queue[k]) && Run(c, es).sender.queue == c.sender.queue[k + 1..]
    ensures Drains(c, Run(c, es))
    decreases k, c.phase.InFlight?
  {
    hide AudioOnly;
    hide InStep;
    hide Crosses;
    hide Conserved;
    hide Step;
    var e := if c.phase.InFlight? then AckReceived(false) else TakeNext;
    var d := Step(c, e);
    if c.phase.InFlight? {
      DrainAck(c, k);
      var rest := Drain(d, k);
      es := [e] + rest;
      RunPrepend(c, e, rest);
      DrainsTransitive(c, d, Run(c, es));
    } else if k > 0 {
      DrainAudio(c, k);
      var rest := Drain(d, k - 1);
      es := [e] + rest;
      RunPrepend(c, e, rest);
      DrainsTransitive(c, d, Run(c, es));
    } else {
      DrainCommand(c);
      es := [e];
      OneStep(c, e);
    }
  }

  lemma {:induction false} DrainsTransitive(a: Client, b: Client, c: Client)
    requires Drains(a, b) && Drains(b, c)
    ensures Drains(a, c)
  {
  }

  lemma {:induction false} DrainAck(c: Client, k: nat)
    requires c.Sound() && !c.sender.closed && Waits(c, k) && c.phase.InFlight?
    ensures var d := Step(c, AckReceived(false));
      Drains(c, d) && Waits(d, k) && d.sender.queue == c.sender.queue && !d.phase.InFlight?
  {
    hide QueuedAudio;
    hide M.AudioOf;
  }

  lemma {:induction false} DrainAudio(c: Client, k: nat)
    requires c.Sound() && !c.sender.closed && Waits(c, k) && k > 0 && !c.phase.InFlight?
    ensures var d := Step(c, TakeNext);
      Drains(c, d) && Waits(d, k - 1) && d.sender.queue == c.sender.queue[1..]
  {
    hide M.AcceptRecord;
    hide QueuedAudio;
    hide M.AudioOf;
    var q, d := c.sender.queue, Step(c, TakeNext);
    assert q[..k][0] == q[0];
    AudioIsAccepted(c.machine, q[0]);
    if Conserved(c) {
      TakeConserves(c, RecordOf(q[0]));
    }
    assert d.sender.queue[..k - 1] == q[..k][1..];
  }

  lemma {:induction false} DrainCommand(c: Client)
    requires c.Sound() && !c.sender.closed && Waits(c, 0) && !c.phase.InFlight?
    ensures var d := Step(c, TakeNext);
      Drains(c, d) && Crosses(d, c.sender.queue[0]) && d.sender.queue == c.sender.queue[1..]
  {
    hide M.AcceptRecord;
    hide QueuedAudio;
    hide M.AudioOf;
    CommandIsAccepted(c.machine, c.sender.queue[0], c.sender);
    if Conserved(c) {
      TakeConserves(c, RecordOf(c.sender.queue[0]));
    }
  }

  lemma {:induction false} AtIsWaiting(c: Client, k: nat)
    requires Moving(c) && InStep(c) && CommandAt(c, k)
    ensures Waits(c, k)
  {
  }

  /** From anywhere with a first command `o`, the exchange can go on until `o` is on the wire. */
  ghost predicate FirstCommand(c: Client, o: Outbound, rest: seq<Outbound>) {
    || (Crosses(c, o) && c.sender.queue == rest)
    || exists k: nat :: Waits(c, k) && c.sender.queue[k] == o && c.sender.queue[k + 1..] == rest
  }

  lemma {:induction false} DrainToFirst(c: Client, o: Outbound, rest: seq<Outbound>) returns (es: seq<Event>)
    requires c.Sound() && !c.sender.closed && FirstCommand(c, o, rest)
    ensures Disciplined(c, es) && OpensHarmlessly(c, es)
    ensures Crosses(Run(c, es), o) && Run(c, es).sender.queue == rest && Drains(c, Run(c, es))
  {
    hide AudioOnly;
    hide InStep;
    hide Crosses;
    hide Conserved;
    if Crosses(c, o) && c.sender.queue == rest {
      es := [];
    } else {
      var k: nat :| Waits(c, k) && c.sender.queue[k] == o && c.sender.queue[k + 1..] == rest;
      es := Drain(c, k);
    }
  }

  /** A pause that is on its way is the first command, with nothing behind it. */
  lemma {:induction false} PauseLeads(c: Client) returns (o: Outbound)
    requires Orderly(c) && PauseAhead(c)
    ensures o.kind == F.PAUSE && FirstCommand(c, o, [])
  {
    hide QueuedAudio;
    hide CommandAt;
    PauseIsFirst(c);
    if c.phase.InFlight? && IsCommand(c.phase.o) {
      o := c.phase.o;
    } else {
      var k: nat :| CommandAt(c, k) && LastIs(c.sender.queue, k, F.PAUSE);
      AtIsWaiting(c, k);
      o := c.sender.queue[k];
    }
  }

  lemma {:induction false} ResumeLeads(c: Client) returns (o: Outbound)
    requires Orderly(c) && ResumeAhead(c)
    ensures o.kind == F.RESUME && o.generation == c.sender.generation + 1 && FirstCommand(c, o, [])
  {
    hide QueuedAudio;
    ResumeIsFirst(c);
    if c.phase.InFlight? && IsCommand(c.phase.o) {
      o := c.phase.o;
    } else {
      AtIsWaiting(c, 0);
      o := c.sender.queue[0];
    }
  }

  /** The first command of a streaming client is a pause or an end. */
  lemma {:induction false} StreamingLeads(c: Client) returns (o: Outbound, rest: seq<Outbound>)
    requires Orderly(c) && c.sender.status == STREAMING && CommandOutstanding(c)
    ensures (o.kind == F.PAUSE || o.kind == F.END) && FirstCommand(c, o, rest)
  {
    hide QueuedAudio;
    CommandIsFirst(c);
    if c.phase.InFlight? && IsCommand(c.phase.o) {
      o, rest := c.phase.o, c.sender.queue;
    } else {
      var k: nat :| CommandAt(c, k);
      AtIsWaiting(c, k);
      o, rest := c.sender.queue[k], c.sender.queue[k + 1..];
    }
  }

  /** Opening the capture does not touch the exchange. */
  lemma {:induction false} OpeningKeepsFirst(c: Client, o: Outbound, rest: seq<Outbound>)
    requires FirstCommand(c, o, rest)
    ensures FirstCommand(Opened(c), o, rest)
  {
    var d := Opened(c);
    if Crosses(c, o) && c.sender.queue == rest {
      assert Crosses(d, o);
    } else {
      var k: nat :| Waits(c, k) && c.sender.queue[k] == o && c.sender.queue[k + 1..] == rest;
      assert Waits(d, k);
    }
  }

  /** One more record behind a first command that had none. */
  lemma {:induction false} PutKeepsFirst(c: Client, d: Client, o: Outbound, added: Outbound)
    requires FirstCommand(c, o, []) && d.machine == c.machine && d.phase == c.phase
    requires d.sender == c.sender.(queue := c.sender.queue + [added], next := c.sender.next + 1)
    ensures FirstCommand(d, o, [added])
  {
    if Crosses(c, o) && c.sender.queue == [] {
      assert Crosses(d, o) && d.sender.queue == [added];
    } else {
      var k: nat :| Waits(c, k) && c.sender.queue[k] == o && c.sender.queue[k + 1..] == [];
      assert |c.sender.queue| == k + 1;
      assert d.sender.queue[..k] == c.sender.queue[..k] && d.sender.queue[k + 1..] == [added];
      assert Waits(d, k);
    }
  }

  // ----- Openings -----

  /** A chunk's worth of audio arrives, the command on the wire is acknowledged, and the chunk is sent. */
  const ONE_CHUNK: seq<Event> := [Block(Zeros(CHUNK_BYTES), 0), AckReceived(false), TakeNext]

  /** An open capture behind a pause on the wire: its chunk is sent to a paused server, which fails. */
  lemma {:induction false} ChunkBehindPause(c: Client, pause: Outbound)
    requires c.Sound() && !c.sender.closed && c.sender.limit > 0
    requires Crosses(c, pause) && pause.kind == F.PAUSE && c.sender.queue == []
    requires c.capture.hasOpened && c.capture.admitting && !c.capture.stopped && c.capture.buffer == []
    ensures Disciplined(c, ONE_CHUNK) && Run(c, ONE_CHUNK).machine.state == M.FAILED
  {
    var chunk := Zeros(CHUNK_BYTES);
    var o := Outbound(F.AUDIO, c.sender.next, c.sender.generation, 0, chunk);
    var queued := Step(c, Block(chunk, 0));
    OneChunk(c.capture, c.sender, chunk);
    assert [] + [o] == [o];
    var paused := Step(queued, AckReceived(false));
    var failed := Step(paused, TakeNext);
    assert failed.machine.state == M.FAILED by { AudioWhilePaused(paused.machine, o); }
    ThreeSteps(c, Block(chunk, 0), AckReceived(false), TakeNext);
  }

  lemma {:induction false} AudioWhilePaused(m: M.Machine, o: Outbound)
    requires m.state == M.PAUSED && o.kind == F.AUDIO && o.sequence == m.next
    ensures M.AcceptRecord(m, RecordOf(o)).0.state == M.FAILED
  {
  }

  /** A whole chunk is cut from an empty buffer at once. */
  lemma {:induction false} OneChunk(c: Capture, s: Sender, chunk: Bytes)
    requires c.buffer == [] && |chunk| == CHUNK_BYTES
    ensures var (t, accepted) := EnqueueAudio(s, chunk, 0);
      Append(c, s, chunk, 0) == (if accepted then c else c.(stopped := true), t)
  {
    assert [] + chunk[..CHUNK_BYTES] == chunk && chunk[CHUNK_BYTES..] == [];
    var t := EnqueueAudio(s, chunk, 0).0;
    assert Append(c.(buffer := []), t, [], 0) == (c, t);
  }

  /**
    The moment at which the capture opens decides: whatever a disciplined client does from there on, the
    server accepts all of it, exactly when no pause was on its way.
   */
  lemma {:induction false} OpeningIsHarmlessIff(c: Client)
    requires Consistent(c) && !c.sender.closed && c.capture.CanOpen()
    ensures (forall es :: Disciplined(Opened(c), es) ==> Run(Opened(c), es).machine.state != M.FAILED)
      <==> !PauseAhead(c)
  {
    hide Served;
    hide Live;
    hide PauseAhead;
    var d := Opened(c);
    if PauseAhead(c) {
      var es := LateOpeningFails(c);
      assert Disciplined(d, es) && Run(d, es).machine.state == M.FAILED;
    } else {
      StepConsistent(c, Open);
      assert d == Step(c, Open);
      forall es | Disciplined(d, es) ensures Run(d, es).machine.state != M.FAILED {
        OpensOnce(d, es);
        RunConsistent(d, es);
        ConsistentIsServed(Run(d, es));
      }
    }
  }

  lemma {:induction false} ConsistentIsServed(c: Client)
    requires Consistent(c)
    ensures c.machine.state != M.FAILED && M.Trace(M.Fresh(c.scope), c.sent) == c.sent
  {
  }

  lemma {:induction false} LateOpeningFails(c: Client) returns (es: seq<Event>)
    requires Ordered(c) && !c.sender.closed && c.capture.CanOpen() && PauseAhead(c)
    ensures Disciplined(Opened(c), es) && Run(Opened(c), es).machine.state == M.FAILED
  {
    hide Conserved;
    hide Step;
    hide Run;
    hide Disciplined;
    hide Crosses;
    hide Orderly;
    hide FirstCommand;
    var d := Opened(c);
    PauseIsFirst(c);
    var pause := PauseLeads(c);
    OpeningKeepsFirst(c, pause, []);
    var drain := DrainToFirst(d, pause, []);
    ChunkBehindPause(Run(d, drain), pause);
    es := drain + ONE_CHUNK;
    RunConcat(d, drain, ONE_CHUNK);
  }

  /**
    Nothing captured is ever lost, short of the sender closing, exactly when the capture opened at the
    moment it is meant to: streaming, with no command outstanding.
   */
  lemma {:induction false} OpeningLosesNothingIff(c: Client)
    requires Consistent(c) && !c.sender.closed && !c.late && c.capture.CanOpen()
    ensures (forall es :: Disciplined(Opened(c), es) && !Run(Opened(c), es).sender.closed ==>
             Conserved(Run(Opened(c), es)))
      <==> Timely(c)
  {
    hide Served;
    hide Conserved;
    hide Orderly;
    var d := Opened(c);
    if Timely(c) {
      assert !PauseAhead(c) by { if PauseAhead(c) { OutstandingIsCommand(c, F.PAUSE); } }
      StepConsistent(c, Open);
      assert d == Step(c, Open);
      forall es | Disciplined(d, es) && !Run(d, es).sender.closed ensures Conserved(Run(d, es)) {
        OpensOnce(d, es);
        RunConsistent(d, es);
      }
    } else {
      var es := UntimelyOpeningLoses(c);
      assert Disciplined(d, es) && !Run(d, es).sender.closed && !Conserved(Run(d, es));
    }
  }

  lemma {:induction false} UntimelyOpeningLoses(c: Client) returns (es: seq<Event>)
    requires Ordered(c) && !c.sender.closed && !c.late && c.capture.CanOpen() && !Timely(c)
    ensures Disciplined(Opened(c), es)
    ensures !Run(Opened(c), es).sender.closed && !Conserved(Run(Opened(c), es))
  {
    hide Conserved;
    hide Step;
    hide Run;
    hide Disciplined;
    hide Crosses;
    hide Orderly;
    hide FirstCommand;
    hide CommandOutstanding;
    var d := Opened(c);
    SameAudio(c, d);
    OtherwiseStill(c);
    if c.sender.status != STREAMING {
      es := [Block(Zeros(CHUNK_BYTES), 0)];
      RefusedChunk(d);
      OneStep(d, es[0]);
    } else {
      var o, rest := StreamingLeads(c);
      OpeningKeepsFirst(c, o, rest);
      var drain := DrainToFirst(d, o, rest);
      AckedCommandRefuses(Run(d, drain), o);
      es := drain + [AckReceived(false), Block(Zeros(CHUNK_BYTES), 0)];
      RunConcat(d, drain, [AckReceived(false), Block(Zeros(CHUNK_BYTES), 0)]);
    }
  }

  /** A sender that does not stream refuses the chunk, and the capture drops it. */
  lemma {:induction false} RefusedChunk(c: Client)
    requires c.Sound() && !c.sender.closed && c.sender.status != STREAMING && Conserved(c)
    requires c.capture.hasOpened && c.capture.admitting && !c.capture.stopped && c.capture.buffer == []
    ensures var d := Step(c, Block(Zeros(CHUNK_BYTES), 0)); !d.sender.closed && !Conserved(d)
    ensures Allowed(c, Block(Zeros(CHUNK_BYTES), 0))
  {
    OneChunk(c.capture, c.sender, Zeros(CHUNK_BYTES));
  }

  lemma {:induction false} AckedCommandRefuses(c: Client, o: Outbound)
    requires c.Sound() && !c.sender.closed && Crosses(c, o) && (o.kind == F.PAUSE || o.kind == F.END) && Conserved(c)
    requires c.capture.hasOpened && c.capture.admitting && !c.capture.stopped && c.capture.buffer == []
    ensures var es := [AckReceived(false), Block(Zeros(CHUNK_BYTES), 0)];
      Disciplined(c, es) && !Run(c, es).sender.closed && !Conserved(Run(c, es))
  {
    hide Run;
    hide Disciplined;
    var d := Step(c, AckReceived(false));
    SameAudio(c, d);
    RefusedChunk(d);
    TwoSteps(c, AckReceived(false), Block(Zeros(CHUNK_BYTES), 0));
  }

  // ----- Commands -----

  predicate IsAsk(e: Event) {
    e.AskPause? || e.AskResume? || e.AskEnd?
  }

  /**
    The moment at which a command is asked for decides: whatever a disciplined client, opening harmlessly,
    does from there on, the server accepts all of it, exactly when the command does not clash. It clashes
    when it gets into the queue and no end is outstanding, and it is a second pause behind a pause, or a
    second resume, or an end, behind a resume that can reopen the capture.
   */
  lemma {:induction false} CommandIsHarmlessIff(c: Client, e: Event)
    requires Consistent(c) && !c.sender.closed && IsAsk(e)
    ensures (forall es :: Disciplined(Step(c, e), es) && OpensHarmlessly(Step(c, e), es) ==>
             Run(Step(c, e), es).machine.state != M.FAILED)
      <==> !Clashes(c, e)
  {
    hide Consistent;
    hide Clashes;
    hide Step;
    ConsistentIsSound(c);
    var d := Step(c, e);
    if Clashes(c, e) {
      var es := ClashFails(c, e);
      assert Disciplined(d, es) && OpensHarmlessly(d, es) && Run(d, es).machine.state == M.FAILED;
    } else {
      StepConsistent(c, e);
      forall es | Disciplined(d, es) && OpensHarmlessly(d, es) ensures Run(d, es).machine.state != M.FAILED {
        RunConsistent(d, es);
        ConsistentIsServed(Run(d, es));
      }
    }
  }

  /** What `c` asks for is put behind the first command, with the generation it had when asked for. */
  lemma {:induction false} ClashingPut(c: Client, e: Event) returns (o: Outbound, added: Outbound)
    requires Orderly(c) && c.Sound() && !c.sender.closed && IsAsk(e) && Clashes(c, e)
    ensures FirstCommand(Step(c, e), o, [added]) && Refuses(o, added, c.sender.generation)
    ensures added.sequence == c.sender.next
    ensures Step(c, e).sender == c.sender.(queue := c.sender.queue + [added], next := c.sender.next + 1)
    ensures o.kind == F.RESUME ==> Step(c, e).capture.Reopens()
  {
    hide FirstCommand;
    hide Orderly;
    hide Outstanding;
    var s, d := c.sender, Step(c, e);
    if e.AskPause? {
      PauseIsFirst(c);
      o := PauseLeads(c);
      added := Outbound(F.PAUSE, s.next, s.generation, 0, []);
    } else {
      o := ResumeLeads(c);
      added := if e.AskEnd? then Outbound(F.END, s.next, s.generation, 0, [])
               else Outbound(F.RESUME, s.next, s.generation + 1, 0, []);
    }
    PutKeepsFirst(c, d, o, added);
  }

  /** A second pause; a second resume, or an end of the old generation, behind a resume. */
  predicate Refuses(o: Outbound, added: Outbound, generation: nat) {
    || (o.kind == F.PAUSE && added.kind == F.PAUSE)
    || (o.kind == F.RESUME && added.kind == F.RESUME)
    || (o.kind == F.RESUME && added.kind == F.END && added.generation == generation)
  }

  /** The command on the wire is acknowledged, and the next record is sent. */
  const ONE_MORE: seq<Event> := [AckReceived(true), TakeNext]

  lemma {:induction false} NextIsRefused(c: Client, o: Outbound, added: Outbound)
    requires c.Sound() && !c.sender.closed && Crosses(c, o) && c.sender.queue == [added]
    requires Refuses(o, added, c.sender.generation) && added.sequence + 1 == c.sender.next
    requires o.kind == F.RESUME ==> c.capture.Reopens()
    ensures Disciplined(c, ONE_MORE) && OpensHarmlessly(c, ONE_MORE)
    ensures Run(c, ONE_MORE).machine.state == M.FAILED
  {
    hide Run;
    hide Disciplined;
    hide OpensHarmlessly;
    var acked := Step(c, AckReceived(true));
    assert acked.machine == c.machine && acked.sender.queue == [added] && acked.phase.Ready? && !acked.sender.closed;
    assert M.AcceptRecord(c.machine, RecordOf(added)).0.state == M.FAILED;
    TwoSteps(c, AckReceived(true), TakeNext);
  }

  lemma {:induction false} ClashFails(c: Client, e: Event) returns (es: seq<Event>)
    requires Consistent(c) && !c.sender.closed && IsAsk(e) && Clashes(c, e)
    ensures Disciplined(Step(c, e), es) && OpensHarmlessly(Step(c, e), es)
    ensures Run(Step(c, e), es).machine.state == M.FAILED
  {
    hide Served;
    hide Conserved;
    hide Step;
    hide Run;
    hide Disciplined;
    hide OpensHarmlessly;
    hide Crosses;
    hide Orderly;
    hide FirstCommand;
    hide Refuses;
    hide Clashes;
    var d := Step(c, e);
    var o, added := ClashingPut(c, e);
    var drain := DrainToFirst(d, o, [added]);
    NextIsRefused(Run(d, drain), o, added);
    es := drain + ONE_MORE;
    RunConcat(d, drain, ONE_MORE);
  }

  // ----- Runs in which the server fails -----

  function Connected(scope: M.Scope, limit: nat): Client {
    Step(Step(Initial(scope, limit), Connect), AckReceived(false))
  }

  /** Nothing is queued or on the wire, and the capture has nothing to flush. */
  ghost predicate AtRest(c: Client, status: Status) {
    && c.phase.Ready? && c.sender.status == status && c.sender.queue == [] && !c.sender.closed
    && c.sender.limit > 0 && InStep(c) && c.capture.buffer == []
  }

  lemma {:induction false} ConnectedStreams(scope: M.Scope, limit: nat)
    requires scope.Valid() && limit > 0
    ensures AtRest(Connected(scope, limit), STREAMING)
    ensures Connected(scope, limit).capture == NEW_CAPTURE && !Connected(scope, limit).late
  {
    var c := Initial(scope, limit);
    assert M.AcceptRecord(c.machine, StartRecord(scope)).1.status == M.ACCEPTED;
  }

  /** From rest, a pause is allowed and goes straight onto the wire. */
  lemma {:induction false} PauseAtRest(c: Client)
    requires AtRest(c, STREAMING)
    ensures Allowed(c, AskPause(0))
    ensures var d := Step(Step(c, AskPause(0)), TakeNext);
      && d.capture == c.capture.(admitting := false) && d.sender.queue == [] && !d.sender.closed
      && d.sender.limit == c.sender.limit && d.late == c.late
      && d.phase.InFlight? && d.phase.o.kind == F.PAUSE && Crosses(d, d.phase.o)
  {
    hide M.AcceptRecord;
    var asked := Step(c, AskPause(0));
    var pause := Outbound(F.PAUSE, c.sender.next, c.sender.generation, 0, []);
    assert asked.sender.queue == [pause] by { assert [] + [pause] == [pause]; }
    CommandIsAccepted(asked.machine, pause, asked.sender);
  }

  /**
    A disciplined run from the start that fails the server: the capture's thread is still opening the
    device when the pause is asked for, and opens it behind the pause.
   */
  lemma {:induction false} LateOpeningRun(scope: M.Scope, limit: nat)
    requires scope.Valid() && limit > 0
    ensures var es := [Connect, AckReceived(false), StartCapture] + [AskPause(0), TakeNext, Open] + ONE_CHUNK;
      Disciplined(Initial(scope, limit), es) && Run(Initial(scope, limit), es).machine.state == M.FAILED
  {
    hide Run;
    hide Disciplined;
    hide Step;
    hide Crosses;
    hide ONE_CHUNK;
    var start, c := Initial(scope, limit), Connected(scope, limit);
    ConnectedStreams(scope, limit);
    StartsAtRest(c);
    var started := Step(c, StartCapture);
    PauseAtRest(started);
    var crossing := Step(Step(started, AskPause(0)), TakeNext);
    OpensBehind(crossing);
    var head, middle := [Connect, AckReceived(false), StartCapture], [AskPause(0), TakeNext, Open];
    ThreeSteps(start, Connect, AckReceived(false), StartCapture);
    ThreeSteps(started, AskPause(0), TakeNext, Open);
    RunConcat(start, head, middle);
    ChunkBehindPause(Run(start, head + middle), crossing.phase.o);
    RunConcat(start, head + middle, ONE_CHUNK);
  }

  lemma {:induction false} StartsAtRest(c: Client)
    requires AtRest(c, STREAMING) && c.capture == NEW_CAPTURE
    ensures Step(c, StartCapture) == c.(capture := c.capture.(started := true))
    ensures AtRest(Step(c, StartCapture), STREAMING)
  {
  }

  lemma {:induction false} OpensBehind(c: Client)
    requires c.capture.CanOpen() && c.phase.InFlight? && Crosses(c, c.phase.o) && c.Sound()
    ensures var d := Step(c, Open);
      && d.capture == c.capture.(hasOpened := true, admitting := true) && d.sender == c.sender
      && d.phase == c.phase && Crosses(d, c.phase.o)
  {
  }

  /** From the start: a second pause asked for while the first is on the wire fails the server. */
  lemma {:induction false} SecondPauseRun(scope: M.Scope, limit: nat)
    requires scope.Valid() && limit > 0
    ensures var start, es := Initial(scope, limit), [Connect, AckReceived(false), AskPause(0), TakeNext];
      && Disciplined(start, es) && Clashes(Run(start, es), AskPause(0))
      && Run(start, es + [AskPause(0)] + ONE_MORE).machine.state == M.FAILED
  {
    hide Run;
    hide Disciplined;
    hide Step;
    hide PauseAhead;
    hide ResumeAhead;
    hide Crosses;
    hide ONE_MORE;
    var start, c := Initial(scope, limit), Connected(scope, limit);
    ConnectedStreams(scope, limit);
    PauseAtRest(c);
    ThreeSteps(start, Connect, AckReceived(false), AskPause(0));
    OneStep(Step(c, AskPause(0)), TakeNext);
    RunConcat(start, [Connect, AckReceived(false), AskPause(0)], [TakeNext]);
    var es := [Connect, AckReceived(false), AskPause(0), TakeNext];
    assert [Connect, AckReceived(false), AskPause(0)] + [TakeNext] == es;
    AskedBehindFails(start, es, AskPause(0));
  }

  /** A clashing command behind a command on the wire is the next record, and is refused. */
  lemma {:induction false} AskedBehindFails(start: Client, es: seq<Event>, e: Event)
    requires start.Sound() && IsAsk(e)
    requires var c := Run(start, es);
      && c.phase.InFlight? && Crosses(c, c.phase.o) && c.sender.queue == [] && !c.sender.closed && c.sender.limit > 0
      && c.capture.buffer == []
      && (c.phase.o.kind == F.PAUSE ==> e.AskPause?)
      && (c.phase.o.kind == F.RESUME ==> (e.AskResume? || e.AskEnd?) && c.capture.Reopens())
      && c.phase.o.kind != F.END
    ensures Clashes(Run(start, es), e) && Run(start, es + [e] + ONE_MORE).machine.state == M.FAILED
  {
    hide Run;
    hide ONE_MORE;
    var c := Run(start, es);
    var added := AskedBehind(c, e);
    OneStep(c, e);
    RunConcat(start, es, [e]);
    NextIsRefused(Step(c, e), c.phase.o, added);
    RunConcat(start, es + [e], ONE_MORE);
  }

  lemma {:induction false} AskedBehind(c: Client, e: Event) returns (added: Outbound)
    requires c.Sound() && IsAsk(e)
    requires c.phase.InFlight? && Crosses(c, c.phase.o) && c.sender.queue == [] && !c.sender.closed
    requires c.sender.limit > 0 && c.capture.buffer == []
    requires c.phase.o.kind == F.PAUSE ==> e.AskPause?
    requires c.phase.o.kind == F.RESUME ==> (e.AskResume? || e.AskEnd?) && c.capture.Reopens()
    requires c.phase.o.kind != F.END
    ensures var d := Step(c, e);
      && Clashes(c, e) && Crosses(d, c.phase.o) && d.sender.queue == [added] && !d.sender.closed
      && Refuses(c.phase.o, added, d.sender.generation) && added.sequence + 1 == d.sender.next
      && (c.phase.o.kind == F.RESUME ==> d.capture.Reopens())
  {
    var s := c.sender;
    added := if e.AskPause? then Outbound(F.PAUSE, s.next, s.generation, 0, [])
             else if e.AskEnd? then Outbound(F.END, s.next, s.generation, 0, [])
             else Outbound(F.RESUME, s.next, s.generation + 1, 0, []);
    assert [] + [added] == [added];
  }

  /** An acknowledged pause leaves the client at rest; the resume then goes straight onto the wire. */
  lemma {:induction false} ResumeAtRest(c: Client)
    requires c.phase.InFlight? && c.phase.o.kind == F.PAUSE && Crosses(c, c.phase.o) && c.Sound()
    requires c.sender.queue == [] && !c.sender.closed && c.sender.limit > 0 && c.capture.buffer == []
    ensures var paused := Step(c, AckReceived(false));
            var d := Step(Step(paused, AskResume), TakeNext);
      && Allowed(paused, AskResume)
      && d.capture == c.capture && d.sender.queue == [] && !d.sender.closed
      && d.sender.limit == c.sender.limit && d.late == c.late
      && d.phase.InFlight? && d.phase.o.kind == F.RESUME && Crosses(d, d.phase.o)
  {
    hide M.AcceptRecord;
    var paused := Step(c, AckReceived(false));
    var asked := Step(paused, AskResume);
    var resume := Outbound(F.RESUME, c.sender.next, c.sender.generation + 1, 0, []);
    assert asked.sender.queue == [resume] by { assert [] + [resume] == [resume]; }
    CommandIsAccepted(asked.machine, resume, asked.sender);
  }

  lemma {:induction false} OpensAtRest(c: Client)
    requires AtRest(c, STREAMING) && c.capture == NEW_CAPTURE.(started := true)
    ensures AtRest(Step(c, Open), STREAMING) && Harmless(c, Open) && Step(c, Open).late == c.late
    ensures Step(c, Open).capture == c.capture.(hasOpened := true, admitting := true)
  {
  }

  /**
    From the start, with the capture opened in time: an end asked for while a resume is on the wire carries
    the old generation. When the resume reopens the device before the end closes the capture, the end is
    sent, and the server refuses it and fails.
   */
  lemma {:induction false} ResumeThenEndRun(scope: M.Scope, limit: nat)
    requires scope.Valid() && limit > 0
    ensures var start := Initial(scope, limit);
            var es := [Connect, AckReceived(false), StartCapture] + [Open, AskPause(0), TakeNext]
                      + [AckReceived(false), AskResume, TakeNext];
      && Disciplined(start, es) && OpensHarmlessly(start, es) && !Run(start, es).late
      && Clashes(Run(start, es), AskEnd(0))
      && Run(start, es + [AskEnd(0)] + ONE_MORE).machine.state == M.FAILED
  {
    hide Run;
    hide Disciplined;
    hide OpensHarmlessly;
    hide Step;
    hide PauseAhead;
    hide ResumeAhead;
    hide Crosses;
    hide ONE_MORE;
    var start, c := Initial(scope, limit), Connected(scope, limit);
    ConnectedStreams(scope, limit);
    StartsAtRest(c);
    var started := Step(c, StartCapture);
    OpensAtRest(started);
    var opening := Step(started, Open);
    PauseAtRest(opening);
    var pausing := Step(Step(opening, AskPause(0)), TakeNext);
    ResumeAtRest(pausing);
    var head, middle := [Connect, AckReceived(false), StartCapture], [Open, AskPause(0), TakeNext];
    var tail := [AckReceived(false), AskResume, TakeNext];
    ThreeSteps(start, Connect, AckReceived(false), StartCapture);
    ThreeSteps(started, Open, AskPause(0), TakeNext);
    RunConcat(start, head, middle);
    ThreeSteps(pausing, AckReceived(false), AskResume, TakeNext);
    RunConcat(start, head + middle, tail);
    AskedBehindFails(start, head + middle + tail, AskEnd(0));
  }

  // ----- The sender and capture objects -----

  class BoundedRelaySender {
    const limit: nat
    var status: Status
    var generation: nat
    var nextSequence: nat
    var queue: seq<Outbound>
    var closed: bool
    var failureReason: Option<F.Reason>
    var sentChunks: nat
    var acknowledgedChunks: nat

    constructor (limit: nat)
      requires limit > 0
      ensures Model() == FreshSender(limit)
    {
      this.limit := limit;
      status, generation, nextSequence, queue, closed := DISCONNECTED, 1, 1, [], false;
      failureReason, sentChunks, acknowledgedChunks := None, 0, 0;
    }

    ghost function Model(): Sender
      reads this
    {
      Sender(limit, status, generation, nextSequence, queue, closed, failureReason, sentChunks, acknowledgedChunks)
    }

    method FailWith(reason: F.Reason)
      modifies this
      ensures Model() == Fail(old(Model()), reason)
    {
      if status == ENDED || status == FAILED {
        return;
      }
      status, failureReason, closed := FAILED, Some(reason), true;
    }

    /** The record already carries the number that `nextSequence` has moved past. */
    method Enqueue(o: Outbound) returns (ok: bool)
      requires nextSequence > 0
      modifies this
      ensures (Model(), ok) == Put(old(Model()).(next := old(nextSequence) - 1), o)
    {
      if |queue| >= limit {
        FailWith(F.BufferLimit);
        return false;
      }
      queue := queue + [o];
      return true;
    }

    method QueueAudio(payload: Bytes, capturedAt: int) returns (ok: bool)
      modifies this
      ensures (Model(), ok) == EnqueueAudio(old(Model()), payload, capturedAt)
    {
      if payload == [] || |payload| > CHUNK_BYTES || |payload| % 2 != 0 {
        FailWith(F.InvalidFormat);
        return false;
      }
      if status != STREAMING {
        return false;
      }
      var o := Outbound(F.AUDIO, nextSequence, generation, capturedAt, payload);
      nextSequence := nextSequence + 1;
      ok := Enqueue(o);
    }

    method QueuePause() returns (ok: bool)
      modifies this
      ensures (Model(), ok) == Pause(old(Model()))
    {
      if status != STREAMING {
        return false;
      }
      var o := Outbound(F.PAUSE, nextSequence, generation, 0, []);
      nextSequence := nextSequence + 1;
      ok := Enqueue(o);
    }

    method QueueResume() returns (ok: bool)
      modifies this
      ensures (Model(), ok) == Resume(old(Model()))
    {
      if status != PAUSED {
        return false;
      }
      var o := Outbound(F.RESUME, nextSequence, generation + 1, 0, []);
      nextSequence := nextSequence + 1;
      ok := Enqueue(o);
    }

    method QueueEnd() returns (ok: bool)
      modifies this
      ensures (Model(), ok) == End(old(Model()))
    {
      if status != STREAMING && status != PAUSED {
        return false;
      }
      var o := Outbound(F.END, nextSequence, generation, 0, []);
      nextSequence := nextSequence + 1;
      ok := Enqueue(o);
    }

    /** What follows a successful exchange of `o`. */
    method Acknowledge(o: Outbound, reopened: bool)
      modifies this
      ensures Model() == Acknowledged(old(Model()), o, reopened)
    {
      match o.kind {
        case AUDIO =>
          sentChunks := sentChunks + 1;
          acknowledgedChunks := acknowledgedChunks + 1;
        case PAUSE =>
          status := PAUSED;
        case RESUME =>
          generation := o.generation;
          status := STREAMING;
          if !reopened {
            FailWith(F.MicrophoneOpenFailed);
          }
        case END =>
          status := ENDED;
        case _ =>
      }
    }
  }

  class NativeRelayCapture {
    const sender: BoundedRelaySender
    var started: bool
    var hasOpened: bool
    var admitting: bool
    var stopped: bool
    var released: bool
    var buffer: Bytes

    constructor (sender: BoundedRelaySender)
      ensures this.sender == sender && Model() == NEW_CAPTURE
    {
      this.sender := sender;
      started, hasOpened, admitting, stopped, released, buffer := false, false, false, false, false, [];
    }

    ghost function Model(): Capture
      reads this
    {
      Capture(started, hasOpened, admitting, stopped, released, buffer)
    }

    method AppendBlock(pcm: Bytes, now: int)
      requires |buffer| < CHUNK_BYTES
      modifies this, sender
      ensures (Model(), sender.Model()) == Append(old(Model()), old(sender.Model()), pcm, now)
      ensures |buffer| < CHUNK_BYTES
    {
      hide EnqueueAudio;
      var offset := 0;
      assert pcm[0..] == pcm;
      while offset < |pcm|
        invariant 0 <= offset <= |pcm| && |buffer| < CHUNK_BYTES
        invariant Append(Model(), sender.Model(), pcm[offset..], now)
          == Append(old(Model()), old(sender.Model()), pcm, now)
      {
        var take := Min(CHUNK_BYTES - |buffer|, |pcm| - offset);
        assert pcm[offset..][..take] == pcm[offset..offset + take];
        assert pcm[offset..][take..] == pcm[offset + take..];
        buffer := buffer + pcm[offset..offset + take];
        offset := offset + take;
        if |buffer| < CHUNK_BYTES {
          continue;
        }
        var payload := buffer;
        buffer := [];
        var ok := sender.QueueAudio(payload, now);
        if !ok {
          stopped := true;
          return;
        }
      }
    }

    method FlushBuffer(now: int) returns (ok: bool)
      modifies this, sender
      ensures (Model(), sender.Model(), ok) == Flush(old(Model()), old(sender.Model()), now)
    {
      if buffer == [] {
        return true;
      }
      var payload := buffer;
      buffer := [];
      ok := sender.QueueAudio(payload, now);
    }

    /** The session's pause and end: quieten the capture, flush it, then ask the sender. */
    method AskSender(ghost c: Client, now: int, end: bool) returns (ok: bool)
      requires c.capture == Model() && c.sender == sender.Model()
      modifies this, sender
      ensures Model() == Ask(c, now, end).capture && sender.Model() == Ask(c, now, end).sender
    {
      hide EnqueueAudio;
      hide End;
      hide Pause;
      admitting := false;
      ok := FlushBuffer(now);
      if ok {
        if end {
          ok := sender.QueueEnd();
        } else {
          ok := sender.QueuePause();
        }
      }
    }

    method Close()
      modifies this
      ensures Model() == Release(old(Model()))
    {
      admitting, stopped, released := false, true, true;
    }
  }
}
