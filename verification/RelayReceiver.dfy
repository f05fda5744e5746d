/**
  The relay receiver end to end: bytes from one client are framed, sequenced and
  admitted into the microphone session, while the session's consumer runs beside it.
  Threads are atomic steps in any order; the receiver waits inside a PAUSE until the
  consumer has drained the session.
 */
module RelayReceiver {
  import opened Common
  import B = IngressBoundary
  import F = RelayFraming
  import P = RelayParser
  import M = RelayMachine
  import S = SessionModel
  import I = SessionInvariant
  import R = SessionRuns
  import W = PauseBarrier

  datatype Response = Ack(sequence: nat, reason: F.Reason) | Error(sequence: nat, reason: F.Reason)

  /** A PAUSE in progress: none, its pause call made, or its wait entered. */
  datatype Barrier = Free | Called | Waiting

  /**
    Parser, state machine and session, the acceptances of the current read still to be
    admitted, how far a PAUSE has got, and the responses sent. `taken` and `parsed` record the
    bytes read and the records found in them; `trace` and `admitted` what of these the machine
    accepted and the session has taken.
   */
  datatype System = System(
    parser: P.Parser, machine: M.Machine, world: R.World, pending: seq<M.Acceptance>, barrier: Barrier,
    responses: seq<Response>, taken: Bytes, parsed: seq<F.Record>, trace: seq<F.Record>, admitted: seq<F.Record>)

  datatype Event =
    | Receive(data: Bytes)
    | Admit(now: int, isNew: bool, authorizes: bool)
    | PollPause(now: int, timedOut: bool)
    | Beside(op: R.Op)

  function Initial(scope: M.Scope, maxQueue: nat): System {
    System(P.FRESH, M.Fresh(scope), R.Initial(scope.tenantId, scope.callId, scope.streamId, maxQueue), [], Free,
           [], [], [], [], [])
  }

  /**
    Calls that others may make on the session: they neither bring audio in nor open a new capture.
    A finish may be asked for beside the receiver; the normaliser holds nothing for it to flush.
   */
  predicate MayRunBeside(op: R.Op) {
    op.OpStart? || op.OpReadiness? || op.OpFailCapture? || op.OpReconnecting? || op.OpAcknowledge?
    || op.OpIterate? || op.OpClose? || op.OpFail? || op.OpRevoke? || (op.OpFinish? && op.flush == S.Flushed([]))
  }

  function SequenceOf(a: M.Acceptance): nat {
    if a.record.Some? then a.record.value.meta.sequence else 0
  }

  /** An error answer drops the rest of the read; unless END was accepted it also closes machine and session. */
  function Fail(sys: System, sequence: nat, reason: F.Reason, now: int): System
    requires |sys.world.s.buffer| <= S.CHUNK_BYTES
  {
    var t := sys.(pending := [], barrier := Free, responses := sys.responses + [Error(sequence, reason)]);
    if sys.machine.state == M.ENDED then t
    else t.(machine := M.Fail(sys.machine),
            world := R.Step(sys.world,
                            R.OpClose(if reason == F.ConnectionClosed then S.Disconnected else S.Failed, now)))
  }

  function Acknowledge(sys: System, a: M.Acceptance): System
    requires sys.pending != []
  {
    sys.(pending := sys.pending[1..], barrier := Free, responses := sys.responses + [Ack(SequenceOf(a), a.reason)],
         admitted := if a.status == M.ACCEPTED && a.record.Some? then sys.admitted + [a.record.value] else sys.admitted)
  }

  /** The session call one accepted record stands for. */
  function CallFor(r: F.Record, now: int, isNew: bool, authorizes: bool): Option<R.Op> {
    match r.kind
    case START => Some(R.OpStart(now))
    case AUDIO =>
      if r.meta.AudioMeta? then Some(R.OpPcm(r.payload, r.meta.capturedAt, now, r.meta.generation)) else None
    case PAUSE => Some(R.OpPause(true, now, S.Flushed([])))
    case RESUME => Some(R.OpResume(true, isNew, authorizes))
    case END => Some(R.OpFinish(true, now, S.Flushed([])))
    case _ => None
  }

  /** A start may find the session running; every other call must do its work. */
  predicate CallSucceeded(r: F.Record, outcome: S.Outcome) {
    if r.kind == F.START then outcome.Done? else outcome == S.Done(true)
  }

  function AdmitRecord(sys: System, a: M.Acceptance, r: F.Record, e: Event): System
    requires |sys.world.s.buffer| <= S.CHUNK_BYTES && sys.pending != [] && e.Admit?
    requires R.Coupled(sys.world.s)
  {
    var op := CallFor(r, e.now, e.isNew, e.authorizes);
    if op.None? then Fail(sys, SequenceOf(a), F.UnexpectedMessageOrder, e.now)
    else if r.kind == F.START && (!r.meta.StartMeta? || r.meta.generation != sys.world.s.generation) then
      Fail(sys, SequenceOf(a), F.GenerationMismatch, e.now)
    else
      var outcome := R.Call(sys.world.s, op.value).1;
      R.CallCoupled(sys.world.s, op.value);
      var t := sys.(world := R.Step(sys.world, op.value));
      if !CallSucceeded(r, outcome) then Fail(t, SequenceOf(a), F.SessionRejected, e.now)
      else if r.kind == F.PAUSE then t.(barrier := Called)
      else Acknowledge(t, a)
  }

  function AdmitNext(sys: System, e: Event): System
    requires |sys.world.s.buffer| <= S.CHUNK_BYTES && R.Coupled(sys.world.s) && e.Admit?
  {
    if sys.pending == [] || sys.barrier != Free then sys
    else
      var a := sys.pending[0];
      if a.status == M.REJECTED then Fail(sys, SequenceOf(a), a.reason, e.now)
      else if a.status == M.DUPLICATE then Acknowledge(sys, a)
      else if a.record.None? then Fail(sys, 0, F.SessionRejected, e.now)
      else AdmitRecord(sys, a, a.record.value, e)
  }

  /** The machine runs over the whole read before anything of it is admitted. */
  function ReceiveBytes(text: F.TextLayer, sys: System, data: Bytes): System
    requires |sys.world.s.buffer| <= S.CHUNK_BYTES
  {
    if sys.pending != [] || sys.barrier != Free then sys
    else if M.Terminal(sys.machine) then Fail(sys, 0, F.TerminalState, 0)
    else
      var fed := P.FeedBytes(text, sys.parser, data);
      var t := sys.(parser := fed.p, taken := sys.taken + data);
      if fed.outcome.Err? then Fail(t, 0, fed.outcome.error, 0)
      else
        var (machine, acceptances) := M.AcceptAll(sys.machine, fed.outcome.value);
        t.(machine := machine, pending := acceptances, parsed := sys.parsed + fed.outcome.value,
           trace := sys.trace + M.Trace(sys.machine, fed.outcome.value))
  }

  /** The wait of a PAUSE: entered once its call was made, then one look at a time. */
  function PollPaused(sys: System, now: int, timedOut: bool): System
    requires |sys.world.s.buffer| <= S.CHUNK_BYTES
  {
    if sys.barrier == Free || sys.pending == [] then sys
    else
      var a := sys.pending[0];
      match (if sys.barrier == Called then W.Entered(sys.world.s, true, timedOut) else W.Looked(sys.world.s, timedOut))
      case Pending => sys.(barrier := Waiting)
      case Returned(paused) => if paused then Acknowledge(sys, a) else Fail(sys, SequenceOf(a), F.IoTimeout, now)
      case Refused => Fail(sys, SequenceOf(a), F.SessionRejected, now)
  }

  function Step(text: F.TextLayer, sys: System, e: Event): System
    requires |sys.world.s.buffer| <= S.CHUNK_BYTES && R.Coupled(sys.world.s)
  {
    match e
    case Receive(data) => ReceiveBytes(text, sys, data)
    case Admit(_, _, _) => AdmitNext(sys, e)
    case PollPause(now, timedOut) => PollPaused(sys, now, timedOut)
    case Beside(op) => if MayRunBeside(op) then sys.(world := R.Step(sys.world, op)) else sys
  }

  // ----- The run invariant -----

  ghost predicate AllAcks(responses: seq<Response>) {
    forall r :: r in responses ==> r.Ack?
  }

  /** Records accepted by the machine that the session has yet to take. */
  function Outstanding(pending: seq<M.Acceptance>): seq<F.Record> {
    if pending == [] then []
    else (if pending[0].status == M.ACCEPTED && pending[0].record.Some? then [pending[0].record.value] else [])
         + Outstanding(pending[1..])
  }

  ghost predicate HasRejection(pending: seq<M.Acceptance>) {
    exists i :: 0 <= i < |pending| && pending[i].status == M.REJECTED
  }

  ghost predicate Answered(sys: System) {
    && sys.trace == sys.admitted + Outstanding(sys.pending)
    && (sys.machine.state == M.FAILED ==> HasRejection(sys.pending))
    && (!sys.world.s.closed ==> sys.world.admitted == M.AudioOf(sys.admitted))
    && (sys.admitted != [] && !sys.world.s.closed ==>
         && sys.admitted[0].meta.StartMeta?
         && sys.world.s.callStarted
         && sys.world.s.generation == sys.admitted[0].meta.generation + M.Resumes(sys.admitted))
    && (sys.barrier != Free ==>
         && sys.pending != [] && sys.pending[0].status == M.ACCEPTED
         && sys.pending[0].record.Some? && sys.pending[0].record.value.kind == F.PAUSE)
  }

  ghost predicate Consistent(sys: System) {
    && R.Consistent(sys.world)
    && sys.machine.scope.Valid()
    && M.Follows(sys.machine, sys.trace)
    && (AllAcks(sys.responses) ==> Answered(sys))
  }

  lemma {:induction false} ConsistentFits(sys: System)
    requires Consistent(sys)
    ensures |sys.world.s.buffer| <= S.CHUNK_BYTES && R.Coupled(sys.world.s)
  {
  }

  // ----- The machine's answers and its trace -----

  lemma {:induction false} OutstandingAppend(a: seq<M.Acceptance>, b: seq<M.Acceptance>)
    ensures Outstanding(a + b) == Outstanding(a) + Outstanding(b)
  {
    if a == [] {
      assert a + b == b;
    } else {
      assert (a + b)[1..] == a[1..] + b;
      OutstandingAppend(a[1..], b);
    }
  }

  lemma {:induction false} OutstandingOne(a: M.Acceptance)
    ensures Outstanding([a]) == (if a.status == M.ACCEPTED && a.record.Some? then [a.record.value] else [])
  {
  }

  lemma {:induction false} AnswerCarriesRecord(m: M.Machine, r: F.Record)
    ensures M.AcceptRecord(m, r).1.status == M.ACCEPTED ==> M.AcceptRecord(m, r).1.record == Some(r)
    ensures M.AcceptRecord(m, r).0.state == M.FAILED && m.state != M.FAILED ==>
      M.AcceptRecord(m, r).1.status == M.REJECTED
  {
  }

  /** The acceptances of one read, taken in order, are exactly what the machine's trace gained. */
  lemma {:induction false} AnswersMatchTrace(m: M.Machine, rs: seq<F.Record>)
    ensures Outstanding(M.AcceptAll(m, rs).1) == M.Trace(m, rs)
    ensures M.AcceptAll(m, rs).0.state == M.FAILED && m.state != M.FAILED ==> HasRejection(M.AcceptAll(m, rs).1)
  {
    if rs != [] {
      var (before, answers) := M.AcceptAll(m, rs[..|rs| - 1]);
      var last := M.AcceptRecord(before, rs[|rs| - 1]);
      AnswersMatchTrace(m, rs[..|rs| - 1]);
      OutstandingAppend(answers, [last.1]);
      OutstandingOne(last.1);
      AnswerCarriesRecord(before, rs[|rs| - 1]);
      assert (answers + [last.1])[|answers|] == last.1;
      if before.state == M.FAILED && m.state != M.FAILED {
        var i :| 0 <= i < |answers| && answers[i].status == M.REJECTED;
        assert (answers + [last.1])[i] == answers[i];
      }
    }
  }

  // ----- What a call leaves alone -----

  /** Only a resume opens a new generation, and a started call stays started. */
  lemma {:induction false} EndingKeepsCapture(s: S.Session, op: R.Op)
    requires R.Coupled(s) && (op.OpIterate? || op.OpClose? || op.OpFail?) && !R.Call(s, op).0.closed
    ensures R.Call(s, op).0.generation == s.generation
    ensures s.callStarted ==> R.Call(s, op).0.callStarted
  {
    hide B.Accept;
    hide B.Drain;
    hide R.Coupled;
    hide S.Cancel;
    match op
    case OpIterate(cancelled, now) => if cancelled { CancelledIsClosed(s, S.ResourceClosed, now); }
    case OpClose(reason, now) => CancelledIsClosed(s, reason, now);
    case OpFail(now) => CancelledIsClosed(s.(readiness := S.ASR_FAILED), S.Failed, now);
  }

  lemma {:induction false} CancelledIsClosed(s: S.Session, reason: S.TerminalReason, now: int)
    ensures S.Cancel(s, reason, now).0.closed
  {
    hide B.Accept;
  }

  lemma {:induction false} PlainCallKeepsCapture(s: S.Session, op: R.Op)
    requires R.Coupled(s)
    requires op.OpStart? || op.OpReadiness? || op.OpReconnecting? || op.OpAcknowledge? || op.OpRevoke?
    ensures R.Call(s, op).0.generation == s.generation
    ensures s.callStarted ==> R.Call(s, op).0.callStarted
  {
  }

  lemma {:induction false} CallKeepsCapture(s: S.Session, op: R.Op)
    requires R.Coupled(s) && !op.OpResume? && !R.Call(s, op).0.closed
    ensures R.Call(s, op).0.generation == s.generation
    ensures s.callStarted ==> R.Call(s, op).0.callStarted
  {
    hide S.AcceptPcm;
    hide S.StopCapture;
    hide S.FinishCall;
    hide S.Iterate;
    hide S.Cancel;
    hide S.Start;
    hide S.Acknowledge;
    hide R.Coupled;
    match op
    case OpPcm(pcm, captured, arrived, generation) => PcmKeepsCapture(s, pcm, captured, arrived, generation);
    case OpPause(own, now, flush) => StopKeepsCapture(s, own, S.PAUSED, now, Some(flush));
    case OpFailCapture(own, status, now) =>
      if S.CaptureFailure(status) {
        StopKeepsCapture(s, own, status, now, None);
      }
    case OpFinish(own, now, flush) => FinishKeepsCapture(s, own, now, flush);
    case OpIterate(cancelled, now) => EndingKeepsCapture(s, op);
    case OpClose(reason, now) => EndingKeepsCapture(s, op);
    case OpFail(now) => EndingKeepsCapture(s, op);
    case _ => PlainCallKeepsCapture(s, op);
  }

  lemma {:induction false} PcmKeepsCapture(s: S.Session, pcm: Bytes, captured: int, arrived: int, generation: nat)
    requires R.Coupled(s) && !S.AcceptPcm(s, pcm, captured, arrived, generation).0.closed
    ensures S.AcceptPcm(s, pcm, captured, arrived, generation).0.generation == s.generation
    ensures s.callStarted ==> S.AcceptPcm(s, pcm, captured, arrived, generation).0.callStarted
  {
    hide I.Held;
    hide S.Append;
    R.EnsureStartedCoupled(s, arrived);
    R.StartCoupled(s, arrived);
    var t := S.EnsureStarted(s, arrived).0;
    if S.Authorized(t) && (t.status == S.READY || t.status == S.STREAMING) && |pcm| % 2 == 0 {
      I.AppendLive(t, pcm, arrived, Min(captured, arrived));
    }
  }

  lemma {:induction false} StopKeepsCapture(s: S.Session, own: bool, finalStatus: S.Status, now: int,
                                            flush: Option<S.Flush>)
    requires R.Coupled(s) && !S.StopCapture(s, own, finalStatus, now, flush).0.closed
    ensures S.StopCapture(s, own, finalStatus, now, flush).0.generation == s.generation
    ensures s.callStarted ==> S.StopCapture(s, own, finalStatus, now, flush).0.callStarted
  {
    var p := s.(status := S.PAUSING);
    if !s.closed {
      if I.Live(p) {
        I.FlushLive(p, S.FlushedItems(flush), now);
      } else {
        I.FlushDead(p, S.FlushedItems(flush), now);
      }
    }
  }

  lemma {:induction false} FinishKeepsCapture(s: S.Session, own: bool, now: int, flush: S.Flush)
    requires R.Coupled(s) && !S.FinishCall(s, own, now, flush).0.closed
    ensures S.FinishCall(s, own, now, flush).0.generation == s.generation
    ensures s.callStarted ==> S.FinishCall(s, own, now, flush).0.callStarted
  {
    hide I.Held;
    hide S.FlushOut;
    hide S.Cancel;
    hide B.Accept;
    if s.endReason.None? && !s.closed && own {
      I.CancelCloses(s, S.Failed, now);
      I.CancelCloses(s, S.CompletedEnd, now);
      if !(s.capabilityActive && flush.FlushRaised?) && s.boundary.active.Keys != {} {
        var items := if s.capabilityActive then flush.items else [];
        I.FlushLive(s, items, now);
      }
    }
  }

  // ----- Preservation -----

  lemma {:induction false} FailConsistent(sys: System, sequence: nat, reason: F.Reason, now: int)
    requires R.Consistent(sys.world) && sys.machine.scope.Valid() && M.Follows(sys.machine, sys.trace)
    ensures Consistent(Fail(sys, sequence, reason, now))
  {
    AcksSnoc(sys.responses, Error(sequence, reason));
    R.StepConsistent(sys.world, R.OpClose(if reason == F.ConnectionClosed then S.Disconnected else S.Failed, now));
    M.FailedFollows(sys.machine, sys.trace);
  }

  lemma {:induction false} AcksSnoc(responses: seq<Response>, r: Response)
    ensures AllAcks(responses + [r]) <==> AllAcks(responses) && r.Ack?
  {
  }

  lemma {:induction false} FailFromConsistent(sys: System, sequence: nat, reason: F.Reason, now: int)
    requires Consistent(sys)
    ensures |sys.world.s.buffer| <= S.CHUNK_BYTES && Consistent(Fail(sys, sequence, reason, now))
  {
    FailConsistent(sys, sequence, reason, now);
  }

  lemma {:induction false} ReceiveConsistent(text: F.TextLayer, sys: System, data: Bytes)
    requires Consistent(sys)
    ensures Consistent(ReceiveBytes(text, sys, data))
  {
    hide Consistent;
    hide P.FeedBytes;
    hide M.AcceptAll;
    hide M.Trace;
    hide Fail;
    ConsistentFits(sys);
    if sys.pending == [] && sys.barrier == Free {
      FailFromConsistent(sys, 0, F.TerminalState, 0);
      if !M.Terminal(sys.machine) {
        var fed := P.FeedBytes(text, sys.parser, data);
        var t := sys.(parser := fed.p, taken := sys.taken + data);
        if fed.outcome.Err? {
          ReadConsistent(sys, t);
          FailFromConsistent(t, 0, fed.outcome.error, 0);
        } else {
          ParsedConsistent(sys, t, fed.outcome.value);
        }
      }
    }
  }

  lemma {:induction false} ReadConsistent(sys: System, t: System)
    requires Consistent(sys) && t == sys.(parser := t.parser, taken := t.taken)
    ensures Consistent(t)
  {
  }

  lemma {:induction false} ParsedConsistent(sys: System, t: System, records: seq<F.Record>)
    requires Consistent(sys) && sys.pending == [] && sys.barrier == Free && !M.Terminal(sys.machine)
    requires t == sys.(parser := t.parser, taken := t.taken)
    ensures var (machine, acceptances) := M.AcceptAll(sys.machine, records);
      Consistent(t.(machine := machine, pending := acceptances, parsed := sys.parsed + records,
                    trace := sys.trace + M.Trace(sys.machine, records)))
  {
    hide R.Coupled;
    hide R.Consistent;
    hide M.LegalTrace;
    hide M.AcceptRecord;
    M.FollowsRun(sys.machine, sys.trace, records);
    AnswersMatchTrace(sys.machine, records);
    assert sys.admitted + Outstanding([]) == sys.admitted;
  }

  lemma {:induction false} PoppedRejection(pending: seq<M.Acceptance>)
    requires pending != [] && pending[0].status != M.REJECTED && HasRejection(pending)
    ensures HasRejection(pending[1..])
  {
  }

  /** An acknowledged duplicate changes nothing but the answers. */
  lemma {:induction false} DuplicateConsistent(sys: System)
    requires Consistent(sys) && sys.pending != [] && sys.pending[0].status == M.DUPLICATE && sys.barrier == Free
    ensures Consistent(Acknowledge(sys, sys.pending[0]))
  {
    hide M.Follows;
    hide M.AcceptRecord;
    hide R.Consistent;
    var a := sys.pending[0];
    AcksSnoc(sys.responses, Ack(SequenceOf(a), a.reason));
    assert [] + Outstanding(sys.pending[1..]) == Outstanding(sys.pending[1..]);
    if AllAcks(sys.responses) && sys.machine.state == M.FAILED {
      PoppedRejection(sys.pending);
    }
  }

  /** What the session must show once the record at the head of the queue counts as admitted. */
  ghost predicate Took(before: R.World, after: R.World, r: F.Record) {
    && R.Consistent(after)
    && (!after.s.closed ==>
         && !before.s.closed
         && after.admitted == before.admitted + (if r.kind == F.AUDIO then r.payload else [])
         && after.s.generation == before.s.generation + (if r.kind == F.RESUME then 1 else 0)
         && (before.s.callStarted || r.kind == F.START ==> after.s.callStarted)
         && (r.kind == F.START ==> r.meta.StartMeta? && r.meta.generation == after.s.generation))
  }

  lemma {:induction false} AcknowledgeConsistent(sys: System, world: R.World, r: F.Record)
    requires Consistent(sys) && sys.pending != []
    requires sys.pending[0].status == M.ACCEPTED && sys.pending[0].record == Some(r)
    requires AllAcks(sys.responses) ==> Took(sys.world, world, r)
    requires R.Consistent(world)
    ensures Consistent(Acknowledge(sys.(world := world), sys.pending[0]))
  {
    AcksSnoc(sys.responses, Ack(SequenceOf(sys.pending[0]), sys.pending[0].reason));
    if AllAcks(sys.responses) {
      HeadMoves(sys, r);
      HeadCounts(sys, world, r);
    }
  }

  lemma {:induction false} HeadMoves(sys: System, r: F.Record)
    requires Answered(sys) && sys.pending != []
    requires sys.pending[0].status == M.ACCEPTED && sys.pending[0].record == Some(r)
    ensures sys.trace == sys.admitted + [r] + Outstanding(sys.pending[1..])
    ensures sys.machine.state == M.FAILED ==> HasRejection(sys.pending[1..])
  {
  }

  lemma {:induction false} HeadCounts(sys: System, world: R.World, r: F.Record)
    requires Consistent(sys) && AllAcks(sys.responses) && Took(sys.world, world, r)
    requires sys.pending != [] && sys.pending[0].status == M.ACCEPTED && sys.pending[0].record == Some(r)
    ensures var now := sys.admitted + [r];
      !world.s.closed ==>
        && world.admitted == M.AudioOf(now)
        && now[0].meta.StartMeta? && world.s.callStarted
        && world.s.generation == now[0].meta.generation + M.Resumes(now)
  {
    M.AudioSnoc(sys.admitted, r);
    HeadIsLegal(sys, r);
    assert M.AudioOf([]) == [] && M.Resumes([]) == 0;
    assert [] + [r] == [r];
  }

  /** The head of the queue continues a legal trace: it opens it exactly when nothing was admitted. */
  lemma {:induction false} HeadIsLegal(sys: System, r: F.Record)
    requires Consistent(sys) && AllAcks(sys.responses)
    requires sys.pending != [] && sys.pending[0].status == M.ACCEPTED && sys.pending[0].record == Some(r)
    ensures sys.admitted == [] <==> r.kind == F.START
    ensures sys.admitted == [] ==> r.meta.StartMeta?
    ensures sys.admitted != [] ==> sys.trace[0] == sys.admitted[0]
  {
    assert Outstanding(sys.pending)[0] == r;
    assert sys.trace[|sys.admitted|] == r;
    if sys.admitted != [] {
      assert M.LegalSuccessor(sys.trace, |sys.admitted|);
    }
  }

  lemma {:induction false} StartedCall(s: S.Session, now: int)
    requires R.Coupled(s) && S.Start(s, now).1.Done?
    ensures S.Start(s, now).0.callStarted && S.Start(s, now).0.generation == s.generation
  {
    R.StartCoupled(s, now);
  }

  lemma {:induction false} ResumedCall(s: S.Session, isNew: bool, authorizes: bool)
    requires R.Coupled(s) && S.Resume(s, true, isNew, authorizes).1 == S.Done(true)
    ensures S.Resume(s, true, isNew, authorizes).0.generation == s.generation + 1
    ensures S.Resume(s, true, isNew, authorizes).0.callStarted == s.callStarted
  {
  }

  /** What a successful call does to the capture, for the record it stands for. */
  lemma {:induction false} CaptureAfterCall(s: S.Session, r: F.Record, now: int, isNew: bool, authorizes: bool)
    requires R.Coupled(s) && CallFor(r, now, isNew, authorizes).Some?
    requires var op := CallFor(r, now, isNew, authorizes).value;
      CallSucceeded(r, R.Call(s, op).1) && !R.Call(s, op).0.closed
    ensures var t := R.Call(s, CallFor(r, now, isNew, authorizes).value).0;
      && t.generation == s.generation + (if r.kind == F.RESUME then 1 else 0)
      && (s.callStarted || r.kind == F.START ==> t.callStarted)
  {
    hide R.Coupled;
    hide S.Start;
    hide S.Resume;
    hide S.AcceptPcm;
    hide S.StopCapture;
    hide S.FinishCall;
    if r.kind == F.START {
      StartedCall(s, now);
    } else if r.kind == F.RESUME {
      ResumedCall(s, isNew, authorizes);
    } else {
      CallKeepsCapture(s, CallFor(r, now, isNew, authorizes).value);
    }
  }

  lemma {:induction false} AudioOfCall(s: S.Session, r: F.Record, now: int, isNew: bool, authorizes: bool)
    requires |s.buffer| <= S.CHUNK_BYTES && CallFor(r, now, isNew, authorizes).Some?
    requires CallSucceeded(r, R.Call(s, CallFor(r, now, isNew, authorizes).value).1)
    ensures var op := CallFor(r, now, isNew, authorizes).value;
      R.AdmittedBy(s, op, R.Call(s, op).1) == if r.kind == F.AUDIO then r.payload else []
  {
    hide R.Call;
    assert Flatten<Byte>([]) == [];
  }

  lemma {:induction false} SucceededCallTakes(world: R.World, r: F.Record, now: int, isNew: bool, authorizes: bool)
    requires R.Consistent(world)
    requires CallFor(r, now, isNew, authorizes).Some?
    requires var op := CallFor(r, now, isNew, authorizes).value; CallSucceeded(r, R.Call(world.s, op).1)
    requires r.kind == F.START ==> r.meta.StartMeta? && r.meta.generation == world.s.generation
    ensures Took(world, R.Step(world, CallFor(r, now, isNew, authorizes).value), r)
  {
    hide R.Call;
    hide CallFor;
    hide CallSucceeded;
    hide R.AdmittedBy;
    hide I.Live;
    hide R.Orderly;
    hide I.Held;
    var op := CallFor(r, now, isNew, authorizes).value;
    R.StepConsistent(world, op);
    R.CallCoupled(world.s, op);
    AudioOfCall(world.s, r, now, isNew, authorizes);
    if !R.Call(world.s, op).0.closed {
      CaptureAfterCall(world.s, r, now, isNew, authorizes);
    }
  }

  lemma {:induction false} AdmitConsistent(sys: System, e: Event)
    requires Consistent(sys) && e.Admit?
    ensures Consistent(AdmitNext(sys, e))
  {
    hide Consistent;
    hide AdmitRecord;
    hide Acknowledge;
    hide Fail;
    ConsistentFits(sys);
    if sys.pending != [] && sys.barrier == Free {
      var a := sys.pending[0];
      FailFromConsistent(sys, SequenceOf(a), a.reason, e.now);
      FailFromConsistent(sys, 0, F.SessionRejected, e.now);
      if a.status == M.DUPLICATE {
        DuplicateConsistent(sys);
      } else if a.status == M.ACCEPTED && a.record.Some? {
        AdmitRecordConsistent(sys, a.record.value, e);
      }
    }
  }

  lemma {:induction false} AdmitRecordConsistent(sys: System, r: F.Record, e: Event)
    requires Consistent(sys) && e.Admit? && sys.barrier == Free
    requires sys.pending != [] && sys.pending[0].status == M.ACCEPTED && sys.pending[0].record == Some(r)
    ensures Consistent(AdmitRecord(sys, sys.pending[0], r, e))
  {
    hide Consistent;
    hide Fail;
    hide R.Call;
    hide R.Coupled;
    hide Acknowledge;
    ConsistentFits(sys);
    var a, op := sys.pending[0], CallFor(r, e.now, e.isNew, e.authorizes);
    FailFromConsistent(sys, SequenceOf(a), F.UnexpectedMessageOrder, e.now);
    FailFromConsistent(sys, SequenceOf(a), F.GenerationMismatch, e.now);
    if op.Some? && !(r.kind == F.START && (!r.meta.StartMeta? || r.meta.generation != sys.world.s.generation)) {
      CalledConsistent(sys, r, e);
    }
  }

  lemma {:induction false} CalledConsistent(sys: System, r: F.Record, e: Event)
    requires Consistent(sys) && e.Admit? && sys.barrier == Free
    requires sys.pending != [] && sys.pending[0].status == M.ACCEPTED && sys.pending[0].record == Some(r)
    requires CallFor(r, e.now, e.isNew, e.authorizes).Some?
    requires r.kind == F.START ==> r.meta.StartMeta? && r.meta.generation == sys.world.s.generation
    ensures Consistent(AdmitRecord(sys, sys.pending[0], r, e))
  {
    hide Answered;
    hide M.Follows;
    hide Fail;
    hide Acknowledge;
    hide R.Call;
    hide R.Coupled;
    ConsistentFits(sys);
    var a, op := sys.pending[0], CallFor(r, e.now, e.isNew, e.authorizes).value;
    var world := R.Step(sys.world, op);
    R.StepConsistent(sys.world, op);
    if !CallSucceeded(r, R.Call(sys.world.s, op).1) {
      FailConsistent(sys.(world := world), SequenceOf(a), F.SessionRejected, e.now);
    } else {
      SucceededCallTakes(sys.world, r, e.now, e.isNew, e.authorizes);
      if r.kind == F.PAUSE {
        WaitingConsistent(sys, world, r);
      } else {
        AcknowledgeConsistent(sys, world, r);
      }
    }
  }

  lemma {:induction false} WaitingConsistent(sys: System, world: R.World, r: F.Record)
    requires Consistent(sys) && R.Consistent(world) && r.kind == F.PAUSE
    requires sys.pending != [] && sys.pending[0].status == M.ACCEPTED && sys.pending[0].record == Some(r)
    requires Took(sys.world, world, r)
    ensures Consistent(sys.(world := world, barrier := Called))
  {
    assert sys.world.admitted + [] == sys.world.admitted;
  }

  lemma {:induction false} PollConsistent(sys: System, now: int, timedOut: bool)
    requires Consistent(sys)
    ensures Consistent(PollPaused(sys, now, timedOut))
  {
    hide Fail;
    hide Acknowledge;
    hide Answered;
    hide M.Follows;
    hide R.Coupled;
    if sys.barrier != Free && sys.pending != [] {
      var a := sys.pending[0];
      FailConsistent(sys, SequenceOf(a), F.SessionRejected, now);
      FailConsistent(sys, SequenceOf(a), F.IoTimeout, now);
      PausedConsistent(sys);
      StillWaiting(sys);
    }
  }

  lemma {:induction false} StillWaiting(sys: System)
    requires Consistent(sys) && sys.barrier != Free
    ensures Consistent(sys.(barrier := Waiting))
  {
  }

  lemma {:induction false} PausedConsistent(sys: System)
    requires Consistent(sys) && sys.barrier != Free && sys.pending != []
    ensures Consistent(Acknowledge(sys, sys.pending[0]))
  {
    var a := sys.pending[0];
    AcksSnoc(sys.responses, Ack(SequenceOf(a), a.reason));
    if AllAcks(sys.responses) {
      assert sys.world.admitted + [] == sys.world.admitted;
      AcknowledgeConsistent(sys, sys.world, a.record.value);
      assert sys.(world := sys.world) == sys;
    }
  }

  /** A call beside the receiver admits nothing and keeps the capture. */
  lemma {:induction false} BesideKeeps(w: R.World, op: R.Op)
    requires R.Consistent(w) && MayRunBeside(op)
    ensures var v := R.Step(w, op);
      && R.Consistent(v) && v.admitted == w.admitted
      && (!v.s.closed ==> !w.s.closed && v.s.generation == w.s.generation && (w.s.callStarted ==> v.s.callStarted))
  {
    R.StepConsistent(w, op);
    R.CallCoupled(w.s, op);
    assert w.admitted + [] == w.admitted && Flatten<Byte>([]) == [];
    if !R.Call(w.s, op).0.closed {
      CallKeepsCapture(w.s, op);
    }
  }

  lemma {:induction false} BesideConsistent(sys: System, op: R.Op)
    requires Consistent(sys) && MayRunBeside(op)
    ensures Consistent(sys.(world := R.Step(sys.world, op)))
  {
    BesideKeeps(sys.world, op);
    WorldReplaced(sys, R.Step(sys.world, op));
  }

  lemma {:induction false} WorldReplaced(sys: System, world: R.World)
    requires Consistent(sys) && R.Consistent(world) && world.admitted == sys.world.admitted
    requires !world.s.closed ==>
      && !sys.world.s.closed && world.s.generation == sys.world.s.generation
      && (sys.world.s.callStarted ==> world.s.callStarted)
    ensures Consistent(sys.(world := world))
  {
  }

  lemma {:induction false} StepConsistent(text: F.TextLayer, sys: System, e: Event)
    requires Consistent(sys)
    ensures Consistent(Step(text, sys, e))
  {
    match e
    case Receive(data) => ReceiveConsistent(text, sys, data);
    case Admit(_, _, _) => AdmitConsistent(sys, e);
    case PollPause(now, timedOut) => PollConsistent(sys, now, timedOut);
    case Beside(op) =>
      if MayRunBeside(op) {
        BesideConsistent(sys, op);
      }
  }

  lemma {:induction false} InitialConsistent(scope: M.Scope, maxQueue: nat)
    requires scope.Valid() && maxQueue > 0
    ensures Consistent(Initial(scope, maxQueue))
  {
    R.InitialConsistent(scope.tenantId, scope.callId, scope.streamId, maxQueue);
  }

  ghost function Run(text: F.TextLayer, sys: System, events: seq<Event>): (end: System)
    requires Consistent(sys)
    ensures Consistent(end)
    decreases |events|
  {
    if events == [] then sys
    else
      StepConsistent(text, sys, events[0]);
      Run(text, Step(text, sys, events[0]), events[1..])
  }

  // ----- End to end -----

  /** The run that a fresh receiver makes of these events. */
  ghost function RunFrom(text: F.TextLayer, scope: M.Scope, maxQueue: nat, events: seq<Event>): (end: System)
    requires scope.Valid() && maxQueue > 0
    ensures Consistent(end)
  {
    InitialConsistent(scope, maxQueue);
    Run(text, Initial(scope, maxQueue), events)
  }

  /**
    Exactly once. If every answer so far was an ACK, the call was ended by an accepted END that
    is fully admitted, the session was not cancelled and its consumer has run to the end, then the
    consumer received the payloads of the accepted AUDIO records, once each, in sequence order -
    across pauses, resumes, retransmissions and any fragmentation of the client's bytes.
   */
  lemma {:induction false} EveryAudioRecordExactlyOnce(text: F.TextLayer, scope: M.Scope, maxQueue: nat,
                                                       events: seq<Event>)
    requires scope.Valid() && maxQueue > 0
    ensures var sys := RunFrom(text, scope, maxQueue, events);
      && AllAcks(sys.responses) && sys.pending == [] && sys.machine.state == M.ENDED
      && !sys.world.s.closed && sys.world.s.endEmitted
      ==>
      && I.Audio(sys.world.yielded) == M.AudioOf(sys.trace)
      && M.LegalTrace(scope, sys.trace)
      && |sys.trace| > 0 && sys.trace[|sys.trace| - 1].kind == F.END
  {
    var sys := RunFrom(text, scope, maxQueue, events);
    ScopeKept(text, scope, maxQueue, events);
    if AllAcks(sys.responses) && sys.pending == [] && sys.machine.state == M.ENDED
       && !sys.world.s.closed && sys.world.s.endEmitted {
      EndedTrace(sys);
      DrainedAudio(sys.world);
    }
  }

  lemma {:induction false} EndedTrace(sys: System)
    requires Consistent(sys) && AllAcks(sys.responses) && sys.pending == [] && sys.machine.state == M.ENDED
    ensures sys.trace == sys.admitted && |sys.trace| > 0 && sys.trace[|sys.trace| - 1].kind == F.END
  {
    assert sys.admitted + [] == sys.admitted;
  }

  lemma {:induction false} DrainedAudio(w: R.World)
    requires R.Consistent(w) && !w.s.closed && w.s.endEmitted
    ensures I.Audio(w.yielded) == w.admitted
  {
  }

  /** Whenever a read has been fully answered by ACKs, the protocol and the session agree on the generation. */
  lemma {:induction false} GenerationsAgree(text: F.TextLayer, scope: M.Scope, maxQueue: nat, events: seq<Event>)
    requires scope.Valid() && maxQueue > 0
    ensures var sys := RunFrom(text, scope, maxQueue, events);
      AllAcks(sys.responses) && sys.pending == [] && sys.trace != [] && !sys.world.s.closed
      ==> sys.machine.generation == Some(sys.world.s.generation)
  {
    AgreedGeneration(RunFrom(text, scope, maxQueue, events));
  }

  lemma {:induction false} AgreedGeneration(sys: System)
    requires Consistent(sys)
    ensures AllAcks(sys.responses) && sys.pending == [] && sys.trace != [] && !sys.world.s.closed
      ==> sys.machine.generation == Some(sys.world.s.generation)
  {
    assert sys.admitted + [] == sys.admitted;
  }

  lemma {:induction false} RunKeepsScope(text: F.TextLayer, sys: System, events: seq<Event>)
    requires Consistent(sys)
    ensures Run(text, sys, events).machine.scope == sys.machine.scope
    decreases |events|
  {
    if events != [] {
      StepConsistent(text, sys, events[0]);
      StepKeepsScope(text, sys, events[0]);
      RunKeepsScope(text, Step(text, sys, events[0]), events[1..]);
    }
  }

  lemma {:induction false} StepKeepsScope(text: F.TextLayer, sys: System, e: Event)
    requires Consistent(sys)
    ensures Step(text, sys, e).machine.scope == sys.machine.scope
  {
    hide Answered;
    hide M.Follows;
    hide R.Step;
    hide R.Consistent;
    hide M.AcceptAll;
    hide M.Trace;
    hide P.FeedBytes;
    if e.Receive? {
      var fed := P.FeedBytes(text, sys.parser, e.data);
      if fed.outcome.Ok? {
        M.FollowsRun(sys.machine, sys.trace, fed.outcome.value);
      }
    }
  }

  lemma {:induction false} ScopeKept(text: F.TextLayer, scope: M.Scope, maxQueue: nat, events: seq<Event>)
    requires scope.Valid() && maxQueue > 0
    ensures RunFrom(text, scope, maxQueue, events).machine.scope == scope
  {
    InitialConsistent(scope, maxQueue);
    RunKeepsScope(text, Initial(scope, maxQueue), events);
  }

  // ----- The pause barrier -----

  /** Once the wait is entered, a cancelled session does not read as paused. */
  ghost predicate Barred(sys: System) {
    sys.barrier == Waiting ==> W.ShowsItsEnd(sys.world.s)
  }

  lemma {:induction false} StepBarred(text: F.TextLayer, sys: System, e: Event)
    requires Consistent(sys) && Barred(sys)
    ensures Barred(Step(text, sys, e))
  {
    hide Answered;
    hide M.Follows;
    hide R.Call;
    hide M.AcceptAll;
    hide M.Trace;
    hide P.FeedBytes;
    if e.Beside? && MayRunBeside(e.op) && sys.barrier == Waiting {
      W.EndKeepsShowing(sys.world.s, e.op);
    }
  }

  lemma {:induction false} RunBarred(text: F.TextLayer, sys: System, events: seq<Event>)
    requires Consistent(sys) && Barred(sys)
    ensures Barred(Run(text, sys, events))
    decreases |events|
  {
    hide Consistent;
    hide Barred;
    hide Step;
    ConsistentFits(sys);
    if events != [] {
      StepConsistent(text, sys, events[0]);
      StepBarred(text, sys, events[0]);
      RunBarred(text, Step(text, sys, events[0]), events[1..]);
    }
  }

  /**
    A PAUSE is acknowledged only once the session is open, paused and drained: the consumer has
    received and acknowledged every chunk, and what it received is the audio acknowledged so far.
   */
  lemma {:induction false} AcknowledgedPauseIsDrained(text: F.TextLayer, scope: M.Scope, maxQueue: nat,
                                                      events: seq<Event>, now: int, timedOut: bool)
    requires scope.Valid() && maxQueue > 0
    ensures |RunFrom(text, scope, maxQueue, events).world.s.buffer| <= S.CHUNK_BYTES
    ensures var sys := RunFrom(text, scope, maxQueue, events);
      var next := PollPaused(sys, now, timedOut);
      AllAcks(next.responses) && |next.responses| > |sys.responses| ==>
        W.Drained(next.world) && I.Audio(next.world.yielded) == M.AudioOf(next.admitted)
  {
    hide Consistent;
    var sys := RunFrom(text, scope, maxQueue, events);
    ConsistentFits(sys);
    InitialConsistent(scope, maxQueue);
    RunBarred(text, Initial(scope, maxQueue), events);
    var next := PollPaused(sys, now, timedOut);
    if AllAcks(next.responses) && |next.responses| > |sys.responses| {
      AckedPoll(sys, now, timedOut);
    }
  }

  lemma {:induction false} AckedPoll(sys: System, now: int, timedOut: bool)
    requires Consistent(sys) && Barred(sys) && |sys.world.s.buffer| <= S.CHUNK_BYTES
    requires var next := PollPaused(sys, now, timedOut);
      AllAcks(next.responses) && |next.responses| > |sys.responses|
    ensures var next := PollPaused(sys, now, timedOut);
      W.Drained(next.world) && I.Audio(next.world.yielded) == M.AudioOf(next.admitted)
  {
    hide M.Follows;
    hide R.Step;
    var a, next := sys.pending[0], PollPaused(sys, now, timedOut);
    AckedNotFailed(sys, now, timedOut);
    W.PausedIsDrained(sys.world);
    M.AudioSnoc(sys.admitted, a.record.value);
  }

  lemma {:induction false} AckedNotFailed(sys: System, now: int, timedOut: bool)
    requires Consistent(sys) && Barred(sys) && |sys.world.s.buffer| <= S.CHUNK_BYTES
    requires var next := PollPaused(sys, now, timedOut);
      AllAcks(next.responses) && |next.responses| > |sys.responses|
    ensures sys.barrier != Free && sys.pending != [] && AllAcks(sys.responses)
    ensures PollPaused(sys, now, timedOut) == Acknowledge(sys, sys.pending[0])
    ensures !sys.world.s.closed && sys.world.s.status == S.PAUSED
  {
    hide M.Follows;
    hide R.Step;
    hide R.Coupled;
    hide Answered;
    var a, next := sys.pending[0], PollPaused(sys, now, timedOut);
    AcksSnoc(sys.responses, Ack(SequenceOf(a), a.reason));
    AcksSnoc(sys.responses, Error(SequenceOf(a), F.IoTimeout));
    AcksSnoc(sys.responses, Error(SequenceOf(a), F.SessionRejected));
  }

  // ----- Bytes and records -----

  /** The parser, the machine and the trace are what the bytes taken make of fresh ones. */
  ghost predicate Transcribed(text: F.TextLayer, scope: M.Scope, sys: System) {
    && P.FeedBytes(text, P.FRESH, sys.taken) == P.Fed(sys.parser, Ok(sys.parsed))
    && sys.machine == M.AcceptAll(M.Fresh(scope), sys.parsed).0
    && sys.trace == M.Trace(M.Fresh(scope), sys.parsed)
  }

  lemma {:induction false} FailIsHeard(sys: System, sequence: nat, reason: F.Reason, now: int)
    requires |sys.world.s.buffer| <= S.CHUNK_BYTES
    ensures !AllAcks(Fail(sys, sequence, reason, now).responses)
  {
    hide R.Step;
    AcksSnoc(sys.responses, Error(sequence, reason));
  }

  /** Everything but the session and the answers: what a step other than a read leaves alone. */
  ghost predicate SameTranscript(sys: System, next: System) {
    && AllAcks(sys.responses) && next.parser == sys.parser && next.machine == sys.machine
    && next.taken == sys.taken && next.parsed == sys.parsed && next.trace == sys.trace
  }

  lemma {:induction false} OthersKeepTranscript(text: F.TextLayer, sys: System, e: Event)
    requires Consistent(sys) && !e.Receive?
    ensures AllAcks(Step(text, sys, e).responses) ==> SameTranscript(sys, Step(text, sys, e))
  {
    hide AdmitNext;
    hide PollPaused;
    hide Consistent;
    hide R.Step;
    ConsistentFits(sys);
    match e
    case Admit(now, isNew, authorizes) => AdmitKeepsTranscript(sys, e);
    case PollPause(now, timedOut) => PollKeepsTranscript(sys, now, timedOut);
    case Beside(op) =>
  }

  lemma {:induction false} PollKeepsTranscript(sys: System, now: int, timedOut: bool)
    requires |sys.world.s.buffer| <= S.CHUNK_BYTES
    ensures AllAcks(PollPaused(sys, now, timedOut).responses) ==> SameTranscript(sys, PollPaused(sys, now, timedOut))
  {
    hide Fail;
    hide AllAcks;
    if sys.barrier != Free && sys.pending != [] {
      var a := sys.pending[0];
      FailIsHeard(sys, SequenceOf(a), F.IoTimeout, now);
      FailIsHeard(sys, SequenceOf(a), F.SessionRejected, now);
      AcksSnoc(sys.responses, Ack(SequenceOf(a), a.reason));
    }
  }

  lemma {:induction false} AdmitKeepsTranscript(sys: System, e: Event)
    requires Consistent(sys) && e.Admit?
    ensures AllAcks(AdmitNext(sys, e).responses) ==> SameTranscript(sys, AdmitNext(sys, e))
  {
    hide Consistent;
    hide AllAcks;
    hide Fail;
    hide AdmitRecord;
    ConsistentFits(sys);
    if sys.pending != [] && sys.barrier == Free {
      var a := sys.pending[0];
      AcksSnoc(sys.responses, Ack(SequenceOf(a), a.reason));
      FailIsHeard(sys, SequenceOf(a), a.reason, e.now);
      FailIsHeard(sys, 0, F.SessionRejected, e.now);
      if a.record.Some? {
        RecordKeepsTranscript(sys, a, a.record.value, e);
      }
    }
  }

  lemma {:induction false} RecordKeepsTranscript(sys: System, a: M.Acceptance, r: F.Record, e: Event)
    requires Consistent(sys) && e.Admit? && sys.pending != []
    ensures |sys.world.s.buffer| <= S.CHUNK_BYTES && R.Coupled(sys.world.s)
    ensures AllAcks(AdmitRecord(sys, a, r, e).responses) ==> SameTranscript(sys, AdmitRecord(sys, a, r, e))
  {
    hide Answered;
    hide M.Follows;
    hide AllAcks;
    hide Fail;
    hide R.Call;
    hide R.Coupled;
    ConsistentFits(sys);
    var op := CallFor(r, e.now, e.isNew, e.authorizes);
    FailIsHeard(sys, SequenceOf(a), F.UnexpectedMessageOrder, e.now);
    FailIsHeard(sys, SequenceOf(a), F.GenerationMismatch, e.now);
    AcksSnoc(sys.responses, Ack(SequenceOf(a), a.reason));
    if op.Some? {
      R.StepConsistent(sys.world, op.value);
      WorldFits(R.Step(sys.world, op.value));
      FailIsHeard(sys.(world := R.Step(sys.world, op.value)), SequenceOf(a), F.SessionRejected, e.now);
    }
  }

  lemma {:induction false} WorldFits(w: R.World)
    requires R.Consistent(w)
    ensures |w.s.buffer| <= S.CHUNK_BYTES
  {
  }

  lemma {:induction false} ReceiveTranscribes(text: F.TextLayer, scope: M.Scope, sys: System, data: Bytes)
    requires Consistent(sys) && (AllAcks(sys.responses) ==> Transcribed(text, scope, sys))
    ensures AllAcks(ReceiveBytes(text, sys, data).responses) ==> Transcribed(text, scope, ReceiveBytes(text, sys, data))
  {
    hide Fail;
    hide M.Follows;
    hide R.Consistent;
    hide Answered;
    hide P.FeedBytes;
    hide M.AcceptAll;
    hide M.Trace;
    hide AllAcks;
    if sys.pending == [] && sys.barrier == Free {
      ConsistentFits(sys);
      FailIsHeard(sys, 0, F.TerminalState, 0);
      if !M.Terminal(sys.machine) {
        var fed := P.FeedBytes(text, sys.parser, data);
        var t := sys.(parser := fed.p, taken := sys.taken + data);
        if fed.outcome.Err? {
          FailIsHeard(t, 0, fed.outcome.error, 0);
        } else if AllAcks(sys.responses) {
          P.TwoFeedsAreOne(text, P.FRESH, sys.taken, data);
          M.AcceptSplits(M.Fresh(scope), sys.parsed, fed.outcome.value);
        }
      }
    }
  }

  lemma {:induction false} RunTranscribes(text: F.TextLayer, scope: M.Scope, sys: System, events: seq<Event>)
    requires Consistent(sys) && (AllAcks(sys.responses) ==> Transcribed(text, scope, sys))
    ensures AllAcks(Run(text, sys, events).responses) ==> Transcribed(text, scope, Run(text, sys, events))
    decreases |events|
  {
    hide Consistent;
    hide AllAcks;
    hide ReceiveBytes;
    hide P.FeedBytes;
    hide M.AcceptAll;
    hide M.Trace;
    if events != [] {
      StepConsistent(text, sys, events[0]);
      ConsistentFits(sys);
      if events[0].Receive? {
        ReceiveTranscribes(text, scope, sys, events[0].data);
      } else {
        OthersKeepTranscript(text, sys, events[0]);
      }
      RunTranscribes(text, scope, Step(text, sys, events[0]), events[1..]);
    }
  }

  /** As long as only ACKs were answered, the trace is what a fresh machine accepts of the records in the bytes. */
  lemma {:induction false} TraceIsOfTheBytes(text: F.TextLayer, scope: M.Scope, maxQueue: nat, events: seq<Event>)
    requires scope.Valid() && maxQueue > 0
    ensures var sys := RunFrom(text, scope, maxQueue, events);
      AllAcks(sys.responses) ==> Transcribed(text, scope, sys)
  {
    hide Consistent;
    hide Transcribed;
    hide AllAcks;
    InitialConsistent(scope, maxQueue);
    InitialTranscribed(text, scope, maxQueue);
    RunTranscribes(text, scope, Initial(scope, maxQueue), events);
  }

  lemma {:induction false} InitialTranscribed(text: F.TextLayer, scope: M.Scope, maxQueue: nat)
    ensures Transcribed(text, scope, Initial(scope, maxQueue))
  {
  }
}
