/**
  The relay state machine: sequence numbers, capture generations, message order and
  a bounded window of exact duplicates, failing closed. The trace law says exactly
  which record sequences it accepts in full.
 */
module RelayMachine {
  import opened Common
  import opened RelayFraming

  const MAX_DUPLICATE_HISTORY := 64

  datatype State = AWAIT_START | STREAMING | PAUSED | ENDED | FAILED

  datatype Status = ACCEPTED | DUPLICATE | REJECTED

  datatype Acceptance = Acceptance(status: Status, reason: Reason, state: State, record: Option<Record>)

  datatype Scope = Scope(token: string, tenantId: string, callId: string, streamId: string, historyLimit: nat)
  {
    predicate Valid() {
      && ValidToken(token) && ValidIdentifier(tenantId) && ValidIdentifier(callId) && ValidIdentifier(streamId)
      && 0 < historyLimit <= MAX_DUPLICATE_HISTORY
    }
  }

  datatype Machine = Machine(scope: Scope, state: State, generation: Option<nat>, next: nat,
                             history: seq<(nat, Bytes)>)

  function Fresh(scope: Scope): Machine {
    Machine(scope, AWAIT_START, None, 0, [])
  }

  function TokensMatch(expected: string, received: string): bool {
    ValidToken(expected) && ValidToken(received) && expected == received
  }

  function Reject(m: Machine, reason: Reason): (Machine, Acceptance) {
    (m.(state := FAILED), Acceptance(REJECTED, reason, FAILED, None))
  }

  function Accepted(m: Machine, r: Record, reason: Reason): (Machine, Acceptance) {
    (m.(history := Trimmed(m.history + [(r.meta.sequence, r.fingerprint)], m.scope.historyLimit), next := m.next + 1),
     Acceptance(ACCEPTED, reason, m.state, Some(r)))
  }

  function AcceptStart(m: Machine, r: Record): (Machine, Acceptance) {
    if r.kind != START then Reject(m, UnexpectedMessageOrder)
    else if !r.meta.StartMeta? then Reject(m, InvalidMetadata)
    else if !TokensMatch(m.scope.token, r.meta.token) then Reject(m, AuthenticationFailed)
    else if r.meta.tenantId != m.scope.tenantId || r.meta.callId != m.scope.callId
      || r.meta.streamId != m.scope.streamId
    then Reject(m, ScopeMismatch)
    else if r.meta.sequence != 0 then Reject(m, SequenceGap)
    else Accepted(m.(generation := Some(r.meta.generation), state := STREAMING), r, Started)
  }

  function AcceptResume(m: Machine, r: Record, generation: nat): (Machine, Acceptance) {
    if m.state != PAUSED then Reject(m, UnexpectedMessageOrder)
    else if m.generation.None? || generation <= m.generation.value then Reject(m, StaleGeneration)
    else if generation != m.generation.value + 1 then Reject(m, GenerationMismatch)
    else Accepted(m.(generation := Some(generation), state := STREAMING), r, Resumed)
  }

  function AcceptInOrder(m: Machine, r: Record): (Machine, Acceptance) {
    if m.state == AWAIT_START then AcceptStart(m, r)
    else if r.kind == START || r.kind == ACK || r.kind == ERROR then Reject(m, UnexpectedMessageOrder)
    else if r.meta.StartMeta? || r.meta.ResponseMeta? then Reject(m, InvalidMetadata)
    else if r.kind == RESUME then AcceptResume(m, r, r.meta.generation)
    else if Some(r.meta.generation) != m.generation then
      Reject(m, if m.generation.Some? && r.meta.generation < m.generation.value then StaleGeneration
             else GenerationMismatch)
    else match r.kind
      case AUDIO => if m.state != STREAMING then Reject(m, UnexpectedMessageOrder) else Accepted(m, r, AudioAccepted)
      case PAUSE =>
        if m.state != STREAMING then Reject(m, UnexpectedMessageOrder) else Accepted(m.(state := PAUSED), r, Paused)
      case _ => Accepted(m.(state := ENDED), r, Ended)
  }

  predicate Terminal(m: Machine) {
    m.state == ENDED || m.state == FAILED
  }

  function AcceptRecord(m: Machine, r: Record): (Machine, Acceptance) {
    if Terminal(m) then (m, Acceptance(REJECTED, TerminalState, m.state, None))
    else if r.meta.sequence < m.next then
      var known := Remembered(m.history, r.meta.sequence);
      if known.None? then Reject(m, StaleSequence)
      else if known.value != r.fingerprint then Reject(m, ConflictingDuplicate)
      else (m, Acceptance(DUPLICATE, ExactDuplicate, m.state, Some(r)))
    else if r.meta.sequence > m.next then Reject(m, SequenceGap)
    else AcceptInOrder(m, r)
  }

  /** An outside failure, such as a framing error, closes the machine unless END was accepted. */
  function Fail(m: Machine): Machine {
    if m.state == ENDED then m else m.(state := FAILED)
  }

  function AcceptAll(m: Machine, rs: seq<Record>): (Machine, seq<Acceptance>) {
    if rs == [] then (m, [])
    else
      var before := AcceptAll(m, rs[..|rs| - 1]);
      var last := AcceptRecord(before.0, rs[|rs| - 1]);
      (last.0, before.1 + [last.1])
  }

  /** The records accepted along a run, in order. */
  function Trace(m: Machine, rs: seq<Record>): seq<Record> {
    if rs == [] then []
    else
      var before := AcceptAll(m, rs[..|rs| - 1]).0;
      Extended(Trace(m, rs[..|rs| - 1]), before, rs[|rs| - 1])
  }

  // ----- The trace law -----

  /** A record the framing layer can produce: metadata of the shape its type demands. */
  ghost predicate WellShaped(r: Record) {
    Shaped(r.kind, r.meta, r.payload)
  }

  function Resumes(trace: seq<Record>): nat {
    if trace == [] then 0
    else Resumes(trace[..|trace| - 1]) + (if trace[|trace| - 1].kind == RESUME then 1 else 0)
  }

  /** The audio of a conversation: the payloads of its AUDIO records, in order. */
  function AudioOf(trace: seq<Record>): Bytes {
    if trace == [] then []
    else AudioOf(trace[..|trace| - 1]) + (if trace[|trace| - 1].kind == AUDIO then trace[|trace| - 1].payload else [])
  }

  lemma {:induction false} AudioSnoc(trace: seq<Record>, r: Record)
    ensures AudioOf(trace + [r]) == AudioOf(trace) + (if r.kind == AUDIO then r.payload else [])
    ensures Resumes(trace + [r]) == Resumes(trace) + (if r.kind == RESUME then 1 else 0)
  {
  }

  /** Which message may follow which: START (AUDIO* PAUSE RESUME)* AUDIO* [PAUSE] END. */
  predicate MayFollow(previous: MessageType, next: MessageType) {
    match previous
    case START => next == AUDIO || next == PAUSE || next == END
    case AUDIO => next == AUDIO || next == PAUSE || next == END
    case RESUME => next == AUDIO || next == PAUSE || next == END
    case PAUSE => next == RESUME || next == END
    case _ => false
  }

  ghost predicate OpensScope(scope: Scope, r: Record) {
    && r.kind == START && r.meta.StartMeta?
    && TokensMatch(scope.token, r.meta.token)
    && r.meta.tenantId == scope.tenantId && r.meta.callId == scope.callId && r.meta.streamId == scope.streamId
  }

  /** A legal conversation: consecutive numbers, the message grammar, and generations that count the resumes. */
  ghost predicate LegalTrace(scope: Scope, trace: seq<Record>) {
    && (forall i :: 0 <= i < |trace| ==> trace[i].meta.sequence == i)
    && (|trace| > 0 ==> OpensScope(scope, trace[0]))
    && (forall i :: 0 < i < |trace| ==> LegalSuccessor(trace, i))
  }

  ghost predicate LegalSuccessor(trace: seq<Record>, i: nat)
    requires 0 < i < |trace|
  {
    && trace[0].meta.StartMeta?
    && MayFollow(trace[i - 1].kind, trace[i].kind)
    && !trace[i].meta.ResponseMeta? && !trace[i].meta.StartMeta?
    && trace[i].meta.generation == trace[0].meta.generation + Resumes(trace[..i + 1])
  }

  function StateAfter(kind: MessageType): State {
    match kind
    case PAUSE => PAUSED
    case END => ENDED
    case _ => STREAMING
  }

  /** The history a machine must hold: the last records of the trace, with their fingerprints. */
  function Window(trace: seq<Record>, limit: nat): seq<(nat, Bytes)> {
    var from := if |trace| <= limit then 0 else |trace| - limit;
    seq(|trace| - from, i requires 0 <= i < |trace| - from =>
      (trace[from + i].meta.sequence, trace[from + i].fingerprint))
  }

  /** The machine is determined by what it accepted, unless it has failed. */
  ghost predicate Follows(m: Machine, trace: seq<Record>) {
    && LegalTrace(m.scope, trace)
    && m.next == |trace|
    && m.history == Window(trace, m.scope.historyLimit)
    && (m.state == FAILED ||
        if trace == [] then m.state == AWAIT_START && m.generation.None?
        else
          && trace[0].meta.StartMeta?
          && m.state == StateAfter(trace[|trace| - 1].kind)
          && m.generation == Some(trace[0].meta.generation + Resumes(trace)))
  }

  lemma {:induction false} WindowGrows(trace: seq<Record>, r: Record, limit: nat)
    requires limit > 0
    ensures Window(trace + [r], limit) == Trimmed(Window(trace, limit) + [(r.meta.sequence, r.fingerprint)], limit)
  {
  }

  /** A legal trace stays legal record by record. */
  lemma {:induction false} TraceGrows(scope: Scope, trace: seq<Record>, r: Record)
    requires LegalTrace(scope, trace) && r.meta.sequence == |trace|
    requires trace == [] ==> OpensScope(scope, r)
    requires trace != [] ==>
      && trace[0].meta.StartMeta?
      && MayFollow(trace[|trace| - 1].kind, r.kind)
      && !r.meta.ResponseMeta? && !r.meta.StartMeta?
      && r.meta.generation == trace[0].meta.generation + Resumes(trace) + (if r.kind == RESUME then 1 else 0)
    ensures LegalTrace(scope, trace + [r])
  {
    var longer := trace + [r];
    forall i | 0 < i < |longer| ensures LegalSuccessor(longer, i) {
      if i < |trace| {
        assert LegalSuccessor(trace, i);
        assert longer[..i + 1] == trace[..i + 1];
      } else {
        assert longer[..i + 1] == longer;
        assert longer[..|longer| - 1] == trace;
      }
    }
  }

  lemma {:induction false} FollowsStart(m: Machine, r: Record)
    requires m.scope.Valid() && Follows(m, []) && m.state == AWAIT_START
    requires r.meta.sequence == 0 && AcceptStart(m, r).1.status == ACCEPTED
    ensures Follows(AcceptStart(m, r).0, [r])
  {
  }

  lemma {:induction false} FollowsNext(m: Machine, trace: seq<Record>, r: Record)
    requires m.scope.Valid() && Follows(m, trace) && !Terminal(m) && trace != []
    requires r.meta.sequence == m.next && AcceptInOrder(m, r).1.status == ACCEPTED
    ensures Follows(AcceptInOrder(m, r).0, trace + [r])
  {
    assert |trace| > 1 ==> LegalSuccessor(trace, |trace| - 1);
    TraceGrows(m.scope, trace, r);
    WindowGrows(trace, r, m.scope.historyLimit);
    assert (trace + [r])[..|trace|] == trace;
  }

  /** A record is either taken in order, or leaves everything but the state alone. */
  lemma {:induction false} AcceptOutcomes(m: Machine, r: Record)
    ensures AcceptRecord(m, r).1.status == ACCEPTED ==>
      !Terminal(m) && r.meta.sequence == m.next && AcceptRecord(m, r) == AcceptInOrder(m, r)
    ensures AcceptRecord(m, r).1.status != ACCEPTED ==>
      AcceptRecord(m, r).0 == m || AcceptRecord(m, r).0 == m.(state := FAILED)
    ensures AcceptRecord(m, r).0.scope == m.scope
  {
  }

  /** The trace after one more record. */
  function Extended(trace: seq<Record>, m: Machine, r: Record): seq<Record> {
    if AcceptRecord(m, r).1.status == ACCEPTED then trace + [r] else trace
  }

  lemma {:induction false} FollowsStep(m: Machine, trace: seq<Record>, r: Record)
    requires m.scope.Valid() && Follows(m, trace)
    ensures Follows(AcceptRecord(m, r).0, Extended(trace, m, r))
  {
    AcceptOutcomes(m, r);
    if AcceptRecord(m, r).1.status == ACCEPTED {
      if trace == [] {
        FollowsStart(m, r);
        assert [] + [r] == [r];
      } else {
        FollowsNext(m, trace, r);
      }
    } else {
      FailedFollows(m, trace);
    }
  }

  lemma {:induction false} FailedFollows(m: Machine, trace: seq<Record>)
    requires Follows(m, trace)
    ensures Follows(m.(state := FAILED), trace)
  {
  }

  /** Whatever a machine accepts from here on extends its trace. */
  lemma {:induction false} FollowsRun(m: Machine, trace: seq<Record>, rs: seq<Record>)
    requires m.scope.Valid() && Follows(m, trace)
    ensures AcceptAll(m, rs).0.scope == m.scope
    ensures Follows(AcceptAll(m, rs).0, trace + Trace(m, rs))
  {
    if rs == [] {
      assert trace + [] == trace;
    } else {
      var before, last := AcceptAll(m, rs[..|rs| - 1]).0, rs[|rs| - 1];
      var sofar := Trace(m, rs[..|rs| - 1]);
      FollowsRun(m, trace, rs[..|rs| - 1]);
      FollowsStep(before, trace + sofar, last);
      AcceptOutcomes(before, last);
      assert Extended(trace + sofar, before, last) == trace + Extended(sofar, before, last);
    }
  }

  /** Feeding two lists in turn is feeding their concatenation. */
  lemma {:induction false} AcceptSplits(m: Machine, a: seq<Record>, b: seq<Record>)
    ensures AcceptAll(m, a + b).0 == AcceptAll(AcceptAll(m, a).0, b).0
    ensures Trace(m, a + b) == Trace(m, a) + Trace(AcceptAll(m, a).0, b)
    decreases |b|
  {
    hide AcceptRecord;
    if b == [] {
      assert a + b == a;
    } else {
      assert (a + b)[..|a + b| - 1] == a + b[..|b| - 1];
      AcceptSplits(m, a, b[..|b| - 1]);
    }
  }

  /**
    Safety. Over any record sequence, what was accepted is a legal trace, and the machine's
    counters, generation, state and duplicate window are those of that trace.
   */
  lemma {:induction false} MachineFollowsItsTrace(scope: Scope, rs: seq<Record>)
    requires scope.Valid()
    ensures AcceptAll(Fresh(scope), rs).0.scope == scope
    ensures Follows(AcceptAll(Fresh(scope), rs).0, Trace(Fresh(scope), rs))
  {
    FollowsRun(Fresh(scope), [], rs);
    assert [] + Trace(Fresh(scope), rs) == Trace(Fresh(scope), rs);
  }

  /** Every record of a legal, well-shaped trace is taken by a machine that follows the trace so far. */
  lemma {:induction false} LegalRecordIsAccepted(m: Machine, trace: seq<Record>, n: nat)
    requires m.scope.Valid() && LegalTrace(m.scope, trace) && n < |trace|
    requires forall i :: 0 <= i < |trace| ==> WellShaped(trace[i])
    requires Follows(m, trace[..n]) && m.state != FAILED
    ensures AcceptRecord(m, trace[n]).1.status == ACCEPTED
  {
    if n > 0 {
      assert LegalSuccessor(trace, n);
      assert trace[..n][n - 1] == trace[n - 1];
      assert trace[..n + 1][..n] == trace[..n];
    }
  }

  lemma {:induction false} LegalTraceIsAccepted(scope: Scope, trace: seq<Record>, n: nat)
    requires scope.Valid() && LegalTrace(scope, trace) && n <= |trace|
    requires forall i :: 0 <= i < |trace| ==> WellShaped(trace[i])
    ensures Trace(Fresh(scope), trace[..n]) == trace[..n]
    ensures AcceptAll(Fresh(scope), trace[..n]).0.state != FAILED
  {
    hide LegalTrace;
    hide WellShaped;
    hide Follows;
    hide AcceptRecord;
    if n > 0 {
      LegalTraceIsAccepted(scope, trace, n - 1);
      var before := AcceptAll(Fresh(scope), trace[..n - 1]).0;
      MachineFollowsItsTrace(scope, trace[..n - 1]);
      LegalRecordIsAccepted(before, trace, n - 1);
      FollowsStep(before, trace[..n - 1], trace[n - 1]);
      assert trace[..n][..n - 1] == trace[..n - 1];
      assert trace[..n - 1] + [trace[n - 1]] == trace[..n];
      assert AcceptAll(Fresh(scope), trace[..n]).0 == AcceptRecord(before, trace[n - 1]).0;
      AcceptedIsNotFailed(before, trace[n - 1]);
    }
  }

  lemma {:induction false} AcceptedIsNotFailed(m: Machine, r: Record)
    requires AcceptRecord(m, r).1.status == ACCEPTED
    ensures AcceptRecord(m, r).0.state != FAILED
  {
  }

  /** A well-shaped record sequence is accepted in full exactly when it is a legal trace. */
  lemma {:induction false} AcceptedInFullIffLegal(scope: Scope, rs: seq<Record>)
    requires scope.Valid() && forall i :: 0 <= i < |rs| ==> WellShaped(rs[i])
    ensures Trace(Fresh(scope), rs) == rs <==> LegalTrace(scope, rs)
  {
    MachineFollowsItsTrace(scope, rs);
    if LegalTrace(scope, rs) {
      LegalTraceIsAccepted(scope, rs, |rs|);
      assert rs[..|rs|] == rs;
    }
  }

  /** The history answers for exactly the records of the window, with their digests. */
  lemma {:induction false} RememberedWindow(m: Machine, trace: seq<Record>, k: nat)
    requires Follows(m, trace) && k < |trace|
    ensures Remembered(m.history, k)
         == if |trace| <= k + m.scope.historyLimit then Some(trace[k].fingerprint) else None
  {
    hide Resumes;
    hide LegalSuccessor;
    var from := if |trace| <= m.scope.historyLimit then 0 else |trace| - m.scope.historyLimit;
    var found := Remembered(m.history, k);
    if from <= k {
      assert m.history[k - from] == (k, trace[k].fingerprint);
    }
    if found.Some? {
      var j :| 0 <= j < |m.history| && m.history[j] == (k, found.value);
      assert m.history[j].0 == from + j;
    }
  }

  /** A retransmission of any record still in the window changes neither the state nor the trace. */
  lemma {:induction false} WindowDuplicateIsHarmless(m: Machine, trace: seq<Record>, i: nat)
    requires m.scope.Valid() && Follows(m, trace) && !Terminal(m)
    requires i < |trace| && |trace| - m.scope.historyLimit <= i
    ensures AcceptRecord(m, trace[i]).0 == m
    ensures AcceptRecord(m, trace[i]).1.status == DUPLICATE
  {
    RememberedWindow(m, trace, i);
  }

  /** A record is answered as a duplicate exactly when it repeats an accepted one of the window. */
  lemma {:induction false} DuplicateIffInWindow(m: Machine, trace: seq<Record>, r: Record)
    requires m.scope.Valid() && Follows(m, trace) && !Terminal(m)
    ensures AcceptRecord(m, r).1.status == DUPLICATE <==>
      && r.meta.sequence < |trace| && |trace| - m.scope.historyLimit <= r.meta.sequence
      && r.fingerprint == trace[r.meta.sequence].fingerprint
  {
    hide LegalTrace;
    hide Window;
    hide Resumes;
    if r.meta.sequence < |trace| {
      RememberedWindow(m, trace, r.meta.sequence);
    }
  }

  /** A retransmission the machine still remembers: an accepted record of the window, before termination. */
  ghost predicate RepeatsWindow(m: Machine, trace: seq<Record>, r: Record) {
    && !Terminal(m)
    && r.meta.sequence < |trace| && |trace| - m.scope.historyLimit <= r.meta.sequence
    && r.fingerprint == trace[r.meta.sequence].fingerprint
  }

  /** `noisy` is `rs` with retransmissions inserted, each repeating what the machine then remembers. */
  ghost predicate WithRepeats(scope: Scope, rs: seq<Record>, noisy: seq<Record>)
    decreases |noisy|
  {
    if noisy == [] then rs == []
    else
      var last := noisy[|noisy| - 1];
      || (rs != [] && rs[|rs| - 1] == last && WithRepeats(scope, rs[..|rs| - 1], noisy[..|noisy| - 1]))
      || (RepeatsWindow(AcceptAll(Fresh(scope), rs).0, Trace(Fresh(scope), rs), last)
          && WithRepeats(scope, rs, noisy[..|noisy| - 1]))
  }

  /** Retransmissions inserted anywhere change neither the machine at the end nor what it accepted. */
  lemma {:induction false} RetransmissionsAreInvisible(scope: Scope, rs: seq<Record>, noisy: seq<Record>)
    requires scope.Valid() && WithRepeats(scope, rs, noisy)
    ensures AcceptAll(Fresh(scope), noisy).0 == AcceptAll(Fresh(scope), rs).0
    ensures Trace(Fresh(scope), noisy) == Trace(Fresh(scope), rs)
    decreases |noisy|
  {
    hide AcceptRecord;
    hide Follows;
    if noisy != [] {
      var last, m := noisy[|noisy| - 1], AcceptAll(Fresh(scope), rs).0;
      if RepeatsWindow(m, Trace(Fresh(scope), rs), last) && WithRepeats(scope, rs, noisy[..|noisy| - 1]) {
        RetransmissionsAreInvisible(scope, rs, noisy[..|noisy| - 1]);
        MachineFollowsItsTrace(scope, rs);
        DuplicateIffInWindow(m, Trace(Fresh(scope), rs), last);
        DuplicateLeaves(m, last);
      } else {
        RetransmissionsAreInvisible(scope, rs[..|rs| - 1], noisy[..|noisy| - 1]);
      }
    }
  }

  lemma {:induction false} DuplicateLeaves(m: Machine, r: Record)
    requires AcceptRecord(m, r).1.status == DUPLICATE
    ensures AcceptRecord(m, r).0 == m && !Terminal(m)
  {
  }

  /** The records of a run that were not answered as duplicates. */
  function Novel(m: Machine, noisy: seq<Record>): seq<Record> {
    if noisy == [] then []
    else
      var before, last := AcceptAll(m, noisy[..|noisy| - 1]).0, noisy[|noisy| - 1];
      Novel(m, noisy[..|noisy| - 1]) + (if AcceptRecord(before, last).1.status == DUPLICATE then [] else [last])
  }

  /** Every run is its novel records with such retransmissions inserted, so dropping the duplicates changes nothing. */
  lemma {:induction false} DuplicatesCanBeDropped(scope: Scope, noisy: seq<Record>)
    requires scope.Valid()
    ensures WithRepeats(scope, Novel(Fresh(scope), noisy), noisy)
    ensures AcceptAll(Fresh(scope), Novel(Fresh(scope), noisy)).0 == AcceptAll(Fresh(scope), noisy).0
    ensures Trace(Fresh(scope), Novel(Fresh(scope), noisy)) == Trace(Fresh(scope), noisy)
    decreases |noisy|
  {
    hide AcceptRecord;
    hide Follows;
    if noisy != [] {
      var head, last := noisy[..|noisy| - 1], noisy[|noisy| - 1];
      var rs, m := Novel(Fresh(scope), head), AcceptAll(Fresh(scope), head).0;
      DuplicatesCanBeDropped(scope, head);
      if AcceptRecord(m, last).1.status == DUPLICATE {
        MachineFollowsItsTrace(scope, rs);
        DuplicateLeaves(m, last);
        DuplicateIffInWindow(m, Trace(Fresh(scope), rs), last);
        assert rs + [] == rs;
      } else {
        assert (rs + [last])[..|rs|] == rs;
      }
      RetransmissionsAreInvisible(scope, Novel(Fresh(scope), noisy), noisy);
    }
  }

  lemma {:induction false} FailedIsStuck(m: Machine, rs: seq<Record>)
    requires m.state == FAILED
    ensures AcceptAll(m, rs).0 == m && Trace(m, rs) == []
  {
    hide AcceptInOrder;
    hide Remembered;
    if rs != [] {
      FailedIsStuck(m, rs[..|rs| - 1]);
    }
  }

  /** A rejection before END is absorbing: every later record is rejected and nothing moves. */
  lemma {:induction false} RejectionIsAbsorbing(m: Machine, r: Record, rs: seq<Record>)
    requires m.state != ENDED && AcceptRecord(m, r).1.status == REJECTED
    ensures AcceptAll(AcceptRecord(m, r).0, rs).0 == AcceptRecord(m, r).0
    ensures Trace(AcceptRecord(m, r).0, rs) == []
  {
    hide AcceptAll;
    hide Trace;
    FailedIsStuck(AcceptRecord(m, r).0, rs);
  }

  // ----- The machine object -----

  class MicrophoneRelayStateMachine {
    const scope: Scope
    var state: State
    var generation: Option<nat>
    var nextSequence: nat
    var fingerprints: seq<(nat, Bytes)>

    constructor (scope: Scope)
      requires scope.Valid()
      ensures Model() == Fresh(scope)
    {
      this.scope := scope;
      state, generation, nextSequence, fingerprints := AWAIT_START, None, 0, [];
    }

    ghost function Model(): Machine
      reads this
    {
      Machine(scope, state, generation, nextSequence, fingerprints)
    }

    method RejectWith(reason: Reason) returns (a: Acceptance)
      modifies this
      ensures (Model(), a) == Reject(old(Model()), reason)
    {
      state := FAILED;
      return Acceptance(REJECTED, reason, state, None);
    }

    method Admit(r: Record, reason: Reason) returns (a: Acceptance)
      modifies this
      ensures (Model(), a) == Accepted(old(Model()), r, reason)
    {
      fingerprints := fingerprints + [(r.meta.sequence, r.fingerprint)];
      while |fingerprints| > scope.historyLimit
        invariant state == old(state) && generation == old(generation) && nextSequence == old(nextSequence)
        invariant Trimmed(fingerprints, scope.historyLimit)
               == Trimmed(old(fingerprints) + [(r.meta.sequence, r.fingerprint)], scope.historyLimit)
        decreases |fingerprints|
      {
        fingerprints := fingerprints[1..];
      }
      nextSequence := nextSequence + 1;
      return Acceptance(ACCEPTED, reason, state, Some(r));
    }

    method AdmitStart(r: Record) returns (a: Acceptance)
      modifies this
      ensures (Model(), a) == AcceptStart(old(Model()), r)
    {
      if r.kind != START {
        a := RejectWith(UnexpectedMessageOrder);
      } else if !r.meta.StartMeta? {
        a := RejectWith(InvalidMetadata);
      } else if !TokensMatch(scope.token, r.meta.token) {
        a := RejectWith(AuthenticationFailed);
      } else if r.meta.tenantId != scope.tenantId || r.meta.callId != scope.callId
        || r.meta.streamId != scope.streamId {
        a := RejectWith(ScopeMismatch);
      } else if r.meta.sequence != 0 {
        a := RejectWith(SequenceGap);
      } else {
        generation, state := Some(r.meta.generation), STREAMING;
        a := Admit(r, Started);
      }
    }

    method AdmitResume(r: Record, next: nat) returns (a: Acceptance)
      modifies this
      ensures (Model(), a) == AcceptResume(old(Model()), r, next)
    {
      if state != PAUSED {
        a := RejectWith(UnexpectedMessageOrder);
      } else if generation.None? || next <= generation.value {
        a := RejectWith(StaleGeneration);
      } else if next != generation.value + 1 {
        a := RejectWith(GenerationMismatch);
      } else {
        generation, state := Some(next), STREAMING;
        a := Admit(r, Resumed);
      }
    }

    method Accept(r: Record) returns (a: Acceptance)
      modifies this
      ensures (Model(), a) == AcceptRecord(old(Model()), r)
    {
      if state == ENDED || state == FAILED {
        return Acceptance(REJECTED, TerminalState, state, None);
      }
      var sequence: nat := r.meta.sequence;
      if sequence < nextSequence {
        var fingerprint := Remembered(fingerprints, sequence);
        if fingerprint.None? {
          a := RejectWith(StaleSequence);
        } else if fingerprint.value != r.fingerprint {
          a := RejectWith(ConflictingDuplicate);
        } else {
          a := Acceptance(DUPLICATE, ExactDuplicate, state, Some(r));
        }
        return;
      }
      if sequence > nextSequence {
        a := RejectWith(SequenceGap);
        return;
      }
      if state == AWAIT_START {
        a := AdmitStart(r);
        return;
      }
      if r.kind == START || r.kind == ACK || r.kind == ERROR {
        a := RejectWith(UnexpectedMessageOrder);
        return;
      }
      if r.meta.StartMeta? || r.meta.ResponseMeta? {
        a := RejectWith(InvalidMetadata);
        return;
      }
      if r.kind == RESUME {
        a := AdmitResume(r, r.meta.generation);
        return;
      }
      if Some(r.meta.generation) != generation {
        a := RejectWith(if generation.Some? && r.meta.generation < generation.value then StaleGeneration
                        else GenerationMismatch);
        return;
      }
      if r.kind == AUDIO {
        if state != STREAMING {
          a := RejectWith(UnexpectedMessageOrder);
        } else {
          a := Admit(r, AudioAccepted);
        }
        return;
      }
      if r.kind == PAUSE {
        if state != STREAMING {
          a := RejectWith(UnexpectedMessageOrder);
        } else {
          state := PAUSED;
          a := Admit(r, Paused);
        }
        return;
      }
      state := ENDED;
      a := Admit(r, Ended);
    }

    method FailWith()
      modifies this
      ensures Model() == Fail(old(Model()))
    {
      if state != ENDED {
        state := FAILED;
      }
    }
  }
}
