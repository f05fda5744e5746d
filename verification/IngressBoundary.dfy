/**
  The call-scoped ingress boundary: several audio streams, each an ordered bounded
  queue with its own sequence, format, duplicate window and running start time.
 */
module IngressBoundary {
  import opened Common

  datatype EventType = START | AUDIO_CHUNK | END

  datatype EndReason = COMPLETED | CANCELLED

  datatype Event = Event(tenantId: string, providerName: string, callId: string, streamId: string,
                         eventType: EventType, sequence: nat, codecName: string, sampleRate: nat,
                         channels: nat, capturedAt: int, arrivedAt: int, duration: real,
                         payload: Bytes, endReason: Option<EndReason>)
  {
    /** The shape every constructed event has. */
    ghost predicate Valid() {
      && capturedAt <= arrivedAt
      && 0.0 <= duration <= 10.0
      && (if eventType == AUDIO_CHUNK then payload != [] && duration > 0.0 && endReason.None?
          else payload == [] && duration == 0.0 && (endReason.Some? <==> eventType == END))
    }
  }

  datatype Status = ACCEPTED | DUPLICATE | FINISHED | REJECTED | OVERLOADED

  datatype Reason =
    | Started | FrameAccepted | ExactDuplicate | Ended | Cancelled | StartRequired | DuplicateStart
    | DuplicateEnd | ScopeMismatch | FormatMismatch | SequenceGap | ConflictingDuplicate | StaleSequence
    | QueueFull | ActiveStreamLimit

  /** An accepted chunk: the event's audio and times, with its start within the stream. */
  datatype Chunk = Chunk(event: Event, startSeconds: real)

  datatype Answer = Answer(status: Status, reason: Reason, chunk: Option<Chunk>, endReason: Option<EndReason>)

  type Key = (string, string)

  /** The digested fields of an audio event; digests are taken to agree exactly when these do. */
  datatype Fingerprint = Fingerprint(sequence: nat, codecName: string, sampleRate: nat, channels: nat,
                                     duration: real, capturedAt: int, payload: Bytes)

  datatype Stream = Stream(callId: string, streamId: string, codecName: string, sampleRate: nat, channels: nat,
                           next: nat, nextStart: real, acceptedFrames: nat, rejectedFrames: nat,
                           gapCount: nat, duplicateCount: nat, queue: seq<Chunk>,
                           fingerprints: seq<(nat, Fingerprint)>)

  datatype Limits = Limits(tenantId: string, providerName: string, maxActive: nat, maxQueue: nat,
                           historyLimit: nat, completedLimit: nat)
  {
    predicate Valid() {
      0 < maxActive && 0 < maxQueue && 0 < historyLimit && 0 < completedLimit
    }
  }

  datatype Boundary = Boundary(limits: Limits, active: map<Key, Stream>, completed: seq<Key>)

  function Fresh(limits: Limits): Boundary {
    Boundary(limits, map[], [])
  }

  function KeyOf(e: Event): Key {
    (e.callId, e.streamId)
  }

  function FingerprintOf(e: Event): Fingerprint {
    Fingerprint(e.sequence, e.codecName, e.sampleRate, e.channels, e.duration, e.capturedAt, e.payload)
  }

  function Refuse(reason: Reason): Answer {
    Answer(REJECTED, reason, None, None)
  }

  predicate ActiveElsewhere(b: Boundary, e: Event) {
    exists k :: k in b.active && (b.active[k].callId == e.callId || b.active[k].streamId == e.streamId)
  }

  predicate FormatMatches(s: Stream, e: Event) {
    && s.callId == e.callId && s.streamId == e.streamId
    && s.codecName == e.codecName && s.sampleRate == e.sampleRate && s.channels == e.channels
  }

  function NewStream(e: Event): Stream {
    Stream(e.callId, e.streamId, e.codecName, e.sampleRate, e.channels, e.sequence + 1, 0.0, 0, 0, 0, 0, [], [])
  }

  function StartStream(b: Boundary, e: Event): (Boundary, Answer) {
    if KeyOf(e) in b.active || KeyOf(e) in b.completed then (b, Refuse(DuplicateStart))
    else if ActiveElsewhere(b, e) then (b, Refuse(ScopeMismatch))
    else if |b.active| >= b.limits.maxActive then (b, Answer(OVERLOADED, ActiveStreamLimit, None, None))
    else (b.(active := b.active[KeyOf(e) := NewStream(e)]), Answer(ACCEPTED, Started, None, None))
  }

  function Refused(s: Stream, reason: Reason): (Stream, Answer) {
    (s.(rejectedFrames := s.rejectedFrames + 1,
        gapCount := if reason == SequenceGap then s.gapCount + 1 else s.gapCount),
     Refuse(reason))
  }

  function TakeChunk(limits: Limits, s: Stream, e: Event): (Stream, Answer) {
    var chunk := Chunk(e, s.nextStart);
    (s.(queue := s.queue + [chunk],
        fingerprints := Trimmed(s.fingerprints + [(e.sequence, FingerprintOf(e))], limits.historyLimit),
        acceptedFrames := s.acceptedFrames + 1,
        next := s.next + 1,
        nextStart := s.nextStart + e.duration),
     Answer(ACCEPTED, FrameAccepted, Some(chunk), None))
  }

  function Audio(limits: Limits, s: Stream, e: Event): (Stream, Answer) {
    if e.sequence < s.next then
      var previous := Remembered(s.fingerprints, e.sequence);
      if previous.None? then Refused(s, StaleSequence)
      else if previous.value == FingerprintOf(e) then
        (s.(duplicateCount := s.duplicateCount + 1), Answer(DUPLICATE, ExactDuplicate, None, None))
      else Refused(s, ConflictingDuplicate)
    else if e.sequence > s.next then Refused(s, SequenceGap)
    else if |s.queue| >= limits.maxQueue then
      (s.(rejectedFrames := s.rejectedFrames + 1), Answer(OVERLOADED, QueueFull, None, None))
    else TakeChunk(limits, s, e)
  }

  function EndStream(b: Boundary, s: Stream, e: Event): (Boundary, Answer)
    requires KeyOf(e) in b.active
  {
    var key := KeyOf(e);
    if e.sequence < s.next then (b, Refuse(StaleSequence))
    else if e.sequence > s.next then
      (b.(active := b.active[key := s.(gapCount := s.gapCount + 1)]), Refuse(SequenceGap))
    else
      (b.(active := b.active - {key}, completed := Trimmed(b.completed + [key], b.limits.completedLimit)),
       Answer(FINISHED, if e.endReason == Some(CANCELLED) then Cancelled else Ended, None, e.endReason))
  }

  function WithStream(b: Boundary, key: Key, result: (Stream, Answer)): (Boundary, Answer) {
    (b.(active := b.active[key := result.0]), result.1)
  }

  function MissingStream(b: Boundary, e: Event): Answer {
    if KeyOf(e) in b.completed then Refuse(if e.eventType == END then DuplicateEnd else StartRequired)
    else Refuse(if ActiveElsewhere(b, e) then ScopeMismatch else StartRequired)
  }

  function Accept(b: Boundary, e: Event): (Boundary, Answer) {
    var key := KeyOf(e);
    if e.tenantId != b.limits.tenantId || e.providerName != b.limits.providerName then (b, Refuse(ScopeMismatch))
    else if e.eventType == START then StartStream(b, e)
    else if key in b.completed || key !in b.active then (b, MissingStream(b, e))
    else
      var s := b.active[key];
      if !FormatMatches(s, e) then
        WithStream(b, key, (if e.eventType == AUDIO_CHUNK then s.(rejectedFrames := s.rejectedFrames + 1) else s,
                            Refuse(FormatMismatch)))
      else if e.eventType == AUDIO_CHUNK then WithStream(b, key, Audio(b.limits, s, e))
      else EndStream(b, s, e)
  }

  /** A non-positive limit is an error; an unknown or foreign stream gives nothing. */
  function Drain(b: Boundary, tenantId: string, providerName: string, key: Key, limit: int)
    : (Boundary, Result<seq<Chunk>, string>)
  {
    if limit <= 0 then (b, Err("invalid_drain_limit"))
    else if tenantId != b.limits.tenantId || providerName != b.limits.providerName || key !in b.active then (b, Ok([]))
    else
      var s := b.active[key];
      var n := Min(limit, |s.queue|);
      (b.(active := b.active[key := s.(queue := s.queue[n..])]), Ok(s.queue[..n]))
  }

  // ----- Runs -----

  datatype Op =
    | OpAccept(event: Event)
    | OpDrain(tenantId: string, providerName: string, key: Key, limit: int)

  /** What was accepted and what was handed out on each active stream since it started. */
  datatype World = World(b: Boundary, accepted: map<Key, seq<Chunk>>, drained: map<Key, seq<Chunk>>)

  function Initial(limits: Limits): World {
    World(Fresh(limits), map[], map[])
  }

  function AfterAccept(w: World, e: Event): World {
    var (b, a) := Accept(w.b, e);
    var key := KeyOf(e);
    if a.status == ACCEPTED && a.reason == Started then
      World(b, w.accepted[key := []], w.drained[key := []])
    else if a.chunk.Some? && key in w.accepted then
      World(b, w.accepted[key := w.accepted[key] + [a.chunk.value]], w.drained)
    else World(b, w.accepted, w.drained)
  }

  function AfterDrain(w: World, op: Op): World
    requires op.OpDrain?
  {
    var (b, r) := Drain(w.b, op.tenantId, op.providerName, op.key, op.limit);
    World(b, w.accepted,
          if r.Ok? && op.key in w.drained then w.drained[op.key := w.drained[op.key] + r.value] else w.drained)
  }

  function Step(w: World, op: Op): World {
    match op
    case OpAccept(e) => AfterAccept(w, e)
    case OpDrain(_, _, _, _) => AfterDrain(w, op)
  }

  function Run(w: World, ops: seq<Op>): World {
    if ops == [] then w else Step(Run(w, ops[..|ops| - 1]), ops[|ops| - 1])
  }

  /** The duration of the first `n` chunks. */
  function Duration(chunks: seq<Chunk>, n: nat): real
    requires n <= |chunks|
  {
    if n == 0 then 0.0 else Duration(chunks, n - 1) + chunks[n - 1].event.duration
  }

  lemma {:induction false} DurationPrefix(chunks: seq<Chunk>, c: Chunk, n: nat)
    requires n <= |chunks|
    ensures Duration(chunks + [c], n) == Duration(chunks, n)
  {
    if n > 0 {
      DurationPrefix(chunks, c, n - 1);
    }
  }

  /** Accepted chunks are numbered consecutively, on one scope and format, each starting where the last ended. */
  ghost predicate InOrder(s: Stream, chunks: seq<Chunk>) {
    && |chunks| <= s.next
    && s.nextStart == Duration(chunks, |chunks|)
    && forall i :: 0 <= i < |chunks| ==> ChunkAt(s, chunks, i)
  }

  ghost predicate ChunkAt(s: Stream, chunks: seq<Chunk>, i: nat)
    requires i < |chunks| <= s.next
  {
    && FormatMatches(s, chunks[i].event)
    && chunks[i].event.sequence == s.next - |chunks| + i
    && chunks[i].startSeconds == Duration(chunks, i)
  }

  ghost predicate StreamOk(w: World, key: Key)
    requires key in w.b.active
  {
    var s := w.b.active[key];
    && (s.callId, s.streamId) == key
    && |s.queue| <= w.b.limits.maxQueue
    && |s.fingerprints| <= w.b.limits.historyLimit
    && key in w.accepted && key in w.drained
    && w.drained[key] + s.queue == w.accepted[key]
    && InOrder(s, w.accepted[key])
  }

  ghost predicate Consistent(w: World) {
    && w.b.limits.Valid()
    && |w.b.active| <= w.b.limits.maxActive
    && |w.b.completed| <= w.b.limits.completedLimit
    && (forall k {:trigger Owned(w, k)} :: k in w.b.active ==> Owned(w, k))
    && (forall j, k {:trigger Apart(j, k)} :: j in w.b.active && k in w.b.active && j != k ==> Apart(j, k))
  }

  /** Two streams share neither call nor stream id. */
  ghost predicate Apart(j: Key, k: Key) {
    j.0 != k.0 && j.1 != k.1
  }

  ghost predicate Owned(w: World, key: Key)
    requires key in w.b.active
  {
    StreamOk(w, key) && key !in w.b.completed
  }

  lemma {:induction false} StartConsistent(w: World, e: Event)
    requires Consistent(w) && StartStream(w.b, e).1.status == ACCEPTED
    ensures Consistent(World(StartStream(w.b, e).0, w.accepted[KeyOf(e) := []], w.drained[KeyOf(e) := []]))
  {
    hide StreamOk;
    var key := KeyOf(e);
    var w' := World(StartStream(w.b, e).0, w.accepted[key := []], w.drained[key := []]);
    assert w'.b.active.Keys == w.b.active.Keys + {key};
    forall k | k in w'.b.active ensures Owned(w', k) {
      StartedOwned(w, e, k);
    }
    forall j, k | j in w'.b.active && k in w'.b.active && j != k ensures Apart(j, k) {
      StartedApart(w, e, j, k);
    }
  }

  lemma {:induction false} StartedOwned(w: World, e: Event, k: Key)
    requires Consistent(w) && StartStream(w.b, e).1.status == ACCEPTED && k in StartStream(w.b, e).0.active
    ensures Owned(World(StartStream(w.b, e).0, w.accepted[KeyOf(e) := []], w.drained[KeyOf(e) := []]), k)
  {
    if k != KeyOf(e) {
      assert Owned(w, k);
    }
  }

  lemma {:induction false} StartedApart(w: World, e: Event, j: Key, k: Key)
    requires Consistent(w) && !ActiveElsewhere(w.b, e)
    requires j in w.b.active || j == KeyOf(e)
    requires k in w.b.active || k == KeyOf(e)
    requires j != k
    ensures Apart(j, k)
  {
    if j in w.b.active {
      assert Owned(w, j);
      if k in w.b.active {
        assert Apart(j, k);
      }
    } else {
      assert Owned(w, k);
    }
  }

  lemma {:induction false} TakenInOrder(s: Stream, chunks: seq<Chunk>, limits: Limits, e: Event)
    requires InOrder(s, chunks) && FormatMatches(s, e) && e.sequence == s.next
    ensures InOrder(TakeChunk(limits, s, e).0, chunks + [Chunk(e, s.nextStart)])
  {
    var c := Chunk(e, s.nextStart);
    var t, longer := TakeChunk(limits, s, e).0, chunks + [c];
    DurationPrefix(chunks, c, |chunks|);
    forall i | 0 <= i < |longer| ensures ChunkAt(t, longer, i) {
      if i < |chunks| {
        assert ChunkAt(s, chunks, i);
        DurationPrefix(chunks, c, i);
      }
    }
  }

  /** Replacing one stream keeps every other stream and the key structure. */
  lemma {:induction false} StreamReplaced(w: World, w': World, key: Key)
    requires Consistent(w) && key in w.b.active && key in w'.b.active
    requires w'.b == w.b.(active := w.b.active[key := w'.b.active[key]])
    requires forall k :: k != key && k in w.accepted ==> k in w'.accepted && w'.accepted[k] == w.accepted[k]
    requires forall k :: k != key && k in w.drained ==> k in w'.drained && w'.drained[k] == w.drained[k]
    requires StreamOk(w', key)
    ensures Consistent(w')
  {
    assert w'.b.active.Keys == w.b.active.Keys;
    assert Owned(w, key);
    forall k | k in w'.b.active ensures Owned(w', k) {
      if k != key {
        assert Owned(w, k);
      }
    }
  }

  lemma {:induction false} AudioConsistent(w: World, e: Event)
    requires Consistent(w) && KeyOf(e) in w.b.active && FormatMatches(w.b.active[KeyOf(e)], e)
    requires e.eventType == AUDIO_CHUNK
    requires Accept(w.b, e) == WithStream(w.b, KeyOf(e), Audio(w.b.limits, w.b.active[KeyOf(e)], e))
    ensures Consistent(AfterAccept(w, e))
  {
    var key, s := KeyOf(e), w.b.active[KeyOf(e)];
    assert Owned(w, key);
    AudioStream(w.b.limits, s, e, w.drained[key], w.accepted[key]);
    StreamReplaced(w, AfterAccept(w, e), key);
  }

  /** One audio event on one stream keeps its queue accounting and its order. */
  lemma {:induction false} AudioStream(limits: Limits, s: Stream, e: Event, drained: seq<Chunk>, accepted: seq<Chunk>)
    requires limits.Valid() && FormatMatches(s, e) && InOrder(s, accepted)
    requires |s.queue| <= limits.maxQueue && |s.fingerprints| <= limits.historyLimit
    requires drained + s.queue == accepted
    ensures var (t, a) := Audio(limits, s, e);
      var now := if a.chunk.Some? then accepted + [a.chunk.value] else accepted;
      && InOrder(t, now) && drained + t.queue == now
      && |t.queue| <= limits.maxQueue && |t.fingerprints| <= limits.historyLimit
      && t.callId == s.callId && t.streamId == s.streamId
  {
    var (t, a) := Audio(limits, s, e);
    if a.chunk.Some? {
      TakenInOrder(s, accepted, limits, e);
      assert drained + (s.queue + [a.chunk.value]) == accepted + [a.chunk.value];
    } else {
      SameOrder(s, t, accepted);
    }
  }

  lemma {:induction false} SameOrder(s: Stream, t: Stream, chunks: seq<Chunk>)
    requires InOrder(s, chunks)
    requires t == s.(rejectedFrames := t.rejectedFrames, gapCount := t.gapCount, duplicateCount := t.duplicateCount,
                     queue := t.queue)
    ensures InOrder(t, chunks)
  {
    forall i | 0 <= i < |chunks| ensures ChunkAt(t, chunks, i) {
      assert ChunkAt(s, chunks, i);
    }
  }

  lemma {:induction false} RefusedConsistent(w: World, key: Key, t: Stream)
    requires Consistent(w) && key in w.b.active
    requires var s := w.b.active[key]; t == s.(rejectedFrames := t.rejectedFrames, gapCount := t.gapCount)
    ensures Consistent(World(w.b.(active := w.b.active[key := t]), w.accepted, w.drained))
  {
    assert Owned(w, key);
    SameOrder(w.b.active[key], t, w.accepted[key]);
    StreamReplaced(w, World(w.b.(active := w.b.active[key := t]), w.accepted, w.drained), key);
  }

  lemma {:induction false} RemovedConsistent(w: World, key: Key)
    requires Consistent(w) && key in w.b.active
    ensures Consistent(World(w.b.(active := w.b.active - {key},
                                  completed := Trimmed(w.b.completed + [key], w.b.limits.completedLimit)),
                             w.accepted, w.drained))
  {
    var completed := Trimmed(w.b.completed + [key], w.b.limits.completedLimit);
    var w' := World(w.b.(active := w.b.active - {key}, completed := completed), w.accepted, w.drained);
    assert w'.b.active.Keys == w.b.active.Keys - {key};
    forall k | k in w'.b.active ensures Owned(w', k) {
      assert Owned(w, k);
    }
  }

  lemma {:induction false} EndConsistent(w: World, e: Event)
    requires Consistent(w) && KeyOf(e) in w.b.active
    ensures Consistent(World(EndStream(w.b, w.b.active[KeyOf(e)], e).0, w.accepted, w.drained))
  {
    var key, s := KeyOf(e), w.b.active[KeyOf(e)];
    RefusedConsistent(w, key, s.(gapCount := s.gapCount + 1));
    RemovedConsistent(w, key);
  }

  lemma {:induction false} AcceptConsistent(w: World, e: Event)
    requires Consistent(w)
    ensures Consistent(AfterAccept(w, e))
  {
    var key := KeyOf(e);
    if e.tenantId == w.b.limits.tenantId && e.providerName == w.b.limits.providerName {
      if e.eventType == START {
        if StartStream(w.b, e).1.status == ACCEPTED {
          StartConsistent(w, e);
        }
      } else if key !in w.b.completed && key in w.b.active {
        OnStreamConsistent(w, e);
      }
    }
  }

  lemma {:induction false} OnStreamConsistent(w: World, e: Event)
    requires Consistent(w) && KeyOf(e) in w.b.active && KeyOf(e) !in w.b.completed && e.eventType != START
    requires e.tenantId == w.b.limits.tenantId && e.providerName == w.b.limits.providerName
    ensures Consistent(AfterAccept(w, e))
  {
    var key, s := KeyOf(e), w.b.active[KeyOf(e)];
    if !FormatMatches(s, e) {
      RefusedConsistent(w, key, s.(rejectedFrames := s.rejectedFrames + 1));
      RefusedConsistent(w, key, s);
    } else if e.eventType == AUDIO_CHUNK {
      AudioConsistent(w, e);
    } else {
      EndConsistent(w, e);
    }
  }

  lemma {:induction false} DrainConsistent(w: World, op: Op)
    requires Consistent(w) && op.OpDrain?
    ensures Consistent(AfterDrain(w, op))
  {
    var (b, r) := Drain(w.b, op.tenantId, op.providerName, op.key, op.limit);
    if b != w.b {
      var s := w.b.active[op.key];
      var n := Min(op.limit, |s.queue|);
      assert Owned(w, op.key);
      assert s.queue == s.queue[..n] + s.queue[n..];
      SameOrder(s, b.active[op.key], w.accepted[op.key]);
      StreamReplaced(w, AfterDrain(w, op), op.key);
    } else {
      DrainedNothing(w, op);
    }
  }

  lemma {:induction false} DrainedNothing(w: World, op: Op)
    requires Consistent(w) && op.OpDrain? && AfterDrain(w, op).b == w.b
    ensures Consistent(AfterDrain(w, op))
  {
    var w' := AfterDrain(w, op);
    var (b, r) := Drain(w.b, op.tenantId, op.providerName, op.key, op.limit);
    assert r.Ok? ==> r.value == [] by {
      if r.Ok? && op.key in w.b.active {
        assert b.active[op.key] == w.b.active[op.key];
      }
    }
    forall k | k in w'.b.active ensures Owned(w', k) {
      assert Owned(w, k);
      assert w.drained[k] + [] == w.drained[k];
    }
  }

  /**
    Over every run: active streams differ in both call and stream id, active and completed keys
    are disjoint and bounded, and on each active stream the chunks handed out followed by the
    queue are the chunks accepted, consecutively numbered, each starting at the sum of the
    earlier durations.
   */
  lemma {:induction false} RunConsistent(limits: Limits, ops: seq<Op>)
    requires limits.Valid()
    ensures Consistent(Run(Initial(limits), ops))
  {
    if ops != [] {
      var before, op := Run(Initial(limits), ops[..|ops| - 1]), ops[|ops| - 1];
      RunConsistent(limits, ops[..|ops| - 1]);
      match op
      case OpAccept(e) => AcceptConsistent(before, e);
      case OpDrain(_, _, _, _) => DrainConsistent(before, op);
    }
  }

  // ----- The boundary object -----

  class LiveAudioIngressBoundary {
    const limits: Limits
    var active: map<Key, Stream>
    var completed: seq<Key>

    constructor (limits: Limits)
      requires limits.Valid()
      ensures Model() == Fresh(limits)
    {
      this.limits := limits;
      active, completed := map[], [];
    }

    ghost function Model(): Boundary
      reads this
    {
      Boundary(limits, active, completed)
    }

    method ScopeIsActiveElsewhere(e: Event) returns (found: bool)
      ensures found == ActiveElsewhere(Model(), e)
    {
      var rest := active.Keys;
      while rest != {}
        invariant rest <= active.Keys
        invariant forall k :: k in active.Keys - rest ==>
          active[k].callId != e.callId && active[k].streamId != e.streamId
        decreases |rest|
      {
        var k: Key :| k in rest;
        if active[k].callId == e.callId || active[k].streamId == e.streamId {
          return true;
        }
        rest := rest - {k};
      }
      return false;
    }

    method AcceptEvent(e: Event) returns (a: Answer)
      requires e.Valid()
      modifies this
      ensures (Model(), a) == Accept(old(Model()), e)
    {
      if e.tenantId != limits.tenantId || e.providerName != limits.providerName {
        return Refuse(ScopeMismatch);
      }
      var key := KeyOf(e);
      if e.eventType == START {
        a := OpenStream(e);
        return;
      }
      if key in completed {
        return Refuse(if e.eventType == END then DuplicateEnd else StartRequired);
      }
      if key !in active {
        var elsewhere := ScopeIsActiveElsewhere(e);
        return Refuse(if elsewhere then ScopeMismatch else StartRequired);
      }
      var s := active[key];
      if !FormatMatches(s, e) {
        active := active[key := if e.eventType == AUDIO_CHUNK then s.(rejectedFrames := s.rejectedFrames + 1) else s];
        return Refuse(FormatMismatch);
      }
      if e.eventType == AUDIO_CHUNK {
        a := AcceptAudio(key, e);
      } else {
        a := CloseStream(key, e);
      }
    }

    method OpenStream(e: Event) returns (a: Answer)
      modifies `active
      ensures (Model(), a) == StartStream(old(Model()), e)
    {
      var key := KeyOf(e);
      if key in active || key in completed {
        return Refuse(DuplicateStart);
      }
      var elsewhere := ScopeIsActiveElsewhere(e);
      if elsewhere {
        return Refuse(ScopeMismatch);
      }
      if |active| >= limits.maxActive {
        return Answer(OVERLOADED, ActiveStreamLimit, None, None);
      }
      active := active[key := NewStream(e)];
      return Answer(ACCEPTED, Started, None, None);
    }

    method AcceptAudio(key: Key, e: Event) returns (a: Answer)
      requires key in active
      modifies `active
      ensures (Model(), a) == WithStream(old(Model()), key, Audio(limits, old(active[key]), e))
    {
      var s := active[key];
      if e.sequence < s.next {
        var previous := Remembered(s.fingerprints, e.sequence);
        if previous.Some? && previous.value == FingerprintOf(e) {
          active := active[key := s.(duplicateCount := s.duplicateCount + 1)];
          return Answer(DUPLICATE, ExactDuplicate, None, None);
        }
        active := active[key := s.(rejectedFrames := s.rejectedFrames + 1)];
        return Refuse(if previous.None? then StaleSequence else ConflictingDuplicate);
      }
      if e.sequence > s.next {
        active := active[key := s.(rejectedFrames := s.rejectedFrames + 1, gapCount := s.gapCount + 1)];
        return Refuse(SequenceGap);
      }
      if |s.queue| >= limits.maxQueue {
        active := active[key := s.(rejectedFrames := s.rejectedFrames + 1)];
        return Answer(OVERLOADED, QueueFull, None, None);
      }
      var chunk := Chunk(e, s.nextStart);
      var fingerprints := s.fingerprints + [(e.sequence, FingerprintOf(e))];
      while |fingerprints| > limits.historyLimit
        invariant Trimmed(fingerprints, limits.historyLimit)
               == Trimmed(s.fingerprints + [(e.sequence, FingerprintOf(e))], limits.historyLimit)
        decreases |fingerprints|
      {
        fingerprints := fingerprints[1..];
      }
      active := active[key := s.(queue := s.queue + [chunk], fingerprints := fingerprints,
                                 acceptedFrames := s.acceptedFrames + 1, next := s.next + 1,
                                 nextStart := s.nextStart + e.duration)];
      return Answer(ACCEPTED, FrameAccepted, Some(chunk), None);
    }

    method CloseStream(key: Key, e: Event) returns (a: Answer)
      requires key in active && key == KeyOf(e)
      modifies this
      ensures (Model(), a) == EndStream(old(Model()), old(active[key]), e)
    {
      var s := active[key];
      if e.sequence < s.next {
        return Refuse(StaleSequence);
      }
      if e.sequence > s.next {
        active := active[key := s.(gapCount := s.gapCount + 1)];
        return Refuse(SequenceGap);
      }
      active := active - {key};
      completed := completed + [key];
      while |completed| > limits.completedLimit
        invariant active == old(active) - {key}
        invariant Trimmed(completed, limits.completedLimit) == Trimmed(old(completed) + [key], limits.completedLimit)
        decreases |completed|
      {
        completed := completed[1..];
      }
      return Answer(FINISHED, if e.endReason == Some(CANCELLED) then Cancelled else Ended, None, e.endReason);
    }

    method DrainStream(tenantId: string, providerName: string, key: Key, limit: int)
      returns (r: Result<seq<Chunk>, string>)
      modifies `active
      ensures (Model(), r) == Drain(old(Model()), tenantId, providerName, key, limit)
    {
      if limit <= 0 {
        return Err("invalid_drain_limit");
      }
      if tenantId != limits.tenantId || providerName != limits.providerName || key !in active {
        return Ok([]);
      }
      var queue, drained := active[key].queue, [];
      ghost var all := queue;
      while queue != [] && |drained| < limit
        invariant drained + queue == all && |drained| <= limit
        decreases |queue|
      {
        drained := drained + [queue[0]];
        queue := queue[1..];
      }
      assert |drained| == Min(limit, |all|) && drained == all[..|drained|] && queue == all[|drained|..];
      active := active[key := active[key].(queue := queue)];
      return Ok(drained);
    }
  }
}
