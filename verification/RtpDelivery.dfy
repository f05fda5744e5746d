/**
  Order independence, stated from the sender's side: a sender numbers its packets
  0, 1, 2, ... and the network hands them over in any order, some of them late, twice or
  not at all, interleaved with clock ticks and reads. Sequence numbers and timestamps may
  wrap any number of times.
 */
module RtpDelivery {
  import opened Common
  import opened G711
  import opened RtpModel
  import opened RtpTimeline
  import opened RtpInvariant
  import opened RtpRuns
  import opened RtpTheorems

  datatype Event = Deliver(k: nat, arrival: real, stamp: int) | Tick(now: real) | Read(limit: nat)

  /** The sender's packet number `k`, as it arrives. */
  function Sent(start: Start, payloads: seq<Bytes>, k: nat, arrival: real, stamp: int): Packet
    requires k < |payloads|
  {
    Packet(start.scope, start.generation, arrival, stamp, SeqAt(start, k), TsAt(start, k),
           start.format.payloadType, start.format.codec, payloads[k], start.ssrc)
  }

  function OpOf(start: Start, payloads: seq<Bytes>, e: Event): Op {
    match e
    case Deliver(k, arrival, stamp) =>
      OpPacket(if k < |payloads| then Some(Sent(start, payloads, k, arrival, stamp)) else None)
    case Tick(now) => OpAdvance(Some(now))
    case Read(limit) => OpDrain(start.scope, start.generation, limit)
  }

  function After(cfg: Config, start: Start, payloads: seq<Bytes>, events: seq<Event>): World {
    if events == [] then Step(Initial(cfg), OpStart(start))
    else Step(After(cfg, start, payloads, events[..|events| - 1]), OpOf(start, payloads, events[|events| - 1]))
  }

  /** A delivery comes less than half the number space away from the position the receiver has reached. */
  ghost predicate Timely(w: World, start: Start, payloads: seq<Bytes>, e: Event) {
    e.Deliver? && e.k < |payloads| && w.adapter.active.Some? ==>
      Position(w.adapter.active.value) - SEQUENCE_MODULUS / 2 <= e.k
      < Position(w.adapter.active.value) + SEQUENCE_MODULUS / 2
  }

  ghost predicate AllTimely(cfg: Config, start: Start, payloads: seq<Bytes>, events: seq<Event>) {
    events == [] ||
    (AllTimely(cfg, start, payloads, events[..|events| - 1])
     && Timely(After(cfg, start, payloads, events[..|events| - 1]), start, payloads, events[|events| - 1]))
  }

  /** The delivery is taken in rather than refused. */
  predicate Takes(w: World, start: Start, payloads: seq<Bytes>, e: Event) {
    && e.Deliver? && e.k < |payloads|
    && WasAdmitted(AcceptPacket(w.adapter, Some(Sent(start, payloads, e.k, e.arrival, e.stamp))).1)
  }

  /** The sender's numbers that were taken in along the run. */
  function Taken(cfg: Config, start: Start, payloads: seq<Bytes>, events: seq<Event>): set<nat> {
    if events == [] then {}
    else
      var before, e := events[..|events| - 1], events[|events| - 1];
      Taken(cfg, start, payloads, before)
      + (if Takes(After(cfg, start, payloads, before), start, payloads, e) then {e.k} else {})
  }

  /** The ledger holds exactly the sender's packets with these numbers, each at its own number. */
  ghost predicate Holds(w: World, start: Start, payloads: seq<Bytes>, delivered: set<nat>) {
    && w.ledger.accepted.Keys == delivered
    && (forall a :: a in w.ledger.accepted ==>
         a < |payloads| && w.ledger.accepted[a].codec == start.format.codec
           && w.ledger.accepted[a].payload == payloads[a])
    && (w.adapter.active.Some? ==> w.adapter.active.value.start == start)
  }

  /**
    From within half the number space the receiver's absolute position is the sender's number, for a
    packet that is not behind; one that is behind looks at least half the space ahead, and so is stale.
   */
  lemma {:induction false} SenderNumberIsRecovered(s: Source, g: Ledger, payloads: seq<Bytes>, k: nat,
                                                   arrival: real, stamp: int)
    requires ClockOk(s, g) && k < |payloads|
    requires Position(s) - SEQUENCE_MODULUS / 2 <= k < Position(s) + SEQUENCE_MODULUS / 2
    ensures var p := Sent(s.start, payloads, k, arrival, stamp);
      if k < Position(s) then Distance(p.seq16, s.expectedSeq) >= SEQUENCE_MODULUS / 2 else Landing(s, p) == k
  {
    if k < Position(s) {
      SeqAtAhead(s.start, k, Position(s) - k);
      DistanceBack(SeqAt(s.start, k), s.expectedSeq);
    } else {
      SeqAtAhead(s.start, Position(s), k - Position(s));
    }
  }

  lemma {:induction false} DistanceBack(a: Seq16, b: Seq16)
    requires Distance(b, a) != 0
    ensures Distance(a, b) == SEQUENCE_MODULUS - Distance(b, a)
  {
  }

  lemma {:induction false} StepKeepsStart(w: World, start: Start, op: Op)
    requires op.OpPacket? || op.OpAdvance? || op.OpDrain?
    requires w.adapter.active.Some? ==> w.adapter.active.value.start == start
    ensures Step(w, op).adapter.active.Some? ==> Step(w, op).adapter.active.value.start == start
  {
  }

  /** A timely delivery that is taken in is recorded at the sender's own number; a refused one is not recorded. */
  lemma {:induction false} DeliveryIsRecorded(w: World, start: Start, payloads: seq<Bytes>, e: Event)
    requires e.Deliver? && e.k < |payloads| && Timely(w, start, payloads, e)
    requires w.adapter.active.Some? ==>
      w.adapter.cfg.Valid() && ClockOk(w.adapter.active.value, w.ledger) && w.adapter.active.value.start == start
    ensures Step(w, OpOf(start, payloads, e)).ledger
         == if Takes(w, start, payloads, e) then Recorded(w.ledger, e.k, Sent(start, payloads, e.k, e.arrival, e.stamp))
            else w.ledger
  {
    hide AcceptPacket;
    hide ClockOk;
    hide Position;
    hide Distance;
    var p := Sent(start, payloads, e.k, e.arrival, e.stamp);
    if Takes(w, start, payloads, e) {
      AdmittedIsAhead(w.adapter, p);
      SenderNumberIsRecovered(w.adapter.active.value, w.ledger, payloads, e.k, e.arrival, e.stamp);
    }
  }

  lemma {:induction false} AdmittedIsAhead(a: Adapter, p: Packet)
    requires WasAdmitted(AcceptPacket(a, Some(p)).1)
    ensures a.active.Some? && Distance(p.seq16, a.active.value.expectedSeq) < SEQUENCE_MODULUS / 2
  {
  }

  lemma {:induction false} RestingClock(w: World)
    requires Consistent(w) && w.adapter.active.Some?
    ensures w.adapter.cfg.Valid() && ClockOk(w.adapter.active.value, w.ledger)
  {
  }

  lemma {:induction false} EventIsHeld(w: World, start: Start, payloads: seq<Bytes>, e: Event, taken: set<nat>)
    requires Consistent(w) && Holds(w, start, payloads, taken) && Timely(w, start, payloads, e)
    ensures Holds(Step(w, OpOf(start, payloads, e)), start, payloads,
                  taken + (if Takes(w, start, payloads, e) then {e.k} else {}))
  {
    hide Step;
    hide Consistent;
    hide Position;
    hide AcceptPacket;
    hide Takes;
    StepKeepsStart(w, start, OpOf(start, payloads, e));
    TakesInRange(w, start, payloads, e);
    if e.Deliver? && e.k < |payloads| {
      if w.adapter.active.Some? {
        RestingClock(w);
      }
      DeliveryIsRecorded(w, start, payloads, e);
    } else {
      LedgerUntouched(w, OpOf(start, payloads, e));
    }
    assert taken + {} == taken;
  }

  lemma {:induction false} TakesInRange(w: World, start: Start, payloads: seq<Bytes>, e: Event)
    ensures Takes(w, start, payloads, e) ==> e.Deliver? && e.k < |payloads|
  {
  }

  lemma {:induction false} DeliveriesAreHeld(cfg: Config, start: Start, payloads: seq<Bytes>, events: seq<Event>)
    requires cfg.Valid() && start.scope == cfg.scope && AllTimely(cfg, start, payloads, events)
    ensures Reachable(cfg, After(cfg, start, payloads, events))
    ensures Holds(After(cfg, start, payloads, events), start, payloads, Taken(cfg, start, payloads, events))
  {
    if events == [] {
      assert Initial(cfg) == Run(Initial(cfg), []);
      StepIsReachable(cfg, Initial(cfg), OpStart(start));
    } else {
      hide Step;
      hide Consistent;
      hide Holds;
      hide Timely;
      hide Takes;
      var before, e := After(cfg, start, payloads, events[..|events| - 1]), events[|events| - 1];
      DeliveriesAreHeld(cfg, start, payloads, events[..|events| - 1]);
      StepIsReachable(cfg, before, OpOf(start, payloads, e));
      ReachableIsConsistent(cfg, before);
      EventIsHeld(before, start, payloads, e, Taken(cfg, start, payloads, events[..|events| - 1]));
    }
  }

  lemma {:induction false} LedgerUntouched(w: World, op: Op)
    requires op.OpAdvance? || op.OpDrain? || op == OpPacket(None)
    ensures Step(w, op).ledger.accepted == w.ledger.accepted
  {
  }

  /** A delivery run followed by an END that completes. */
  ghost predicate Completes(cfg: Config, start: Start, payloads: seq<Bytes>, events: seq<Event>, control: End) {
    && cfg.Valid() && start.scope == cfg.scope
    && AllTimely(cfg, start, payloads, events)
    && EndSource(After(cfg, start, payloads, events).adapter, control).1.status == COMPLETED
  }

  function Output(cfg: Config, start: Start, payloads: seq<Bytes>, events: seq<Event>, control: End): seq<Chunk> {
    var w := Step(After(cfg, start, payloads, events), OpEnd(control));
    w.ledger.drained + (if w.adapter.completed.Some? then w.adapter.completed.value.queue else [])
  }

  lemma {:induction false} CompletionFinishes(cfg: Config, start: Start, payloads: seq<Bytes>, events: seq<Event>,
                                              control: End)
    requires Completes(cfg, start, payloads, events, control)
    ensures var w := Step(After(cfg, start, payloads, events), OpEnd(control));
      && w.adapter.completed.Some? && w.adapter.completed.value.start == start
      && Finished(w.adapter.completed.value, w.ledger)
      && Holds(w, start, payloads, Taken(cfg, start, payloads, events))
      && Output(cfg, start, payloads, events, control) == Log(w.adapter.completed.value, w.ledger)
  {
    var before := After(cfg, start, payloads, events);
    DeliveriesAreHeld(cfg, start, payloads, events);
    StepIsReachable(cfg, before, OpEnd(control));
    ReachableIsConsistent(cfg, Step(before, OpEnd(control)));
    EndKeepsStart(before.adapter, control);
  }

  lemma {:induction false} EndKeepsStart(a: Adapter, control: End)
    requires EndSource(a, control).1.status == COMPLETED
    ensures var b := EndSource(a, control).0;
      && a.active.Some? && b.active.None? && b.completed.Some? && b.completedGeneration.Some?
      && b.completed.value.start == a.active.value.start
  {
  }

  /**
    Two runs that took in the same packets, in whatever order and at whatever times, and whatever else was
    delivered and refused, give the same chunks.
   */
  lemma {:induction false} DeliveryOrderDoesNotMatter(start: Start, payloads: seq<Bytes>,
                                   cfg: Config, events: seq<Event>, control: End,
                                   cfg': Config, events': seq<Event>, control': End)
    requires Completes(cfg, start, payloads, events, control)
    requires Completes(cfg', start, payloads, events', control')
    requires Taken(cfg, start, payloads, events) == Taken(cfg', start, payloads, events')
    ensures var x, y := Output(cfg, start, payloads, events, control), Output(cfg', start, payloads, events', control');
      |x| == |y| && forall i :: 0 <= i < |x| ==> SameAudio(x[i], y[i])
  {
    CompletionFinishes(cfg, start, payloads, events, control);
    CompletionFinishes(cfg', start, payloads, events', control');
    var w := Step(After(cfg, start, payloads, events), OpEnd(control));
    var v := Step(After(cfg', start, payloads, events'), OpEnd(control'));
    OutputDependsOnlyOnAccepted(w.adapter.completed.value, w.ledger, v.adapter.completed.value, v.ledger);
  }

  /** The plain decoder: every payload expanded, in the sender's order. */
  function PlainDecode(codec: Codec, payloads: seq<Bytes>): Bytes {
    if payloads == [] then []
    else PlainDecode(codec, payloads[..|payloads| - 1]) + AudioBytes(codec, payloads[|payloads| - 1])
  }

  lemma {:induction false} RenderIsPlainDecode(accepted: map<nat, Packet>, codec: Codec, payloads: seq<Bytes>, n: nat,
                                               spp: PacketSamples)
    requires n <= |payloads|
    requires forall a :: 0 <= a < n ==>
      a in accepted && accepted[a].codec == codec && accepted[a].payload == payloads[a]
    ensures Render(accepted, n, spp) == PlainDecode(codec, payloads[..n])
  {
    hide AudioBytes;
    if n > 0 {
      RenderIsPlainDecode(accepted, codec, payloads, n - 1, spp);
      assert payloads[..n][..n - 1] == payloads[..n - 1];
    }
  }

  /** When everything the sender sent was taken in, the output is the plain decoding of its payloads. */
  lemma {:induction false} FullDeliveryIsLossless(start: Start, payloads: seq<Bytes>, cfg: Config, events: seq<Event>,
                                                  control: End)
    requires Completes(cfg, start, payloads, events, control)
    requires forall k :: 0 <= k < |payloads| ==> k in Taken(cfg, start, payloads, events)
    ensures Stream(Output(cfg, start, payloads, events, control)) == PlainDecode(start.format.codec, payloads)
  {
    CompletionFinishes(cfg, start, payloads, events, control);
    var w := Step(After(cfg, start, payloads, events), OpEnd(control));
    var g := w.ledger;
    assert g.top == |payloads| by {
      if |payloads| > 0 {
        assert |payloads| - 1 in g.accepted;
      }
    }
    RenderIsPlainDecode(g.accepted, start.format.codec, payloads, g.top, start.format.samplesPerPacket);
    assert payloads[..|payloads|] == payloads;
  }
}
