/**
  Client and receiver composed: what the native capture picked up is what the session's
  consumer received, when the receiver read the bytes the client sent.
 */
module RelayEndToEnd {
  import opened Common
  import F = RelayFraming
  import P = RelayParser
  import M = RelayMachine
  import C = RelayClient
  import V = RelayReceiver
  import I = SessionInvariant

  /** The same records, whatever their digests. */
  ghost predicate SameRecords(a: seq<F.Record>, b: seq<F.Record>) {
    |a| == |b| && forall i :: 0 <= i < |a| ==> P.SpokenBy(a[i]) == P.SpokenBy(b[i])
  }

  lemma {:induction false} SameAudio(a: seq<F.Record>, b: seq<F.Record>)
    requires SameRecords(a, b)
    ensures M.AudioOf(a) == M.AudioOf(b) && M.Resumes(a) == M.Resumes(b)
  {
    if a != [] {
      assert P.SpokenBy(a[|a| - 1]) == P.SpokenBy(b[|b| - 1]);
      SameAudio(a[..|a| - 1], b[..|b| - 1]);
    }
  }

  /** The records as they were handed to the encoder. */
  function Spoken(sent: seq<F.Record>): (spoken: seq<P.Spoken>)
    ensures |spoken| == |sent| && forall i :: 0 <= i < |sent| ==> spoken[i] == P.SpokenBy(sent[i])
  {
    seq(|sent|, i requires 0 <= i < |sent| => P.SpokenBy(sent[i]))
  }

  /** Legality does not look at digests. */
  lemma {:induction false} LegalWithoutDigests(scope: M.Scope, a: seq<F.Record>, b: seq<F.Record>)
    requires SameRecords(a, b) && M.LegalTrace(scope, a)
    ensures M.LegalTrace(scope, b)
  {
    forall i | 0 <= i < |a| ensures b[i].meta.sequence == i {
      assert P.SpokenBy(a[i]) == P.SpokenBy(b[i]) && a[i].meta.sequence == i;
    }
    forall i | 0 < i < |b| ensures M.LegalSuccessor(b, i) {
      assert M.LegalSuccessor(a, i);
      assert P.SpokenBy(a[0]) == P.SpokenBy(b[0]) && P.SpokenBy(a[i - 1]) == P.SpokenBy(b[i - 1]);
      assert P.SpokenBy(a[i]) == P.SpokenBy(b[i]);
      SameAudio(a[..i + 1], b[..i + 1]);
    }
  }

  /** What could be encoded has the shape of its type. */
  lemma {:induction false} EncodedIsShaped(text: F.TextLayer, r: P.Spoken)
    requires F.Lawful(text) && P.EncodingOf(text, r).Ok?
    ensures F.Shaped(r.kind, r.meta, r.payload)
  {
    hide F.Lawful;
    hide F.EncodeRecord;
    F.EncodesExactlyValid(text, r.kind, r.meta, r.payload);
  }

  lemma {:induction false} OneFragment(text: F.TextLayer, p: P.Parser, data: Bytes)
    ensures P.FeedAll(text, p, [data]) == P.FeedBytes(text, p, data)
  {
    hide P.FeedBytes;
    var fed := P.FeedBytes(text, p, data);
    assert P.FeedAll(text, fed.p, []) == P.Fed(fed.p, Ok([]));
    assert [data][1..] == [];
    assert fed.outcome.Ok? ==> fed.outcome.value + [] == fed.outcome.value;
  }

  /**
    A receiver that answered only ACKs, and read a legal conversation's encodings, accepted exactly that
    conversation.
   */
  lemma {:induction false} ConversationIsAccepted(text: F.TextLayer, scope: M.Scope, sys: V.System, sent: seq<F.Record>,
                                                  encoded: seq<Bytes>)
    requires F.Lawful(text) && scope.Valid() && V.Transcribed(text, scope, sys)
    requires M.LegalTrace(scope, sent)
    requires P.EncodedAs(text, Spoken(sent), encoded) && sys.taken == Flatten(encoded)
    ensures SameRecords(sys.trace, sent)
  {
    hide F.Lawful;
    hide F.DecodeRecord;
    hide F.EncodeRecord;
    hide P.FeedBytes;
    hide M.AcceptAll;
    hide M.Trace;
    hide M.LegalTrace;
    hide F.Shaped;
    assert Flatten([sys.taken]) == sys.taken by {
      assert [sys.taken][1..] == [] && sys.taken + [] == sys.taken;
    }
    var records := P.RoundTrip(text, Spoken(sent), encoded, [sys.taken]);
    OneFragment(text, P.FRESH, sys.taken);
    assert sys.parsed == records;
    LegalWithoutDigests(scope, sent, records);
    forall i | 0 <= i < |records| ensures M.WellShaped(records[i]) {
      assert P.EncodingOf(text, Spoken(sent)[i]) == Ok(encoded[i]);
      EncodedIsShaped(text, Spoken(sent)[i]);
    }
    M.AcceptedInFullIffLegal(scope, records);
  }

  lemma {:induction false} EndedByEnd(m: M.Machine, trace: seq<F.Record>)
    requires M.Follows(m, trace) && m.state == M.ENDED
    ensures |trace| > 0 && trace[|trace| - 1].kind == F.END
  {
  }

  lemma {:induction false} EndsWithEnd(sys: V.System)
    requires V.Consistent(sys) && V.AllAcks(sys.responses) && sys.pending == []
    requires |sys.trace| > 0 && sys.trace[|sys.trace| - 1].kind == F.END
    ensures sys.machine.state == M.ENDED
  {
  }

  /**
    A disciplined client that opened its capture in time and whose END was acknowledged without a failure;
    a receiver that read the concatenated encodings of what that client sent, in any fragmentation, answered
    only with ACKs and whose consumer ran to the end: every captured byte was delivered, once, in order.
   */
  lemma {:induction false} CapturedAudioIsDelivered(text: F.TextLayer, scope: M.Scope, maxQueue: nat,
                                                    events: seq<V.Event>, c: C.Client, encoded: seq<Bytes>)
    requires F.Lawful(text) && scope.Valid() && maxQueue > 0
    requires C.Reachable(scope, c) && !c.late && !c.sender.closed && c.sender.status == C.ENDED
    requires P.EncodedAs(text, Spoken(c.sent), encoded)
    requires var sys := V.RunFrom(text, scope, maxQueue, events);
      && sys.taken == Flatten(encoded)
      && V.AllAcks(sys.responses) && sys.pending == [] && !sys.world.s.closed && sys.world.s.endEmitted
    ensures SameRecords(V.RunFrom(text, scope, maxQueue, events).trace, c.sent)
    ensures I.Audio(V.RunFrom(text, scope, maxQueue, events).world.yielded) == c.captured
  {
    hide F.Lawful;
    hide P.EncodedAs;
    hide V.Consistent;
    hide V.Transcribed;
    hide C.Reachable;
    hide M.LegalTrace;
    var sys := V.RunFrom(text, scope, maxQueue, events);
    V.TraceIsOfTheBytes(text, scope, maxQueue, events);
    C.EverySentRecordIsAccepted(scope, c);
    ConversationIsAccepted(text, scope, sys, c.sent, encoded);
    C.EndedClientEndedServer(scope, c);
    EndedByEnd(c.machine, c.sent);
    assert P.SpokenBy(sys.trace[|sys.trace| - 1]) == P.SpokenBy(c.sent[|c.sent| - 1]);
    EndsWithEnd(sys);
    V.EveryAudioRecordExactlyOnce(text, scope, maxQueue, events);
    C.AudioReachesTheServerInOrder(scope, c);
    SameAudio(sys.trace, c.sent);
  }
}
