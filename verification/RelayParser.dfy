/**
  The incremental record parser. Its meaning is given one byte at a time; the class
  takes whole slices, and is proved to compute the same thing for every slicing.
 */
module RelayParser {
  import opened Common
  import opened RelayFraming

  datatype Parser = Parser(buffer: Bytes, header: Option<Header>, failed: bool, parsedCount: nat)

  datatype Fed = Fed(p: Parser, outcome: Result<seq<Record>, Reason>)

  const FRESH := Parser([], None, false, 0)

  function Failed(p: Parser): Parser {
    Parser([], None, true, p.parsedCount)
  }

  /** Between bytes: either an incomplete header, or a complete one and an incomplete body. */
  ghost predicate Ready(p: Parser) {
    && !p.failed
    && (p.header.None? ==> |p.buffer| < HEADER_BYTES)
    && (p.header.Some? ==>
         && p.header.value.Valid()
         && HEADER_BYTES <= |p.buffer| < p.header.value.RecordBytes()
         && p.buffer[..HEADER_BYTES] == EncodeHeader(p.header.value))
  }

  /** Bytes still wanted before the parser has to act. */
  function Wanted(p: Parser): int {
    (if p.header.None? then HEADER_BYTES else p.header.value.RecordBytes()) - |p.buffer|
  }

  /** The frame a complete buffer holds. */
  function BufferedFrame(p: Parser): Frame
    requires p.header.Some? && |p.buffer| == p.header.value.RecordBytes()
  {
    var h := p.header.value;
    Frame(h.kind, p.buffer[HEADER_BYTES..HEADER_BYTES + h.metadataLength], p.buffer[HEADER_BYTES + h.metadataLength..])
  }

  function FinishOrWait(text: TextLayer, p: Parser): Fed
    requires p.header.Some?
  {
    if |p.buffer| != p.header.value.RecordBytes() then Fed(p, Ok([]))
    else
      var record := DecodeRecord(text, BufferedFrame(p));
      if record.Err? then Fed(Failed(p), Err(record.error))
      else Fed(Parser([], None, false, p.parsedCount + 1), Ok([record.value]))
  }

  /** What the parser does with a buffer that has just grown. */
  function Settle(text: TextLayer, p: Parser): Fed {
    if p.header.Some? then FinishOrWait(text, p)
    else if |p.buffer| != HEADER_BYTES then Fed(p, Ok([]))
    else
      var header := DecodeHeader(p.buffer);
      if header.Err? then Fed(Failed(p), Err(header.error))
      else FinishOrWait(text, p.(header := Some(header.value)))
  }

  function Grown(p: Parser, data: Bytes): Parser {
    p.(buffer := p.buffer + data)
  }

  /** Records found earlier in the same call are kept only if nothing later fails. */
  function Prepend(records: seq<Record>, fed: Fed): Fed {
    if fed.outcome.Err? then fed else Fed(fed.p, Ok(records + fed.outcome.value))
  }

  function Then(first: Fed, rest: Fed): Fed {
    if first.outcome.Err? then first else Prepend(first.outcome.value, rest)
  }

  function ParseBytes(text: TextLayer, p: Parser, data: Bytes): Fed
    decreases |data|
  {
    if data == [] then Fed(p, Ok([]))
    else
      var first := Settle(text, Grown(p, data[..1]));
      Then(first, ParseBytes(text, first.p, data[1..]))
  }

  function FeedBytes(text: TextLayer, p: Parser, data: Bytes): Fed {
    if p.failed then Fed(p, Err(TerminalState)) else ParseBytes(text, p, data)
  }

  lemma {:induction false} SettleIsReady(text: TextLayer, p: Parser, data: Bytes)
    requires Ready(p) && 0 < |data| <= Wanted(p)
    ensures var f := Settle(text, Grown(p, data)); f.outcome.Ok? ==> Ready(f.p)
    ensures var f := Settle(text, Grown(p, data)); f.outcome.Err? ==> f.p == Failed(p)
    ensures |data| < Wanted(p) ==>
      Settle(text, Grown(p, data)) == Fed(Grown(p, data), Ok([])) && Wanted(Grown(p, data)) == Wanted(p) - |data|
  {
    var q := Grown(p, data);
    if p.header.Some? {
      assert q.buffer[..HEADER_BYTES] == p.buffer[..HEADER_BYTES];
    } else if |q.buffer| == HEADER_BYTES && DecodeHeader(q.buffer).Ok? {
      HeaderRoundTrip(q.buffer, DecodeHeader(q.buffer).value);
      assert q.buffer[..HEADER_BYTES] == q.buffer;
    }
  }

  lemma {:induction false} ParseIsReady(text: TextLayer, p: Parser, data: Bytes)
    requires Ready(p)
    ensures var f := ParseBytes(text, p, data);
      if f.outcome.Ok? then Ready(f.p) && f.p.parsedCount == p.parsedCount + |f.outcome.value|
      else f.p == Failed(f.p)
    decreases |data|
  {
    if data != [] {
      SettleIsReady(text, p, data[..1]);
      var first := Settle(text, Grown(p, data[..1]));
      if first.outcome.Ok? {
        ParseIsReady(text, first.p, data[1..]);
      }
    }
  }

  // ----- Slices -----

  lemma {:induction false} ThenAssociates(a: Fed, b: Fed, c: Fed)
    ensures Then(a, Then(b, c)) == Then(Then(a, b), c)
  {
    if a.outcome.Ok? && b.outcome.Ok? && c.outcome.Ok? {
      assert a.outcome.value + (b.outcome.value + c.outcome.value)
        == a.outcome.value + b.outcome.value + c.outcome.value;
    }
  }

  lemma {:induction false} ParseSplits(text: TextLayer, p: Parser, a: Bytes, b: Bytes)
    ensures ParseBytes(text, p, a + b)
         == Then(ParseBytes(text, p, a), ParseBytes(text, ParseBytes(text, p, a).p, b))
    decreases |a|
  {
    if a == [] {
      assert a + b == b;
      var rest := ParseBytes(text, p, b);
      assert rest.outcome.Ok? ==> [] + rest.outcome.value == rest.outcome.value;
    } else {
      var first := Settle(text, Grown(p, a[..1]));
      assert (a + b)[..1] == a[..1] && (a + b)[1..] == a[1..] + b;
      ParseSplits(text, first.p, a[1..], b);
      ThenAssociates(first, ParseBytes(text, first.p, a[1..]),
                     ParseBytes(text, ParseBytes(text, first.p, a[1..]).p, b));
    }
  }

  /** A slice up to the next boundary acts like its bytes one by one. */
  lemma {:induction false} SliceIsBytes(text: TextLayer, p: Parser, data: Bytes)
    requires Ready(p) && 0 < |data| <= Wanted(p)
    ensures ParseBytes(text, p, data) == Settle(text, Grown(p, data))
    decreases |data|
  {
    if |data| == 1 {
      var first := Settle(text, Grown(p, data[..1]));
      assert data[..1] == data && ParseBytes(text, first.p, data[1..]) == Fed(first.p, Ok([]));
      assert first.outcome.Ok? ==> first.outcome.value + [] == first.outcome.value;
    } else {
      SettleIsReady(text, p, data[..1]);
      var q := Grown(p, data[..1]);
      SliceIsBytes(text, q, data[1..]);
      assert Grown(q, data[1..]).buffer == Grown(p, data).buffer by {
        assert data == data[..1] + data[1..];
      }
      var rest := Settle(text, Grown(p, data));
      assert rest.outcome.Ok? ==> [] + rest.outcome.value == rest.outcome.value;
    }
  }

  // ----- Fragmentation independence -----

  /** Feeding a list of fragments in turn, until one raises. */
  function FeedAll(text: TextLayer, p: Parser, fragments: seq<Bytes>): Fed
    decreases |fragments|
  {
    if fragments == [] then Fed(p, Ok([]))
    else
      var first := FeedBytes(text, p, fragments[0]);
      Then(first, FeedAll(text, first.p, fragments[1..]))
  }

  /** A raised parser stays as it is, so feeding on after an error changes nothing. */
  lemma {:induction false} TerminalStateIsAbsorbing(text: TextLayer, p: Parser, data: Bytes)
    requires p.failed
    ensures FeedBytes(text, p, data) == Fed(p, Err(TerminalState))
  {
  }

  /**
    Two feeds against one: the same records when neither raises, an error on one side exactly
    when on the other, and the same final state in every case.
   */
  lemma {:induction false} TwoFeedsAreOne(text: TextLayer, p: Parser, a: Bytes, b: Bytes)
    requires Ready(p)
    ensures var x := FeedBytes(text, p, a);
      var y := FeedBytes(text, x.p, b);
      var joint := FeedBytes(text, p, a + b);
      && (joint.outcome.Err? <==> x.outcome.Err? || y.outcome.Err?)
      && (joint.outcome.Ok? ==> joint.outcome.value == x.outcome.value + y.outcome.value)
      && joint.p == y.p
      && (joint.outcome.Err? ==> joint.p.failed && joint.p.buffer == [] && joint.p.header.None?)
  {
    ParseSplits(text, p, a, b);
    ParseIsReady(text, p, a);
    ParseIsReady(text, p, a + b);
    var x := FeedBytes(text, p, a);
    if x.outcome.Err? {
      TerminalStateIsAbsorbing(text, x.p, b);
    }
  }

  lemma {:induction false} FragmentationIsIrrelevant(text: TextLayer, p: Parser, fragments: seq<Bytes>)
    requires Ready(p)
    ensures FeedAll(text, p, fragments) == FeedBytes(text, p, Flatten(fragments))
    decreases |fragments|
  {
    if fragments != [] {
      var first := FeedBytes(text, p, fragments[0]);
      ParseSplits(text, p, fragments[0], Flatten(fragments[1..]));
      ParseIsReady(text, p, fragments[0]);
      if first.outcome.Ok? {
        FragmentationIsIrrelevant(text, first.p, fragments[1..]);
      }
    }
  }

  // ----- Round trip -----

  ghost predicate Decodable(text: TextLayer, frames: seq<Frame>, records: seq<Record>) {
    && |frames| == |records|
    && forall i :: 0 <= i < |frames| ==> FrameFits(frames[i]) && DecodeRecord(text, frames[i]) == Ok(records[i])
  }

  function EncodeAll(frames: seq<Frame>): Bytes
    requires forall f :: f in frames ==> FrameFits(f)
  {
    if frames == [] then [] else EncodeFrame(frames[0]) + EncodeAll(frames[1..])
  }

  /** A record before it is encoded: what its sender decides. */
  datatype Spoken = Spoken(kind: MessageType, meta: Metadata, payload: Bytes)

  function SpokenBy(r: Record): Spoken {
    Spoken(r.kind, r.meta, r.payload)
  }

  function EncodingOf(text: TextLayer, r: Spoken): Result<Bytes, Reason> {
    EncodeRecord(text, r.kind, FieldsOf(text, r.meta), r.payload)
  }

  /** What encoding each record gave. */
  ghost predicate EncodedAs(text: TextLayer, sent: seq<Spoken>, encoded: seq<Bytes>) {
    |sent| == |encoded| && forall i :: 0 <= i < |sent| ==> EncodingOf(text, sent[i]) == Ok(encoded[i])
  }

  function FramesOf(text: TextLayer, sent: seq<Spoken>): (frames: seq<Frame>)
    ensures |frames| == |sent|
  {
    seq(|sent|, i requires 0 <= i < |sent| => FrameOf(text, sent[i].kind, sent[i].meta, sent[i].payload))
  }

  function RecordsOf(text: TextLayer, sent: seq<Spoken>): (records: seq<Record>)
    ensures |records| == |sent|
    ensures forall i :: 0 <= i < |sent| ==> SpokenBy(records[i]) == sent[i]
  {
    seq(|sent|, i requires 0 <= i < |sent| =>
      Record(sent[i].kind, sent[i].meta, sent[i].payload,
             Digested(FrameOf(text, sent[i].kind, sent[i].meta, sent[i].payload))))
  }

  /** Records that could be encoded decode to themselves. */
  lemma {:induction false} EncodedDecode(text: TextLayer, sent: seq<Spoken>, encoded: seq<Bytes>)
    requires Lawful(text) && EncodedAs(text, sent, encoded)
    ensures Decodable(text, FramesOf(text, sent), RecordsOf(text, sent))
    ensures forall i :: 0 <= i < |sent| ==> EncodeFrame(FramesOf(text, sent)[i]) == encoded[i]
  {
    hide DecodeRecord;
    hide EncodeRecord;
    hide EncodeFrame;
    hide Lawful;
    hide FieldsOf;
    forall i | 0 <= i < |sent|
      ensures FrameFits(FramesOf(text, sent)[i])
      ensures DecodeRecord(text, FramesOf(text, sent)[i]) == Ok(RecordsOf(text, sent)[i])
      ensures EncodeFrame(FramesOf(text, sent)[i]) == encoded[i]
    {
      assert EncodingOf(text, sent[i]) == Ok(encoded[i]);
      EncodesExactlyValid(text, sent[i].kind, sent[i].meta, sent[i].payload);
    }
  }

  lemma {:induction false} ConcatenatedEncodings(frames: seq<Frame>, encoded: seq<Bytes>)
    requires |frames| == |encoded| && forall f :: f in frames ==> FrameFits(f)
    requires forall i :: 0 <= i < |frames| ==> EncodeFrame(frames[i]) == encoded[i]
    ensures EncodeAll(frames) == Flatten(encoded)
  {
    hide EncodeFrame;
    if frames != [] {
      ConcatenatedEncodings(frames[1..], encoded[1..]);
    }
  }

  lemma {:induction false} OneFrameParses(text: TextLayer, f: Frame, record: Record, count: nat)
    requires FrameFits(f) && DecodeRecord(text, f) == Ok(record)
    ensures ParseBytes(text, Parser([], None, false, count), EncodeFrame(f))
         == Fed(Parser([], None, false, count + 1), Ok([record]))
  {
    hide DecodeRecord;
    hide EncodeHeader;
    var p, h := Parser([], None, false, count), Header(f.kind, |f.metadata|, |f.payload|);
    var head, body := EncodeHeader(h), f.metadata + f.payload;
    assert EncodeFrame(f) == head + body;
    HeaderRoundTrip(head, h);
    ParseSplits(text, p, head, body);
    SliceIsBytes(text, p, head);
    assert Grown(p, head).buffer == head;
    var q := Parser(head, Some(h), false, count);
    assert BufferedFrame(Grown(q, body)) == f;
    if body != [] {
      assert head[..HEADER_BYTES] == head;
      SliceIsBytes(text, q, body);
      assert [] + [record] == [record];
    } else {
      assert Grown(q, body) == q;
      assert [record] + [] == [record];
    }
  }

  lemma {:induction false} FramesParse(text: TextLayer, frames: seq<Frame>, records: seq<Record>, count: nat)
    requires Decodable(text, frames, records)
    ensures ParseBytes(text, Parser([], None, false, count), EncodeAll(frames))
         == Fed(Parser([], None, false, count + |frames|), Ok(records))
    decreases |frames|
  {
    if frames != [] {
      OneFrameParses(text, frames[0], records[0], count);
      FramesParse(text, frames[1..], records[1..], count + 1);
      ParseSplits(text, Parser([], None, false, count), EncodeFrame(frames[0]), EncodeAll(frames[1..]));
      assert [records[0]] + records[1..] == records;
    }
  }

  /**
    Any list of records that could be encoded, in any fragmentation of the concatenated encodings,
    comes back record for record: the same type, metadata and payload, and nothing left in the buffer.
   */
  lemma {:induction false} RoundTrip(text: TextLayer, sent: seq<Spoken>, encoded: seq<Bytes>, fragments: seq<Bytes>)
    returns (records: seq<Record>)
    requires Lawful(text) && EncodedAs(text, sent, encoded) && Flatten(fragments) == Flatten(encoded)
    ensures FeedAll(text, FRESH, fragments) == Fed(Parser([], None, false, |sent|), Ok(records))
    ensures |records| == |sent| && forall i :: 0 <= i < |sent| ==> SpokenBy(records[i]) == sent[i]
  {
    hide DecodeRecord;
    hide EncodeFrame;
    hide Lawful;
    EncodedDecode(text, sent, encoded);
    var frames := FramesOf(text, sent);
    records := RecordsOf(text, sent);
    forall f | f in frames ensures FrameFits(f) {
      var i :| 0 <= i < |frames| && frames[i] == f;
    }
    ConcatenatedEncodings(frames, encoded);
    FragmentationIsIrrelevant(text, FRESH, fragments);
    FramesParse(text, frames, records, 0);
  }

  lemma {:induction false} SettledFrame(text: TextLayer, p: Parser, b: Bytes) returns (frames: seq<Frame>)
    requires Ready(p) && |b| == 1 && Settle(text, Grown(p, b)).outcome.Ok?
    ensures Decodable(text, frames, Settle(text, Grown(p, b)).outcome.value)
    ensures p.buffer + b == EncodeAll(frames) + Settle(text, Grown(p, b)).p.buffer
  {
    hide EncodeHeader;
    hide DecodeHeader;
    var q, f := Grown(p, b), Settle(text, Grown(p, b));
    if f.outcome.value == [] {
      frames := [];
    } else {
      var h := if p.header.Some? then p.header.value else DecodeHeader(q.buffer).value;
      assert q.buffer[..HEADER_BYTES] == EncodeHeader(h) by {
        if p.header.Some? {
          assert q.buffer[..HEADER_BYTES] == p.buffer[..HEADER_BYTES];
        } else {
          HeaderRoundTrip(q.buffer, h);
          assert q.buffer[..HEADER_BYTES] == q.buffer;
        }
      }
      var frame := BufferedFrame(q.(header := Some(h)));
      frames := [frame];
      assert q.buffer == EncodeFrame(frame);
      assert EncodeAll(frames) == EncodeFrame(frame);
    }
  }

  lemma {:induction false} EncodeAllAppend(a: seq<Frame>, b: seq<Frame>)
    requires forall f :: f in a + b ==> FrameFits(f)
    requires forall f :: f in a ==> FrameFits(f)
    requires forall f :: f in b ==> FrameFits(f)
    ensures EncodeAll(a + b) == EncodeAll(a) + EncodeAll(b)
  {
    if a == [] {
      assert a + b == b;
    } else {
      assert (a + b)[1..] == a[1..] + b;
      EncodeAllAppend(a[1..], b);
    }
  }

  lemma {:induction false} DecodableAppend(text: TextLayer, a: seq<Frame>, b: seq<Frame>, rs: seq<Record>,
                                           ts: seq<Record>)
    requires Decodable(text, a, rs) && Decodable(text, b, ts)
    ensures Decodable(text, a + b, rs + ts)
    ensures EncodeAll(a + b) == EncodeAll(a) + EncodeAll(b)
  {
    hide DecodeRecord;
    hide FrameFits;
    EncodeAllAppend(a, b);
  }

  /** Whatever is accepted was encoded: the bytes read are the frames of the records, then the buffer. */
  lemma {:induction false} AcceptedBytesAreFrames(text: TextLayer, p: Parser, data: Bytes) returns (frames: seq<Frame>)
    requires Ready(p) && ParseBytes(text, p, data).outcome.Ok?
    ensures Decodable(text, frames, ParseBytes(text, p, data).outcome.value)
    ensures p.buffer + data == EncodeAll(frames) + ParseBytes(text, p, data).p.buffer
    decreases |data|
  {
    hide Settle;
    hide EncodeAll;
    hide Wanted;
    if data == [] {
      frames := [];
      assert EncodeAll([]) == [] by { NothingEncoded(); }
    } else {
      var head := SettledFrame(text, p, data[..1]);
      ReadyWantsMore(p);
      SettleIsReady(text, p, data[..1]);
      var first := Settle(text, Grown(p, data[..1]));
      var tail := AcceptedBytesAreFrames(text, first.p, data[1..]);
      var rest := ParseBytes(text, first.p, data[1..]);
      frames := head + tail;
      DecodableAppend(text, head, tail, first.outcome.value, rest.outcome.value);
      Regroup(p.buffer, data, EncodeAll(head), first.p.buffer, EncodeAll(tail), rest.p.buffer);
    }
  }

  lemma {:induction false} NothingEncoded()
    ensures EncodeAll([]) == []
  {
  }

  lemma {:induction false} ReadyWantsMore(p: Parser)
    requires Ready(p)
    ensures Wanted(p) > 0
  {
  }

  lemma {:induction false} Regroup(buffer: Bytes, data: Bytes, head: Bytes, kept: Bytes, tail: Bytes, end: Bytes)
    requires data != [] && buffer + data[..1] == head + kept && kept + data[1..] == tail + end
    ensures buffer + data == head + tail + end
  {
    assert data == data[..1] + data[1..];
    assert buffer + data == (buffer + data[..1]) + data[1..];
    assert head + kept + data[1..] == head + (kept + data[1..]);
    assert head + (tail + end) == head + tail + end;
  }

  /** Records come out, with nothing left over, exactly when the bytes are encodings of frames for them. */
  lemma {:induction false} ParsesExactlyEncodings(text: TextLayer, data: Bytes, records: seq<Record>)
    ensures FeedBytes(text, FRESH, data) == Fed(Parser([], None, false, |records|), Ok(records))
      <==> exists frames :: Decodable(text, frames, records) && data == EncodeAll(frames)
  {
    if FeedBytes(text, FRESH, data) == Fed(Parser([], None, false, |records|), Ok(records)) {
      var frames := AcceptedBytesAreFrames(text, FRESH, data);
      assert [] + data == data && EncodeAll(frames) + [] == EncodeAll(frames);
      assert Decodable(text, frames, records) && data == EncodeAll(frames);
    }
    if exists frames :: Decodable(text, frames, records) && data == EncodeAll(frames) {
      var frames :| Decodable(text, frames, records) && data == EncodeAll(frames);
      FramesParse(text, frames, records, 0);
    }
  }

  // ----- The parser object -----

  class MicrophoneRelayRecordParser {
    const text: TextLayer
    var buffer: Bytes
    var header: Option<Header>
    var failed: bool
    var parsedRecordCount: nat

    constructor (text: TextLayer)
      ensures this.text == text && Valid() && Model() == FRESH
    {
      this.text := text;
      buffer, header, failed, parsedRecordCount := [], None, false, 0;
    }

    ghost function Model(): Parser
      reads this
    {
      Parser(buffer, header, failed, parsedRecordCount)
    }

    ghost predicate Valid()
      reads this
    {
      Ready(Model()) || Model() == Failed(Model())
    }

    method Fail()
      modifies this
      ensures Model() == Failed(old(Model()))
    {
      failed, buffer, header := true, [], None;
    }

    /** Reads the 14 buffered bytes; on a fault the header stays absent. */
    method ReadHeader() returns (fault: Option<Reason>)
      requires header.None? && |buffer| == HEADER_BYTES
      modifies `header
      ensures fault.None? ==> header.Some? && DecodeHeader(buffer) == Ok(header.value)
      ensures fault.Some? ==> header.None? && DecodeHeader(buffer) == Err(fault.value)
    {
      if buffer[..4] != MAGIC {
        return Some(BadMagic);
      }
      if buffer[4] != VERSION {
        return Some(UnsupportedVersion);
      }
      var kind := TypeOf(buffer[5]);
      if kind.None? {
        return Some(UnknownMessageType);
      }
      var metadataLength, payloadLength := UnpackWord(buffer[6..10]), UnpackWord(buffer[10..14]);
      fault := LengthFault(kind.value, metadataLength, payloadLength);
      if fault.Some? {
        return;
      }
      if HEADER_BYTES + metadataLength + payloadLength > MAX_RECORD_BYTES {
        assert false;
      }
      header := Some(Header(kind.value, metadataLength, payloadLength));
    }

    method FinishRecord() returns (result: Result<Record, Reason>)
      requires header.Some? && |buffer| == header.value.RecordBytes()
      modifies `buffer, `header
      ensures result == DecodeRecord(text, BufferedFrame(old(Model())))
      ensures result.Ok? ==> buffer == [] && header == None
    {
      var metadataEnd := HEADER_BYTES + header.value.metadataLength;
      result := DecodeRecord(text, Frame(header.value.kind, buffer[HEADER_BYTES..metadataEnd], buffer[metadataEnd..]));
      if result.Ok? {
        buffer, header := [], None;
      }
    }

    /** Takes header bytes up to the 14th, and reads the header once it is complete. */
    method TakeHeader(data: Bytes, offset: nat) returns (next: nat, fault: Option<Reason>)
      requires Ready(Model()) && header.None? && offset < |data|
      modifies this
      ensures offset < next <= |data|
      ensures fault.Some? ==>
        && Model() == Failed(old(Model()))
        && ParseBytes(text, old(Model()), data[offset..]) == Fed(Model(), Err(fault.value))
      ensures fault.None? && header.None? ==>
        && Ready(Model()) && next == |data|
        && ParseBytes(text, old(Model()), data[offset..]) == ParseBytes(text, Model(), data[next..])
      ensures fault.None? && header.Some? ==>
        && Held(Model())
        && ParseBytes(text, old(Model()), data[offset..]) == Resume(text, Model(), data[next..])
    {
      var take := Min(HEADER_BYTES - |buffer|, |data| - offset);
      HeaderStep(text, Model(), data, offset, take);
      buffer := buffer + data[offset..offset + take];
      next := offset + take;
      if |buffer| < HEADER_BYTES {
        return next, None;
      }
      fault := ReadHeader();
      if fault.Some? {
        Fail();
      }
    }

    /** Takes body bytes up to the end of the record, and finishes the record once it is complete. */
    method TakeBody(data: Bytes, offset: nat) returns (next: nat, result: Result<seq<Record>, Reason>)
      requires Held(Model()) && offset <= |data|
      modifies this
      ensures offset <= next <= |data|
      ensures |old(buffer)| < old(header.value.RecordBytes()) && offset < |data| ==> offset < next
      ensures result.Err? ==>
        && Model() == Failed(old(Model()))
        && Resume(text, old(Model()), data[offset..]) == Fed(Model(), Err(result.error))
      ensures result.Ok? ==>
        && Ready(Model())
        && Resume(text, old(Model()), data[offset..]) == Prepend(result.value, ParseBytes(text, Model(), data[next..]))
    {
      hide DecodeRecord;
      BodyStep(text, Model(), data, offset);
      var take := Min(header.value.RecordBytes() - |buffer|, |data| - offset);
      buffer := buffer + data[offset..offset + take];
      next := offset + take;
      if |buffer| > MAX_RECORD_BYTES {
        assert false;
      }
      if |buffer| == header.value.RecordBytes() {
        var finished := FinishRecord();
        if finished.Err? {
          Fail();
          return next, Err(finished.error);
        }
        parsedRecordCount := parsedRecordCount + 1;
        return next, Ok([finished.value]);
      }
      return next, Ok([]);
    }

    method Feed(data: Bytes) returns (outcome: Result<seq<Record>, Reason>)
      requires Valid()
      modifies this
      ensures Valid() && Fed(Model(), outcome) == FeedBytes(text, old(Model()), data)
    {
      if failed {
        return Err(TerminalState);
      }
      var records := [];
      var offset := 0;
      ghost var start := Model();
      assert data[0..] == data;
      AppendRecords([], [], ParseBytes(text, start, data));
      while offset < |data|
        invariant 0 <= offset <= |data|
        invariant Ready(Model())
        invariant ParseBytes(text, start, data) == Prepend(records, ParseBytes(text, Model(), data[offset..]))
        decreases |data| - offset
      {
        if header.None? {
          var fault;
          offset, fault := TakeHeader(data, offset);
          if fault.Some? {
            return Err(fault.value);
          }
          if header.None? {
            break;
          }
        } else {
          ResumeReady(text, Model(), data[offset..]);
        }
        var finished;
        offset, finished := TakeBody(data, offset);
        if finished.Err? {
          return Err(finished.error);
        }
        AppendRecords(records, finished.value, ParseBytes(text, Model(), data[offset..]));
        records := records + finished.value;
      }
      assert records + [] == records;
      return Ok(records);
    }
  }

  /** A complete header is held; the body may or may not be complete. */
  ghost predicate Held(p: Parser) {
    && !p.failed && p.header.Some? && p.header.value.Valid()
    && HEADER_BYTES <= |p.buffer| <= p.header.value.RecordBytes()
    && p.buffer[..HEADER_BYTES] == EncodeHeader(p.header.value)
  }

  /** Parsing on from a buffer that may already be complete. */
  function Resume(text: TextLayer, p: Parser, data: Bytes): Fed
    requires p.header.Some?
  {
    Then(FinishOrWait(text, p), ParseBytes(text, FinishOrWait(text, p).p, data))
  }

  lemma {:induction false} ResumeReady(text: TextLayer, p: Parser, data: Bytes)
    requires Ready(p) && p.header.Some?
    ensures Resume(text, p, data) == ParseBytes(text, p, data)
  {
    var f := ParseBytes(text, p, data);
    assert f.outcome.Ok? ==> [] + f.outcome.value == f.outcome.value;
  }

  /** Header bytes: they are buffered; a complete header is read, and a bad one ends the parse. */
  lemma {:induction false} HeaderStep(text: TextLayer, p: Parser, data: Bytes, from: nat, take: nat)
    requires Ready(p) && p.header.None? && from + take <= |data|
    requires 0 < take == Min(HEADER_BYTES - |p.buffer|, |data| - from)
    ensures var q := Grown(p, data[from..from + take]);
      if |q.buffer| < HEADER_BYTES then
        Ready(q) && ParseBytes(text, p, data[from..]) == ParseBytes(text, q, data[from + take..])
      else if DecodeHeader(q.buffer).Err? then
        ParseBytes(text, p, data[from..]) == Fed(Failed(p), Err(DecodeHeader(q.buffer).error))
      else
        var r := q.(header := Some(DecodeHeader(q.buffer).value));
        && Held(r)
        && ParseBytes(text, p, data[from..]) == Resume(text, r, data[from + take..])
  {
    SliceStep(text, p, data, from, take);
    var q := Grown(p, data[from..from + take]);
    if |q.buffer| < HEADER_BYTES {
      var f := ParseBytes(text, q, data[from + take..]);
      assert f.outcome.Ok? ==> [] + f.outcome.value == f.outcome.value;
    } else if DecodeHeader(q.buffer).Ok? {
      HeaderRoundTrip(q.buffer, DecodeHeader(q.buffer).value);
      assert q.buffer[..HEADER_BYTES] == q.buffer;
    }
  }

  /** Body bytes up to the end of the record, or of the data. */
  lemma {:induction false} BodyStep(text: TextLayer, p: Parser, data: Bytes, from: nat)
    requires Held(p) && from <= |data|
    ensures var take := Min(p.header.value.RecordBytes() - |p.buffer|, |data| - from);
      var q := Grown(p, data[from..from + take]);
      && Resume(text, p, data[from..]) == Resume(text, q, data[from + take..])
      && (|q.buffer| < q.header.value.RecordBytes() ==> Ready(q) && from + take == |data|)
  {
    var take := Min(p.header.value.RecordBytes() - |p.buffer|, |data| - from);
    var q := Grown(p, data[from..from + take]);
    if take == 0 {
      assert q == p;
    } else {
      ResumeReady(text, p, data[from..]);
      SliceStep(text, p, data, from, take);
      assert q.buffer[..HEADER_BYTES] == p.buffer[..HEADER_BYTES];
    }
  }

  lemma {:induction false} SliceStep(text: TextLayer, p: Parser, data: Bytes, from: nat, take: nat)
    requires Ready(p) && 0 < take <= Wanted(p) && from + take <= |data|
    ensures var step := Settle(text, Grown(p, data[from..from + take]));
      && ParseBytes(text, p, data[from..]) == Then(step, ParseBytes(text, step.p, data[from + take..]))
      && (if step.outcome.Ok? then Ready(step.p) else step.p == Failed(p))
  {
    var slice := data[from..from + take];
    assert data[from..] == slice + data[from + take..];
    assert data[from..][take..] == data[from + take..];
    ParseSplits(text, p, slice, data[from + take..]);
    SliceIsBytes(text, p, slice);
    SettleIsReady(text, p, slice);
  }

  lemma {:induction false} AppendRecords(records: seq<Record>, done: seq<Record>, rest: Fed)
    ensures Prepend(records, Prepend(done, rest)) == Prepend(records + done, rest)
    ensures Prepend([], rest) == rest
  {
    assert rest.outcome.Ok? ==> [] + rest.outcome.value == rest.outcome.value;
    if rest.outcome.Ok? {
      assert records + (done + rest.outcome.value) == records + done + rest.outcome.value;
    }
  }
}
