/**
  The reference timeline of one source: absolute packet positions 0, 1, 2, ...
  counted from the announced sequence number, each holding the packet accepted
  there or nothing. Rendering the timeline in order gives the audio the adapter
  must produce, whatever the arrival order.
 */
module RtpTimeline {
  import opened Common
  import opened G711
  import opened RtpModel

  /** The sequence number of a position: one more per packet, wrapping at 2^16. */
  function SeqAt(start: Start, position: nat): Seq16 {
    if position == 0 then start.initialSeq else AdvanceSeq(SeqAt(start, position - 1), 1)
  }

  /** The timestamp of a position: one packet of samples more each time, wrapping at 2^32. */
  function TsAt(start: Start, position: nat): Ts32 {
    if position == 0 then start.initialTs
    else AdvanceTs(TsAt(start, position - 1), start.format.samplesPerPacket)
  }

  lemma {:induction false} SeqAtClosed(start: Start, position: nat)
    ensures SeqAt(start, position) == (start.initialSeq + position) % SEQUENCE_MODULUS
  {
    if position > 0 {
      SeqAtClosed(start, position - 1);
    }
  }

  lemma {:induction false} SeqAtAhead(start: Start, n: nat, d: nat)
    ensures AdvanceSeq(SeqAt(start, n), d) == SeqAt(start, n + d)
    ensures d < SEQUENCE_MODULUS ==> Distance(SeqAt(start, n + d), SeqAt(start, n)) == d
  {
    SeqAtClosed(start, n);
    SeqAtClosed(start, n + d);
    ModAhead(start.initialSeq + n, d);
  }

  lemma {:induction false} ModAhead(x: nat, d: nat)
    ensures (x % SEQUENCE_MODULUS + d) % SEQUENCE_MODULUS == (x + d) % SEQUENCE_MODULUS
    ensures d < SEQUENCE_MODULUS ==> ((x + d) % SEQUENCE_MODULUS - x % SEQUENCE_MODULUS) % SEQUENCE_MODULUS == d
  {
  }

  lemma {:induction false} DistanceOfAdvance(expected: Seq16, d: nat)
    requires d < SEQUENCE_MODULUS
    ensures Distance(AdvanceSeq(expected, d), expected) == d
  {
    ModAhead(expected, d);
  }

  lemma {:induction false} DistanceShift(key: Seq16, expected: Seq16, d: nat)
    requires d <= Distance(key, expected)
    ensures Distance(key, AdvanceSeq(expected, d)) == Distance(key, expected) - d
  {
  }

  lemma {:induction false} TsAtAhead(start: Start, n: nat, d: nat)
    ensures AdvanceTs(TsAt(start, n), d * start.format.samplesPerPacket) == TsAt(start, n + d)
  {
    hide AdvanceTs;
    var spp := start.format.samplesPerPacket;
    if d == 0 {
      assert d * spp == 0;
      TsStays(TsAt(start, n));
    } else {
      TsAtAhead(start, n, d - 1);
      OneMore(spp, d - 1);
      TsCompose(TsAt(start, n), (d - 1) * spp, spp);
    }
  }

  lemma {:induction false} TsStays(ts: Ts32)
    ensures AdvanceTs(ts, 0) == ts
  {
  }

  lemma {:induction false} OneMore(factor: nat, count: nat)
    ensures (count + 1) * factor == count * factor + factor
  {
  }

  lemma {:induction false} TsCompose(ts: Ts32, x: nat, y: nat)
    ensures AdvanceTs(AdvanceTs(ts, x), y) == AdvanceTs(ts, x + y)
  {
  }

  /** The clock in closed form, from the announced timestamp. */
  lemma {:induction false} TsAtClosed(start: Start, position: nat)
    ensures TsAt(start, position) == (start.initialTs + position * start.format.samplesPerPacket) % TIMESTAMP_MODULUS
  {
    TsAtAhead(start, 0, position);
  }

  /** The audio of one position: the accepted packet, or silence of the same length. */
  function SlotAudio(accepted: map<nat, Packet>, position: nat, spp: PacketSamples): Bytes {
    if position in accepted then AudioBytes(accepted[position].codec, accepted[position].payload)
    else Zeros(4 * spp)
  }

  function Render(accepted: map<nat, Packet>, positions: nat, spp: PacketSamples): Bytes {
    if positions == 0 then []
    else Render(accepted, positions - 1, spp) + SlotAudio(accepted, positions - 1, spp)
  }

  /** The bytes of a list of chunks, in order. */
  function Stream(chunks: seq<Chunk>): Bytes {
    if chunks == [] then []
    else Stream(chunks[..|chunks| - 1]) + chunks[|chunks| - 1].payload
  }

  lemma {:induction false} StreamSnoc(chunks: seq<Chunk>, c: Chunk)
    ensures Stream(chunks + [c]) == Stream(chunks) + c.payload
  {
  }

  lemma {:induction false} RenderGap(accepted: map<nat, Packet>, from: nat, missing: nat, spp: PacketSamples)
    requires forall a :: from <= a < from + missing ==> a !in accepted
    ensures Render(accepted, from + missing, spp) == Render(accepted, from, spp) + Zeros(4 * (missing * spp))
  {
    if missing == 0 {
      assert Zeros(0) == [];
    } else {
      RenderGap(accepted, from, missing - 1, spp);
      assert missing * spp == (missing - 1) * spp + spp;
      assert Zeros(4 * ((missing - 1) * spp)) + Zeros(4 * spp) == Zeros(4 * (missing * spp));
      var before := Render(accepted, from, spp);
      assert (before + Zeros(4 * ((missing - 1) * spp))) + Zeros(4 * spp)
          == before + (Zeros(4 * ((missing - 1) * spp)) + Zeros(4 * spp));
    }
  }

  lemma {:induction false} RenderExtensional(a: map<nat, Packet>, b: map<nat, Packet>, positions: nat,
                                             spp: PacketSamples)
    requires forall p :: 0 <= p < positions ==> SlotAudio(a, p, spp) == SlotAudio(b, p, spp)
    ensures Render(a, positions, spp) == Render(b, positions, spp)
  {
    if positions > 0 {
      RenderExtensional(a, b, positions - 1, spp);
    }
  }

  lemma {:induction false} RenderLength(accepted: map<nat, Packet>, positions: nat, spp: PacketSamples)
    requires forall a :: a in accepted && a < positions ==> |accepted[a].payload| == spp
    ensures |Render(accepted, positions, spp)| == 4 * (spp * positions)
  {
    if positions > 0 {
      RenderLength(accepted, positions - 1, spp);
      assert spp * positions == spp * (positions - 1) + spp;
    }
  }

  /** Chunk `i` holds bytes 64000*i up to 64000*(i+1) of the stream, numbered and timed accordingly. */
  ghost predicate FullChunks(chunks: seq<Chunk>) {
    forall i :: 0 <= i < |chunks| ==> FullChunk(chunks[i], i)
  }

  ghost predicate FullChunk(c: Chunk, i: nat) {
    && |c.payload| == CHUNK_BYTES
    && c.number == i
    && c.startSeconds == (32000 * i) as real / 16000.0
    && c.durationSeconds == 2.0
  }

  lemma {:induction false} FullChunksLength(chunks: seq<Chunk>)
    requires FullChunks(chunks)
    ensures |Stream(chunks)| == CHUNK_BYTES * |chunks|
  {
    if chunks != [] {
      FullChunksLength(chunks[..|chunks| - 1]);
    }
  }

  /** What a finished source has emitted: full chunks, then at most one shorter non-empty one. */
  ghost predicate Cut(chunks: seq<Chunk>) {
    || FullChunks(chunks)
    || (|chunks| > 0 && FullChunks(chunks[..|chunks| - 1]) && ShortChunk(chunks[|chunks| - 1], |chunks| - 1))
  }

  ghost predicate ShortChunk(c: Chunk, i: nat) {
    && 0 < |c.payload| < CHUNK_BYTES
    && c.number == i
    && c.startSeconds == (32000 * i) as real / 16000.0
    && c.durationSeconds == (|c.payload| / 2) as real / 16000.0
  }

  /** Chunks agree in everything but the arrival stamp they carry. */
  ghost predicate SameAudio(c: Chunk, d: Chunk) {
    && c.number == d.number
    && c.startSeconds == d.startSeconds
    && c.durationSeconds == d.durationSeconds
    && c.payload == d.payload
  }

  lemma {:induction false} CutLength(chunks: seq<Chunk>)
    requires Cut(chunks)
    ensures |chunks| == (|Stream(chunks)| + CHUNK_BYTES - 1) / CHUNK_BYTES
    ensures FullChunks(chunks) <==> |Stream(chunks)| % CHUNK_BYTES == 0
  {
    if FullChunks(chunks) {
      FullChunksLength(chunks);
    } else {
      FullChunksLength(chunks[..|chunks| - 1]);
    }
  }

  /** A byte stream is cut into chunks in exactly one way. */
  lemma {:induction false} CutIsUnique(x: seq<Chunk>, y: seq<Chunk>)
    requires Cut(x) && Cut(y) && Stream(x) == Stream(y)
    ensures |x| == |y| && forall i :: 0 <= i < |x| ==> SameAudio(x[i], y[i])
    decreases |x|
  {
    hide Stream;
    CutLength(x);
    CutLength(y);
    if x != [] {
      var k := |x| - 1;
      var xs, ys := x[..k], y[..k];
      assert x == xs + [x[k]] && y == ys + [y[k]];
      StreamSnoc(xs, x[k]);
      StreamSnoc(ys, y[k]);
      assert FullChunks(xs) && FullChunks(ys) by {
        if FullChunks(x) {
          forall i | 0 <= i < k ensures FullChunk(xs[i], i) && FullChunk(ys[i], i) {
            assert FullChunk(x[i], i) && FullChunk(y[i], i);
          }
        }
      }
      FullChunksLength(xs);
      FullChunksLength(ys);
      assert |Stream(xs)| == |Stream(ys)|;
      assert Stream(xs) == Stream(x)[..|Stream(xs)|] == Stream(ys);
      assert x[k].payload == Stream(x)[|Stream(xs)|..] == y[k].payload;
      if FullChunks(x) {
        assert FullChunk(x[k], k) && FullChunk(y[k], k);
      } else {
        assert ShortChunk(x[k], k) && ShortChunk(y[k], k);
      }
      CutIsUnique(xs, ys);
    }
  }
}
