/** PCM16 decoding and the one-byte carry that re-cuts a byte stream into sample-aligned frames:
    agent/tts_rime.py:208-220, checked against the whole-stream decoding of
    evidence/probe_straddle.py. */
module Pcm {
  import opened Common

  type byte = x: int | 0 <= x < 256

  /** A little-endian signed 16-bit sample. */
  function Sample(lo: byte, hi: byte): int {
    var u := lo + 256 * hi;
    if u < 32768 then u else u - 65536
  }

  /** The samples of a byte string; an odd last byte is not a sample. */
  function Decode(bytes: seq<byte>): (samples: seq<int>)
    ensures |samples| == |bytes| / 2
    ensures forall i | 0 <= i < |samples| :: samples[i] == Sample(bytes[2 * i], bytes[2 * i + 1])
  {
    seq(|bytes| / 2, i requires 0 <= i < |bytes| / 2 => Sample(bytes[2 * i], bytes[2 * i + 1]))
  }

  lemma SampleRange(lo: byte, hi: byte)
    ensures -32768 <= Sample(lo, hi) <= 32767
  {
  }

  /** A 16-bit sample as two bytes, low byte first, in two's complement. */
  function Bytes(v: int): (bytes: seq<byte>)
    ensures |bytes| == 2
  {
    [v % 256, v / 256 % 256]
  }

  function Encode(samples: seq<int>): (bytes: seq<byte>)
    ensures |bytes| == 2 * |samples|
  {
    if samples == [] then [] else Encode(samples[..|samples| - 1]) + Bytes(samples[|samples| - 1])
  }

  lemma SampleOfBytes(v: int)
    requires -32768 <= v <= 32767
    ensures Sample(Bytes(v)[0], Bytes(v)[1]) == v
  {
  }

  lemma BytesOfSample(lo: byte, hi: byte)
    ensures Bytes(Sample(lo, hi)) == [lo, hi]
  {
  }

  lemma DecodeSnoc(bytes: seq<byte>, v: int)
    requires |bytes| % 2 == 0 && -32768 <= v <= 32767
    ensures Decode(bytes + Bytes(v)) == Decode(bytes) + [v]
  {
    DecodeAppend(bytes, Bytes(v));
    SampleOfBytes(v);
    assert Decode(Bytes(v)) == [v];
  }

  /** Round trip: decoding the encoding of 16-bit samples gives them back ... */
  lemma {:induction false} DecodeEncode(samples: seq<int>)
    requires forall v | v in samples :: -32768 <= v <= 32767
    ensures Decode(Encode(samples)) == samples
  {
    if samples != [] {
      var front, last := samples[..|samples| - 1], samples[|samples| - 1];
      assert last in samples && forall v | v in front :: v in samples;
      DecodeEncode(front);
      DecodeSnoc(Encode(front), last);
      assert samples == front + [last];
    }
  }

  /** ... and encoding the decoding of whole samples gives their bytes back. */
  lemma {:induction false} EncodeDecode(bytes: seq<byte>)
    requires |bytes| % 2 == 0
    ensures Encode(Decode(bytes)) == bytes
  {
    if bytes != [] {
      var n := |bytes| - 2;
      var front, last := bytes[..n], bytes[n..];
      EncodeDecode(front);
      assert bytes == front + last && last == [last[0], last[1]];
      DecodeAppend(front, last);
      assert Decode(last) == [Sample(last[0], last[1])];
      EncodeSnoc(Decode(front), Sample(last[0], last[1]));
      BytesOfSample(last[0], last[1]);
    }
  }

  lemma EncodeSnoc(samples: seq<int>, v: int)
    ensures Encode(samples + [v]) == Encode(samples) + Bytes(v)
  {
    assert (samples + [v])[..|samples|] == samples;
  }

  /** Decoding splits at any even offset. */
  lemma DecodeAppend(a: seq<byte>, b: seq<byte>)
    requires |a| % 2 == 0
    ensures Decode(a + b) == Decode(a) + Decode(b)
  {
    var whole, parts := Decode(a + b), Decode(a) + Decode(b);
    assert |whole| == |parts|;
    forall i | 0 <= i < |whole| ensures whole[i] == parts[i] {
      if i >= |a| / 2 {
        var k := i - |a| / 2;
        assert 2 * i == |a| + 2 * k;
        assert (a + b)[2 * i] == b[2 * k] && (a + b)[2 * i + 1] == b[2 * k + 1];
      }
    }
  }
}

module Carry {
  import opened Common
  import opened Pcm

  /** One frame through the re-chunker: what is forwarded and the byte kept back. */
  function Cut(carry: seq<byte>, raw: seq<byte>): (seq<byte>, seq<byte>) {
    var data := carry + raw;
    if |data| % 2 == 1 then (data[..|data| - 1], data[|data| - 1..]) else (data, [])
  }

  /** The forwarded frames and the final carry of a sequence of received frames. */
  function Rechunk(carry: seq<byte>, raws: seq<seq<byte>>): (seq<seq<byte>>, seq<byte>) {
    if raws == [] then ([], carry)
    else
      var (frames, kept) := Rechunk(carry, raws[..|raws| - 1]);
      var (frame, left) := Cut(kept, raws[|raws| - 1]);
      (frames + [frame], left)
  }

  function DecodeEach(frames: seq<seq<byte>>): seq<int> {
    if frames == [] then [] else DecodeEach(frames[..|frames| - 1]) + Decode(frames[|frames| - 1])
  }

  ghost predicate AllEven(frames: seq<seq<byte>>) {
    forall i | 0 <= i < |frames| :: |frames[i]| % 2 == 0
  }

  /** One frame: whole samples go out, nothing is lost, and what went out decodes like the stream. */
  lemma CutStep(out: seq<byte>, kept: seq<byte>, raw: seq<byte>)
    requires |out| % 2 == 0 && |kept| <= 1
    ensures var (frame, left) := Cut(kept, raw);
      && |frame| % 2 == 0 && |left| <= 1
      && frame + left == kept + raw
      && out + frame + left == out + kept + raw
      && Decode(out) + Decode(frame) == Decode(out + kept + raw)
  {
    var (frame, left) := Cut(kept, raw);
    assert out + frame + left == out + (frame + left) == out + (kept + raw) == out + kept + raw;
    DecodeAppend(out, frame);
    DecodeAppend(out + frame, left);
    assert Decode(left) == [];
  }

  /** A forwarded frame is empty exactly when carry and received bytes together are less than a sample. */
  lemma FrameIsEmptyIff(kept: seq<byte>, raw: seq<byte>)
    ensures Cut(kept, raw).0 == [] <==> |kept| + |raw| <= 1
  {
  }

  /** For every way of cutting a byte stream into frames: the forwarded frames hold whole samples,
      forwarded bytes and carry together are the received bytes, and decoding the forwarded
      frames one by one is decoding the whole stream. */
  lemma {:induction false} RechunkRefinesStream(raws: seq<seq<byte>>)
    ensures var (frames, kept) := Rechunk([], raws);
      && |frames| == |raws|
      && AllEven(frames)
      && |kept| <= 1
      && Flatten(frames) + kept == Flatten(raws)
      && DecodeEach(frames) == Decode(Flatten(raws))
  {
    if raws != [] {
      var front, raw := raws[..|raws| - 1], raws[|raws| - 1];
      RechunkRefinesStream(front);
      var (frames, kept) := Rechunk([], front);
      EvenTotal(frames);
      CutStep(Flatten(frames), kept, raw);
      assert Decode(Flatten(front)) == Decode(Flatten(frames)) by {
        DecodeAppend(Flatten(frames), kept);
        assert Decode(kept) == [];
      }
      var frame := Cut(kept, raw).0;
      assert (frames + [frame])[..|frames|] == frames;
    }
  }

  lemma {:induction false} EvenTotal(frames: seq<seq<byte>>)
    requires AllEven(frames)
    ensures |Flatten(frames)| % 2 == 0
  {
    if frames != [] {
      EvenTotal(frames[..|frames| - 1]);
    }
  }

  // ---- the two decodings the probe compares --------------------------------------------

  /** Decoding B: join all frames, decode once; a seam after each frame at half the bytes so far. */
  method ContinuousDecode(frames: seq<seq<byte>>) returns (cont: seq<int>, bounds: seq<int>)
    ensures cont == Decode(Flatten(frames))
    ensures |bounds| == |frames|
    ensures forall k | 0 <= k < |frames| :: bounds[k] == |Flatten(frames[..k + 1])| / 2
  {
    var stream: seq<byte> := [];
    bounds := [];
    var off := 0;
    for i := 0 to |frames|
      invariant stream == Flatten(frames[..i]) && off == |stream|
      invariant |bounds| == i
      invariant forall k | 0 <= k < i :: bounds[k] == |Flatten(frames[..k + 1])| / 2
    {
      assert frames[..i + 1][..i] == frames[..i];
      stream := stream + frames[i];
      off := off + |frames[i]|;
      bounds := bounds + [off / 2];
    }
    assert frames[..|frames|] == frames;
    cont := Decode(stream);
  }

  lemma OneMoreFrame(done: seq<seq<byte>>, raw: seq<byte>)
    ensures var (frames, kept) := Rechunk([], done); var (frame, left) := Cut(kept, raw);
      && Rechunk([], done + [raw]) == (frames + [frame], left)
      && DecodeEach(frames + [frame]) == DecodeEach(frames) + Decode(frame)
      && DecodeEach(frames + [frame]) == Decode(Flatten(done + [raw]))
  {
    assert (done + [raw])[..|done|] == done;
    var (frames, kept) := Rechunk([], done);
    assert (frames + [Cut(kept, raw).0])[..|frames|] == frames;
    RechunkRefinesStream(done + [raw]);
  }

  /** Decoding C: the loop with the one-byte carry. It yields the same samples and the same seams
      as decoding B, for every list of frames. */
  method CarryDecode(frames: seq<seq<byte>>) returns (carried: seq<int>, bounds: seq<int>)
    ensures carried == Decode(Flatten(frames))
    ensures |bounds| == |frames|
    ensures forall k | 0 <= k < |frames| :: bounds[k] == |Flatten(frames[..k + 1])| / 2
  {
    carried, bounds := [], [];
    var carry: seq<byte> := [];
    for i := 0 to |frames|
      invariant carry == Rechunk([], frames[..i]).1
      invariant carried == DecodeEach(Rechunk([], frames[..i]).0)
      invariant |bounds| == i
      invariant forall k | 0 <= k < i :: bounds[k] == |Flatten(frames[..k + 1])| / 2
    {
      var data := carry + frames[i];
      if |data| % 2 == 1 {
        carry := data[|data| - 1..];
        data := data[..|data| - 1];
      } else {
        carry := [];
      }
      carried := carried + Decode(data);
      assert frames[..i + 1] == frames[..i] + [frames[i]];
      OneMoreFrame(frames[..i], frames[i]);
      bounds := bounds + [|carried|];
    }
    assert frames[..|frames|] == frames;
    RechunkRefinesStream(frames);
  }
}
