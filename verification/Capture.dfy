/** web/audio-worklet.js:47-70: the microphone batcher. However the browser cuts its render quanta,
    the posted messages are the 1024-sample blocks of the whole signal, resampled and quantised. */
module Capture {
  import opened Common
  import opened Resampler

  const BATCH: nat := 1024
  const SPEECH_INPUT_RATE: real := 16000.0

  // ---- quantisation ---------------------------------------------------------------------

  function Clamp(x: real): real {
    if x < -1.0 then -1.0 else if x > 1.0 then 1.0 else x
  }

  /** `| 0`: truncation toward zero. */
  function Truncate(x: real): int {
    if x >= 0.0 then x.Floor else -((-x).Floor)
  }

  function Quantize(s: Sample): int {
    if s.Num? then Truncate(Clamp(s.v) * 32767.0) else 0
  }

  /** The result is a 16-bit sample, keeps the sign, never exceeds the clamped input and is
      less than one step from it. */
  lemma QuantizeLaw(x: real)
    ensures -32767 <= Quantize(Num(x)) <= 32767
    ensures Quantize(Num(-x)) == -Quantize(Num(x))
    ensures var scaled := Clamp(x) * 32767.0; var q := Quantize(Num(x)) as real;
      && Abs(q) <= Abs(scaled)
      && Abs(scaled - q) < 1.0
      && (x >= 0.0 ==> q >= 0.0)
  {
  }

  /** Full scale, and what is beyond it or not a number. */
  lemma QuantizeEnds(x: real)
    ensures x >= 1.0 ==> Quantize(Num(x)) == 32767
    ensures x <= -1.0 ==> Quantize(Num(x)) == -32767
    ensures Quantize(NaN) == 0
  {
  }

  /** Louder in, no quieter out. */
  lemma QuantizeMonotone(x: real, y: real)
    requires x <= y
    ensures Quantize(Num(x)) <= Quantize(Num(y))
  {
    assert Clamp(x) <= Clamp(y);
    assert Clamp(x) * 32767.0 <= Clamp(y) * 32767.0;
  }

  function QuantizeAll(samples: seq<Sample>): (q: seq<int>)
    ensures |q| == |samples| && forall i | 0 <= i < |q| :: q[i] == Quantize(samples[i])
  {
    seq(|samples|, i requires 0 <= i < |samples| => Quantize(samples[i]))
  }

  /** The message posted for one full batch. */
  function Message(block: seq<real>, rate: real): seq<int>
    requires rate > 0.0
  {
    QuantizeAll(Resampled(block, rate, SPEECH_INPUT_RATE))
  }

  /** At 48 kHz a batch becomes 342 samples at 16 kHz. */
  lemma BatchLength(block: seq<real>)
    requires |block| == 1024
    ensures |Message(block, 48000.0)| == 342
  {
    assert (1024.0 * 16000.0 / 48000.0) > 341.0 && (1024.0 * 16000.0 / 48000.0) < 342.0;
  }

  // ---- the whole signal, cut in blocks -----------------------------------------------------

  function Block(signal: seq<real>, k: nat): seq<real>
    requires (k + 1) * BATCH <= |signal|
  {
    signal[k * BATCH..(k + 1) * BATCH]
  }

  function Messages(signal: seq<real>, rate: real): (m: seq<seq<int>>)
    requires rate > 0.0
    ensures |m| == |signal| / BATCH
    ensures forall k | 0 <= k < |m| :: m[k] == Message(Block(signal, k), rate)
  {
    seq(|signal| / BATCH, k requires 0 <= k < |signal| / BATCH => Message(Block(signal, k), rate))
  }

  /** The samples of the unfinished batch. */
  function Partial(signal: seq<real>): seq<real> {
    signal[|signal| / BATCH * BATCH..]
  }

  // ---- the sample-by-sample batcher -----------------------------------------------------------

  datatype Batcher = Batcher(batch: seq<real>, posted: seq<seq<int>>)

  function Feed(b: Batcher, x: real, rate: real): Batcher
    requires rate > 0.0
  {
    var batch := b.batch + [x];
    if |batch| == BATCH then Batcher([], b.posted + [Message(batch, rate)]) else Batcher(batch, b.posted)
  }

  function FeedAll(b: Batcher, signal: seq<real>, rate: real): Batcher
    requires rate > 0.0
  {
    if signal == [] then b
    else Feed(FeedAll(b, signal[..|signal| - 1], rate), signal[|signal| - 1], rate)
  }

  function FeedQuanta(b: Batcher, quanta: seq<seq<real>>, rate: real): Batcher
    requires rate > 0.0
  {
    if quanta == [] then b
    else FeedAll(FeedQuanta(b, quanta[..|quanta| - 1], rate), quanta[|quanta| - 1], rate)
  }

  lemma {:induction false} FeedAllAppend(b: Batcher, a: seq<real>, c: seq<real>, rate: real)
    requires rate > 0.0
    ensures FeedAll(b, a + c, rate) == FeedAll(FeedAll(b, a, rate), c, rate)
  {
    if c == [] {
      assert a + c == a;
    } else {
      FeedAllAppend(b, a, c[..|c| - 1], rate);
      assert (a + c)[..|a + c| - 1] == a + c[..|c| - 1];
    }
  }

  lemma MessagesOfPrefix(signal: seq<real>, x: real, rate: real)
    requires rate > 0.0
    ensures var more := signal + [x];
      if |Partial(signal)| == BATCH - 1
      then Messages(more, rate) == Messages(signal, rate) + [Message(Partial(signal) + [x], rate)] && Partial(more) == []
      else Messages(more, rate) == Messages(signal, rate) && Partial(more) == Partial(signal) + [x]
  {
    var more := signal + [x];
    var n := |signal| / BATCH;
    forall k | 0 <= k < n ensures Block(more, k) == Block(signal, k) {
      assert (k + 1) * BATCH <= |signal|;
    }
    assert |Partial(signal)| == |signal| - n * BATCH;
    if |Partial(signal)| == BATCH - 1 {
      assert |more| == (n + 1) * BATCH;
      assert Block(more, n) == Partial(signal) + [x];
      assert Messages(more, rate) == Messages(signal, rate) + [Message(Block(more, n), rate)];
    } else {
      assert |more| / BATCH == n;
      assert Messages(more, rate) == Messages(signal, rate);
    }
  }

  lemma {:induction false} FeedAllIsBlocks(signal: seq<real>, rate: real)
    requires rate > 0.0
    ensures FeedAll(Batcher([], []), signal, rate) == Batcher(Partial(signal), Messages(signal, rate))
    ensures |Partial(signal)| < BATCH
  {
    if signal == [] {
      assert Messages(signal, rate) == [] && Partial(signal) == [];
    } else {
      var front, x := signal[..|signal| - 1], signal[|signal| - 1];
      FeedAllIsBlocks(front, rate);
      MessagesOfPrefix(front, x, rate);
      assert signal == front + [x];
    }
  }

  /** Batching is independent of the render quanta: any cut of a signal posts exactly the blocks of
      the whole signal, in order, and keeps its last incomplete block. */
  lemma {:induction false} QuantaDoNotMatter(quanta: seq<seq<real>>, rate: real)
    requires rate > 0.0
    ensures FeedQuanta(Batcher([], []), quanta, rate)
         == Batcher(Partial(Flatten(quanta)), Messages(Flatten(quanta), rate))
  {
    if quanta == [] {
      FeedAllIsBlocks([], rate);
    } else {
      var front := quanta[..|quanta| - 1];
      QuantaDoNotMatter(front, rate);
      FeedAllIsBlocks(Flatten(front), rate);
      FeedAllAppend(Batcher([], []), Flatten(front), quanta[|quanta| - 1], rate);
      FeedAllIsBlocks(Flatten(quanta), rate);
    }
  }

  /** One message for every 1024 samples, and the rest waits. */
  lemma {:induction false} PostsEvery1024(quanta: seq<seq<real>>, rate: real)
    requires rate > 0.0
    ensures var b := FeedQuanta(Batcher([], []), quanta, rate);
      |b.posted| == |Flatten(quanta)| / 1024 && |b.batch| == |Flatten(quanta)| % 1024
  {
    QuantaDoNotMatter(quanta, rate);
  }

  // ---- the processor object ----------------------------------------------------------------------

  class PCMCaptureProcessor {
    const batch: array<real>
    var n: nat
    var posted: seq<seq<int>>

    ghost predicate Valid()
      reads this
    {
      batch.Length == BATCH && n < BATCH
    }

    ghost function View(): Batcher
      requires Valid()
      reads this, batch
    {
      Batcher(batch[..n], posted)
    }

    constructor ()
      ensures Valid() && View() == Batcher([], []) && fresh(batch)
    {
      batch := new real[BATCH](_ => 0.0);
      n := 0;
      posted := [];
    }

    /** One render quantum; a missing input channel is ignored. */
    method Process(channel: Option<seq<real>>, rate: real)
      requires Valid() && rate > 0.0
      modifies this, batch
      ensures Valid()
      ensures View() == if channel.Some? then FeedAll(old(View()), channel.value, rate) else old(View())
    {
      if channel.None? {
        return;
      }
      var ch := channel.value;
      for i := 0 to |ch|
        invariant Valid() && View() == FeedAll(old(View()), ch[..i], rate)
      {
        assert ch[..i + 1][..i] == ch[..i];
        Add(ch[i], rate);
      }
      assert ch[..|ch|] == ch;
    }

    /** One sample: into the batch, and out with the batch when it is full. */
    method Add(x: real, rate: real)
      requires Valid() && rate > 0.0
      modifies this, batch
      ensures Valid() && View() == Feed(old(View()), x, rate)
    {
      batch[n] := x;
      n := n + 1;
      assert batch[..n] == old(View()).batch + [x];
      if n == batch.Length {
        assert batch[..] == batch[..n];
        var f16 := ResampleCubic(batch, rate, SPEECH_INPUT_RATE);
        var message := ToInt16(f16);
        posted := posted + [message];
        n := 0;
      }
    }

    static method ToInt16(f16: array<Sample>) returns (message: seq<int>)
      ensures message == QuantizeAll(f16[..])
    {
      var int16 := new int[f16.Length](_ => 0);
      for j := 0 to f16.Length
        invariant forall k | 0 <= k < j :: int16[k] == Quantize(f16[k])
      {
        int16[j] := Quantize(f16[j]);
      }
      message := int16[..];
    }
  }
}
