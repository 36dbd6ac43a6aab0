/** The speech path end to end: frames re-chunked by the server, decoded and played by the browser. */
module SpeechPath {
  import opened Common
  import opened Pcm
  import opened Carry
  import opened Resampler
  import opened Player
  import opened PlayerLaws
  import opened PlayerStart

  ghost predicate NoFlush(events: seq<Event>) {
    forall e | e in events :: !e.Flush?
  }

  /** The chunks of a run, in order. */
  function ChunksOf(events: seq<Event>): seq<seq<Sample>> {
    if events == [] then []
    else
      var front, last := ChunksOf(events[..|events| - 1]), events[|events| - 1];
      if last.Chunk? then front + [last.samples] else front
  }

  /** What is pushed since the last flush is the chunks, whatever was played in between. */
  lemma {:induction false} PushedIsChunks(events: seq<Event>, rate: real)
    requires NoFlush(events)
    ensures Run(Init(), events, rate).0.pushed == Flatten(ChunksOf(events))
  {
    if events != [] {
      var front, last := events[..|events| - 1], events[|events| - 1];
      assert forall e | e in front :: e in events;
      assert last in events;
      PushedIsChunks(front, rate);
      MessageStep(Run(Init(), front, rate).0, last, rate);
      if last.Chunk? {
        assert (ChunksOf(front) + [last.samples])[..|ChunksOf(front)|] == ChunksOf(front);
      }
    }
  }

  /** 16-bit samples as the player's numbers. */
  function Numbers(samples: seq<int>): (out: seq<Sample>)
    ensures |out| == |samples|
    ensures forall i | 0 <= i < |out| :: out[i] == Num(samples[i] as real / 32768.0)
  {
    seq(|samples|, i requires 0 <= i < |samples| => Num(samples[i] as real / 32768.0))
  }

  /** The frames as the player's chunks in a context of the given rate. */
  function FrameChunks(frames: seq<seq<byte>>, rate: real): seq<seq<Sample>>
    requires rate > 0.0
  {
    seq(|frames|, i requires 0 <= i < |frames| => Samples(frames[i], rate))
  }

  /** The events deliver a byte stream, cut into frames and re-chunked, and nothing else. */
  ghost predicate Delivers(raws: seq<seq<byte>>, events: seq<Event>, rate: real)
    requires rate > 0.0
  {
    NoFlush(events) && ChunksOf(events) == FrameChunks(Rechunk([], raws).0, rate)
  }

  /** End to end, at every context rate: cut a PCM16 stream into frames in any way, odd lengths included,
      re-chunk it, and play the forwarded frames with any interleaving of render quanta: the frames decode
      to the whole stream, and the samples played, followed by those still queued, are the frames'
      resampled samples, in order. */
  lemma {:induction false} StreamIsPlayedInOrder(raws: seq<seq<byte>>, events: seq<Event>, rate: real)
    requires rate > 0.0 && Delivers(raws, events, rate)
    ensures var p := Run(Init(), events, rate).0; var frames := Rechunk([], raws).0;
      && DecodeEach(frames) == Decode(Flatten(raws))
      && p.consumed + Remaining(p) == Flatten(FrameChunks(frames, rate))
  {
    RechunkRefinesStream(raws);
    PushedIsChunks(events, rate);
    NothingLostNothingRepeated(events, rate);
  }

  // ---- at the speech rate -----------------------------------------------------------------------

  lemma NumbersAppend(a: seq<int>, b: seq<int>)
    ensures Numbers(a + b) == Numbers(a) + Numbers(b)
  {
  }

  /** At the speech rate nothing is resampled. */
  lemma SamplesAtSpeechRate(bytes: seq<byte>)
    ensures Samples(bytes, SPEECH_RATE) == Numbers(Decode(bytes))
  {
    var got := Samples(bytes, SPEECH_RATE);
    assert forall i | 0 <= i < |got| :: got[i] == Num(Floats(bytes)[i]);
  }

  lemma {:induction false} FrameChunksDecode(frames: seq<seq<byte>>)
    ensures Flatten(FrameChunks(frames, SPEECH_RATE)) == Numbers(DecodeEach(frames))
  {
    if frames != [] {
      var front, last := frames[..|frames| - 1], frames[|frames| - 1];
      FrameChunksDecode(front);
      assert FrameChunks(frames, SPEECH_RATE)[..|frames| - 1] == FrameChunks(front, SPEECH_RATE);
      SamplesAtSpeechRate(last);
      NumbersAppend(DecodeEach(front), Decode(last));
    }
  }

  /** In a 24 kHz context the samples played and queued are the decoding of the whole stream. */
  lemma {:induction false} StreamIsPlayedWhole(raws: seq<seq<byte>>, events: seq<Event>)
    requires Delivers(raws, events, SPEECH_RATE)
    ensures var p := Run(Init(), events, SPEECH_RATE).0;
      p.consumed + Remaining(p) == Numbers(Decode(Flatten(raws)))
  {
    StreamIsPlayedInOrder(raws, events, SPEECH_RATE);
    FrameChunksDecode(Rechunk([], raws).0);
  }

  /** From samples to samples: what the server encoded is what is played and queued, over 32768, however the bytes
      were cut on the way. */
  lemma {:induction false} SpokenSamplesArePlayed(samples: seq<int>, raws: seq<seq<byte>>, events: seq<Event>)
    requires forall v | v in samples :: -32768 <= v <= 32767
    requires Flatten(raws) == Encode(samples) && Delivers(raws, events, SPEECH_RATE)
    ensures var p := Run(Init(), events, SPEECH_RATE).0; var heard := p.consumed + Remaining(p);
      |heard| == |samples| && forall i | 0 <= i < |heard| :: heard[i] == Num(samples[i] as real / 32768.0)
  {
    StreamIsPlayedWhole(raws, events);
    DecodeEncode(samples);
  }

  // ---- a frame of one byte -------------------------------------------------------------------------

  function OneSecondOfSilence(): (bytes: seq<byte>)
    ensures |bytes| == 48000
  {
    seq(48000, _ => 0)
  }

  lemma LoneByteFrame(b: byte)
    ensures Rechunk([], [[b]]) == ([[]], [b])
  {
    var raws: seq<seq<byte>> := [[b]];
    assert raws[..|raws| - 1] == [] && raws[|raws| - 1] == [b];
    assert Rechunk([], raws[..|raws| - 1]) == ([], []);
    assert Cut([], [b]) == ([], [b]) by {
      assert [] + [b] == [b];
    }
    var (frames, kept) := Rechunk([], raws);
    assert |frames| == 1 && frames[0] == [] && kept == [b];
    assert frames == [[]];
  }

  /** The byte is carried into the next frame, which stays as long as it was received. */
  lemma LoneByteFrames(b: byte, rest: seq<byte>)
    requires |rest| % 2 == 0
    ensures var frames := Rechunk([], [[b], rest]).0; |frames| == 2 && frames[0] == [] && |frames[1]| == |rest|
  {
    LoneByteFrame(b);
    OneMoreFrame([[b]], rest);
    assert [[b]] + [rest] == [[b], rest];
    CutAfterCarry(b, rest);
  }

  lemma CutAfterCarry(b: byte, rest: seq<byte>)
    requires |rest| % 2 == 0
    ensures |Cut([b], rest).0| == |rest|
  {
  }

  /** Enough for the start cushion at every rate. */
  lemma SecondFillsCushion(bytes: seq<byte>, rate: real)
    requires rate > 0.0 && |bytes| == 48000
    ensures |Samples(bytes, rate)| as real >= rate * 0.5
  {
    var n := |Floats(bytes)|;
    assert n == 24000;
    if rate != SPEECH_RATE {
      assert n as real * rate / SPEECH_RATE == rate;
      assert OutLength(n, SPEECH_RATE, rate) >= Ceil(rate);
    }
  }

  lemma OneMoreEvent(events: seq<Event>, e: Event, rate: real)
    ensures Run(Init(), events + [e], rate).0 == Next(Run(Init(), events, rate).0, e, rate).0
    ensures ChunksOf(events + [e]) == ChunksOf(events) + (if e.Chunk? then [e.samples] else [])
  {
    assert (events + [e])[..|events|] == events;
  }

  lemma NaNIsTakenFirst(p: Player, second: seq<Sample>, rate: real)
    requires !p.started && p.preBuffer == 0.5 && p.pos == 0 && p.consumed == [] && p.fadeInLen != 0
    requires p.queue == [[NaN], second] && |second| as real >= rate * 0.5
    ensures NaN in Processed(p, 1, rate, 0.0).0.consumed
  {
    assert p.queue[..1] == [[NaN]] && [[NaN]][..0] == [];
    assert Flatten(p.queue) == [NaN] + second;
    var s := Started(p);
    assert Ticks(s, 0) == (s, [], false);
    assert Tick(s).0.consumed == [NaN];
  }

  /** The player after two chunks. */
  lemma TwoChunks(first: seq<Sample>, second: seq<Sample>, rate: real) returns (events: seq<Event>, p: Player)
    requires first != [] && second != []
    ensures events == [Chunk(first, 0.0), Chunk(second, 0.0)] && ChunksOf(events) == [first, second]
    ensures p == Run(Init(), events, rate).0 && p.queue == [first, second]
    ensures !p.started && p.preBuffer == 0.5 && p.pos == 0 && p.consumed == [] && p.fadeInLen != 0
  {
    var e1, e2 := Chunk(first, 0.0), Chunk(second, 0.0);
    assert [] + [e1] == [e1] && [e1] + [e2] == [e1, e2];
    OneMoreEvent([], e1, rate);
    OneMoreEvent([e1], e2, rate);
    events := [e1, e2];
    p := Run(Init(), events, rate).0;
  }

  /** A stream whose first frame is a single byte makes the speakers get a sample that is not a number,
      in every context that does not run at the speech rate. */
  lemma LoneByteSpoilsOutput(b: byte, rate: real) returns (events: seq<Event>)
    requires rate > 0.0 && rate != SPEECH_RATE
    ensures Delivers([[b], OneSecondOfSilence()], events, rate)
    ensures NaN in Run(Init(), events, rate).1
  {
    var frames := Rechunk([], [[b], OneSecondOfSilence()]).0;
    LoneByteFrames(b, OneSecondOfSilence());
    SecondFillsCushion(frames[1], rate);
    var chunks := FrameChunks(frames, rate);
    assert chunks == [[NaN], Samples(frames[1], rate)];
    var delivered, p := TwoChunks(chunks[0], chunks[1], rate);
    NaNIsTakenFirst(p, chunks[1], rate);
    events := delivered + [Process(1, 0.0)];
    OneMoreEvent(delivered, Process(1, 0.0), rate);
    OutputHasNaNIff(events, rate);
  }
}
