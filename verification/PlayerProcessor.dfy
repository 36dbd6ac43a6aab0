/** The PCMPlayerProcessor object: its message handler and its render loop, sample by sample. */
module PlayerProcessors {
  import opened Common
  import opened Pcm
  import opened Resampler
  import opened Player

  lemma TicksOneMore(p: Player, n: nat)
    requires p.fadeInLen != 0
    ensures var (q, outs, starved) := Ticks(p, n);
      Ticks(p, n + 1) == (Tick(q).0, outs + [Tick(q).1], starved || DropSpent(q).queue == [])
  {
  }

  class PCMPlayerProcessor {
    var queue: seq<seq<Sample>>
    var pos: nat
    var started: bool
    var fadeIn: int
    var fadeInLen: int
    var fadeOut: int
    var wasStarved: bool
    var last: Sample
    var reportedUnderrun: bool
    var firstChunkAt: Option<real>
    var preBuffer: real
    var reports: seq<int>          // what the port was sent since the last flush
    ghost var pushed: seq<Sample>
    ghost var consumed: seq<Sample>
    ghost var dry: nat

    ghost function View(): Player
      reads this
    {
      Player(queue, pos, started, fadeIn, fadeInLen, fadeOut, wasStarved, last, reportedUnderrun,
                    firstChunkAt, preBuffer, pushed, consumed, reports, dry)
    }

    constructor ()
      ensures View() == Init()
    {
      queue, pos, started, fadeIn, fadeInLen, fadeOut := [], 0, false, 0, 1, 0;
      wasStarved, last, reportedUnderrun, firstChunkAt, preBuffer := false, Num(0.0), false, None, 0.5;
      pushed, consumed, reports, dry := [], [], [], 0;
    }

    method OnFlush()
      modifies this
      ensures View() == Flushed(old(View()))
    {
      DropAudio();
      ResetFades();
    }

    method DropAudio()
      modifies `queue, `pos, `started, `firstChunkAt, `pushed, `consumed, `dry
      ensures queue == [] && pos == 0 && !started && firstChunkAt.None?
      ensures pushed == [] && consumed == [] && dry == 0
    {
      queue, pos, started, firstChunkAt := [], 0, false, None;
      pushed, consumed, dry := [], [], 0;
    }

    method ResetFades()
      modifies `fadeIn, `fadeOut, `wasStarved, `last, `reportedUnderrun, `reports
      ensures fadeIn == 0 && fadeOut == 0 && !wasStarved && last == Num(0.0) && !reportedUnderrun && reports == []
    {
      fadeIn, fadeOut, wasStarved, last := 0, 0, false, Num(0.0);
      reportedUnderrun, reports := false, [];
    }

    /** A binary message: decode PCM16, resample, queue unless empty. */
    method OnChunk(bytes: seq<byte>, rate: real, now: real)
      requires rate > 0.0
      modifies this
      ensures View() == Queued(old(View()), Samples(bytes, rate), now)
    {
      if firstChunkAt.None? {
        firstChunkAt := Some(now);
      }
      var pcm := ToFloats(bytes);
      var out := ResampleCubic(pcm, SPEECH_RATE, rate);
      if out.Length > 0 {
        queue := queue + [out[..]];
        pushed := pushed + out[..];
      }
    }

    static method ToFloats(bytes: seq<byte>) returns (pcm: array<real>)
      ensures pcm[..] == Floats(bytes)
      ensures fresh(pcm)
    {
      pcm := new real[|bytes| / 2];
      var i, j := 0, 0;
      while j + 1 < |bytes|
        invariant j == 2 * i && 0 <= i <= pcm.Length
        invariant forall k | 0 <= k < i :: pcm[k] == Floats(bytes)[k]
      {
        pcm[i] := Pcm.Sample(bytes[j], bytes[j + 1]) as real / 32768.0;
        assert Floats(bytes)[i] == Decode(bytes)[i] as real / 32768.0;
        i, j := i + 1, j + 2;
      }
    }

    method DropSpentChunks()
      modifies this
      ensures View() == DropSpent(old(View()))
    {
      while queue != [] && pos >= |queue[0]|
        invariant DropSpent(View()) == DropSpent(old(View()))
        decreases |queue|
      {
        queue := queue[1..];
        pos := 0;
      }
    }

    /** One output sample of the render loop. */
    method NextSample() returns (s: Sample, starved: bool)
      requires fadeInLen != 0
      modifies this
      ensures (View(), s) == Tick(old(View()))
      ensures starved <==> DropSpent(old(View())).queue == []
    {
      DropSpentKeeps(View());
      DropSpentChunks();
      starved := queue == [];
      if starved {
        s := FadeLast();
      } else {
        s := TakeNext();
      }
    }

    method FadeLast() returns (s: Sample)
      modifies `wasStarved, `fadeOut, `dry
      ensures (View(), s) == Starve(old(View()))
    {
      wasStarved := true;
      dry := dry + 1;
      s := Scale(last, FadeGain(fadeOut));
      if fadeOut < STARVE_FADE {
        fadeOut := fadeOut + 1;
      }
    }

    method TakeNext() returns (s: Sample)
      requires queue != [] && pos < |queue[0]| && fadeInLen != 0
      modifies this
      ensures (View(), s) == Play(old(View()))
    {
      if wasStarved {
        wasStarved := false;
        fadeOut := 0;
        fadeIn := STARVE_FADE;
        fadeInLen := STARVE_FADE;
      }
      s := queue[0][pos];
      consumed := consumed + [s];
      pos := pos + 1;
      if fadeIn > 0 {
        s := Scale(s, 1.0 - fadeIn as real / fadeInLen as real);
        fadeIn := fadeIn - 1;
      }
      last := s;
    }

    method QueuedSamples() returns (queued: nat)
      ensures queued == QueuedLength(queue)
    {
      queued := 0;
      for i := 0 to |queue|
        invariant queued == |Flatten(queue[..i])|
      {
        assert queue[..i + 1][..i] == queue[..i];
        queued := queued + |queue[i]|;
      }
      assert queue[..|queue|] == queue;
    }

    /** The start latch at the top of `process`. */
    method HoldBack(rate: real, now: real) returns (hold: bool)
      modifies this
      ensures hold == Holds(old(View()), rate, now)
      ensures View() == if hold then old(View()) else Started(old(View()))
    {
      hold := false;
      if !started {
        var queued := QueuedSamples();
        var target := rate * preBuffer;
        var escape := firstChunkAt.Some? && now - firstChunkAt.value > 1.2 && queued as real > 0.1 * rate;
        if queued as real < target && !escape {
          return true;
        }
        started := true;
        fadeIn := START_FADE;
        fadeInLen := START_FADE;
      }
    }

    method RaiseCushion(starved: bool)
      modifies this
      ensures View() == Cushioned(old(View()), starved)
    {
      if starved {
        preBuffer := if CUSHION_MAX <= preBuffer * 1.25 then CUSHION_MAX else preBuffer * 1.25;
        if !reportedUnderrun {
          reportedUnderrun := true;
          reports := reports + [Millis(preBuffer)];
        }
      }
    }

    method Process(out: array<Sample>, rate: real, now: real)
      requires fadeInLen != 0
      modifies this, out
      ensures (View(), out[..]) == Processed(old(View()), out.Length, rate, now)
    {
      var hold := HoldBack(rate, now);
      if hold {
        for i := 0 to out.Length
          modifies out
          invariant forall k | 0 <= k < i :: out[k] == Num(0.0)
        {
          out[i] := Num(0.0);
        }
        assert out[..] == Silence(out.Length);
        return;
      }
      var starved := false;
      ghost var begun := View();
      for i := 0 to out.Length
        modifies this, out
        invariant fadeInLen != 0
        invariant (View(), out[..i], starved) == Ticks(begun, i)
      {
        TicksOneMore(begun, i);
        var s, dry := NextSample();
        starved := starved || dry;
        out[i] := s;
        assert out[..i + 1] == out[..i] + [s];
      }
      assert out[..out.Length] == out[..];
      RaiseCushion(starved);
    }
  }
}
