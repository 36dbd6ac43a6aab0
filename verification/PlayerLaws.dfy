/** Whole-run laws of the PCM player. */
module PlayerLaws {
  import opened Common
  import opened Pcm
  import opened Resampler
  import opened Player

  // ---- conservation --------------------------------------------------------------------

  /** The samples of a queue not read yet. */
  function Unread(queue: seq<seq<Sample>>, pos: nat): seq<Sample> {
    if queue == [] || pos > |queue[0]| then [] else queue[0][pos..] + Flatten(queue[1..])
  }

  function Remaining(p: Player): seq<Sample> {
    Unread(p.queue, p.pos)
  }

  lemma UnreadPush(queue: seq<seq<Sample>>, pos: nat, samples: seq<Sample>)
    requires if queue == [] then pos == 0 else pos <= |queue[0]|
    ensures Unread(queue + [samples], pos) == Unread(queue, pos) + samples
  {
    var more := queue + [samples];
    if queue == [] {
      assert more == [samples] && more[1..] == [];
    } else {
      assert more[1..] == queue[1..] + [samples];
      assert (queue[1..] + [samples])[..|queue| - 1] == queue[1..];
    }
  }

  ghost predicate Conserved(p: Player) {
    && (p.queue == [] ==> p.pos == 0)
    && (p.queue != [] ==> p.pos <= |p.queue[0]|)
    && p.pushed == p.consumed + Remaining(p)
    && (!p.started ==> p.pos == 0 && p.consumed == [])
  }

  lemma RemainingOfUnread(p: Player)
    requires p.pos == 0
    ensures Remaining(p) == Flatten(p.queue)
  {
    if p.queue != [] {
      FlattenCons(p.queue[0], p.queue[1..]);
      assert p.queue == [p.queue[0]] + p.queue[1..];
    }
  }

  lemma {:induction false} DropSpentRemaining(p: Player)
    requires p.queue == [] ==> p.pos == 0
    requires p.queue != [] ==> p.pos <= |p.queue[0]|
    ensures var q := DropSpent(p);
      && Remaining(q) == Remaining(p)
      && (q.queue == [] ==> q.pos == 0)
      && (q.queue == [] <==> Remaining(p) == [])
    decreases |p.queue|
  {
    if p.queue != [] && p.pos >= |p.queue[0]| {
      var q := p.(queue := p.queue[1..], pos := 0);
      RemainingOfUnread(q);
      DropSpentRemaining(q);
    }
  }

  /** One output sample: it takes the next queued sample if there is one, and none otherwise. */
  lemma TickConserves(p: Player)
    requires p.fadeInLen != 0 && p.started && Conserved(p)
    ensures var q := Tick(p).0;
      && Conserved(q) && q.started && q.pushed == p.pushed
      && (if Remaining(p) == [] then Remaining(q) == [] && q.consumed == p.consumed
          else Remaining(q) == Remaining(p)[1..] && q.consumed == p.consumed + [Remaining(p)[0]])
  {
    var d := DropSpent(p);
    DropSpentKeeps(p);
    DropSpentRemaining(p);
    if d.queue != [] {
      var rest := d.queue[0][d.pos..];
      assert rest == [d.queue[0][d.pos]] + d.queue[0][d.pos + 1..];
      assert Remaining(p) == [d.queue[0][d.pos]] + (d.queue[0][d.pos + 1..] + Flatten(d.queue[1..]));
    }
  }

  function MinNat(a: nat, b: nat): nat {
    if a < b then a else b
  }

  /** `taken` and `left` after k samples were requested of `all`. */
  ghost predicate TookUpTo(all: seq<Sample>, taken: seq<Sample>, left: seq<Sample>, k: nat) {
    taken == all[..MinNat(k, |all|)] && left == all[MinNat(k, |all|)..]
  }

  lemma TakeOneMore(all: seq<Sample>, taken: seq<Sample>, left: seq<Sample>, k: nat)
    requires TookUpTo(all, taken, left, k)
    ensures if left == [] then TookUpTo(all, taken, left, k + 1) else TookUpTo(all, taken + [left[0]], left[1..], k + 1)
  {
    if left != [] {
      assert all[..k + 1] == all[..k] + [all[k]];
    }
  }

  /** Player q is player p after k requests for a sample. */
  ghost predicate TookFrom(p: Player, q: Player, k: nat) {
    var taken := MinNat(k, |Remaining(p)|);
    && Conserved(q) && q.started && q.pushed == p.pushed
    && q.consumed == p.consumed + Remaining(p)[..taken]
    && Remaining(q) == Remaining(p)[taken..]
  }

  lemma TookOneMore(p: Player, q: Player, r: Player, k: nat)
    requires TookFrom(p, q, k)
    requires Conserved(r) && r.started && r.pushed == q.pushed
    requires if Remaining(q) == [] then Remaining(r) == [] && r.consumed == q.consumed
             else Remaining(r) == Remaining(q)[1..] && r.consumed == q.consumed + [Remaining(q)[0]]
    ensures TookFrom(p, r, k + 1)
  {
    var taken := Remaining(p)[..MinNat(k, |Remaining(p)|)];
    TakeOneMore(Remaining(p), taken, Remaining(q), k);
    if Remaining(q) != [] {
      assert p.consumed + taken + [Remaining(q)[0]] == p.consumed + (taken + [Remaining(q)[0]]);
    }
  }

  /** n output samples take exactly the next n queued samples, or all there are. */
  lemma {:induction false} TicksConserve(p: Player, n: nat)
    requires p.fadeInLen != 0 && p.started && Conserved(p)
    ensures TookFrom(p, Ticks(p, n).0, n)
  {
    if n > 0 {
      TicksConserve(p, n - 1);
      TickConserves(Ticks(p, n - 1).0);
      TookOneMore(p, Ticks(p, n - 1).0, Ticks(p, n).0, n - 1);
    }
  }

  lemma PushConserves(p: Player, samples: seq<Sample>, now: real)
    requires Conserved(p)
    ensures var q := Queued(p, samples, now);
      Conserved(q) && q.pushed == p.pushed + samples && Remaining(q) == Remaining(p) + samples
  {
    if samples == [] {
      assert p.pushed + samples == p.pushed && Remaining(p) + samples == Remaining(p);
    } else {
      UnreadPush(p.queue, p.pos, samples);
      assert p.consumed + Remaining(p) + samples == p.consumed + (Remaining(p) + samples);
    }
  }

  lemma CushionConserves(p: Player, starved: bool)
    requires Conserved(p)
    ensures Conserved(Cushioned(p, starved)) && Cushioned(p, starved).started == p.started
  {
  }

  lemma ProcessConserves(p: Player, n: nat, rate: real, now: real)
    requires p.fadeInLen != 0 && Conserved(p)
    ensures Conserved(Processed(p, n, rate, now).0)
  {
    if !Holds(p, rate, now) {
      var (q, _, starved) := Ticks(Started(p), n);
      TicksConserve(Started(p), n);
      CushionConserves(q, starved);
    }
  }

  lemma StepConserves(p: Player, e: Event, rate: real)
    requires p.fadeInLen != 0 && Conserved(p)
    ensures Conserved(Next(p, e, rate).0)
  {
    match e
    case Flush =>
    case Chunk(samples, now) => PushConserves(p, samples, now);
    case Process(n, now) => ProcessConserves(p, n, rate, now);
  }

  /** Conservation: over any interleaving of chunks, flushes and render quanta, the samples taken
      since the last flush followed by the samples still queued are all the samples pushed, in
      order; and nothing is taken before the start latch. */
  lemma {:induction false} NothingLostNothingRepeated(events: seq<Event>, rate: real)
    ensures var p := Run(Init(), events, rate).0;
      && p.pushed == p.consumed + Remaining(p)
      && (!p.started ==> p.consumed == [])
      && Conserved(p)
  {
    if events != [] {
      NothingLostNothingRepeated(events[..|events| - 1], rate);
      StepConserves(Run(Init(), events[..|events| - 1], rate).0, events[|events| - 1], rate);
    }
  }

  /** Once started there is no re-buffering: a quantum of n samples takes min(n, queued) samples. */
  lemma {:induction false} PlaysThroughHiccups(events: seq<Event>, n: nat, now: real, rate: real)
    requires Run(Init(), events, rate).0.started
    ensures var p := Run(Init(), events, rate).0; var q := Next(p, Process(n, now), rate).0;
      q.started && q.consumed == p.consumed + Remaining(p)[..MinNat(n, |Remaining(p)|)]
  {
    NothingLostNothingRepeated(events, rate);
    TicksConserve(Run(Init(), events, rate).0, n);
  }

  // ---- what is queued gets played ------------------------------------------------------------------

  ghost predicate OnlyQuanta(events: seq<Event>) {
    forall e | e in events :: e.Process?
  }

  /** The samples a run of quanta asks for. */
  function Requested(events: seq<Event>): nat {
    if events == [] then 0
    else Requested(events[..|events| - 1]) + (if events[|events| - 1].Process? then events[|events| - 1].n else 0)
  }

  lemma TookMore(p: Player, q: Player, r: Player, k: nat, n: nat)
    requires TookFrom(p, q, k) && TookFrom(q, r, n)
    ensures TookFrom(p, r, k + n)
  {
    var all := Remaining(p);
    var a, b := MinNat(k, |all|), MinNat(n, |Remaining(q)|);
    assert all[a..][..b] == all[a..a + b] && all[a..][b..] == all[a + b..];
    assert p.consumed + all[..a] + all[a..a + b] == p.consumed + all[..a + b] by {
      assert all[..a] + all[a..a + b] == all[..a + b];
    }
  }

  lemma QuantumTakes(p: Player, n: nat, rate: real, now: real)
    requires p.fadeInLen != 0 && p.started && Conserved(p)
    ensures TookFrom(p, Processed(p, n, rate, now).0, n)
  {
    var (q, _, starved) := Ticks(p, n);
    TicksConserve(p, n);
    CushionConserves(q, starved);
    CushionKeepsSamples(q, starved);
  }

  lemma CushionKeepsSamples(p: Player, starved: bool)
    ensures var q := Cushioned(p, starved);
      q.consumed == p.consumed && q.pushed == p.pushed && Remaining(q) == Remaining(p)
  {
  }

  lemma TookNothing(p: Player)
    requires p.started && Conserved(p)
    ensures TookFrom(p, p, 0)
  {
    assert p.consumed + Remaining(p)[..0] == p.consumed && Remaining(p)[0..] == Remaining(p);
  }

  lemma TookAll(p: Player, q: Player, k: nat)
    requires TookFrom(p, q, k) && k >= |Remaining(p)|
    ensures q.consumed == p.consumed + Remaining(p) && Remaining(q) == []
  {
    assert MinNat(k, |Remaining(p)|) == |Remaining(p)|;
    assert Remaining(p)[..|Remaining(p)|] == Remaining(p);
  }

  lemma {:induction false} QuantaTake(p: Player, events: seq<Event>, rate: real)
    requires p.fadeInLen != 0 && p.started && Conserved(p) && OnlyQuanta(events)
    ensures TookFrom(p, Run(p, events, rate).0, Requested(events))
  {
    if events == [] {
      TookNothing(p);
    } else {
      var front, last := events[..|events| - 1], events[|events| - 1];
      assert last in events && forall e | e in front :: e in events;
      QuantaTake(p, front, rate);
      var q := Run(p, front, rate).0;
      QuantumTakes(q, last.n, rate, last.now);
      TookMore(p, q, Processed(q, last.n, rate, last.now).0, Requested(front), last.n);
    }
  }

  /** A started player that gets neither a flush nor a chunk plays on: over any quanta it takes as many of the
      queued samples, in order, as they ask for, so all of them once they ask for that many. */
  lemma {:induction false} QueuedSpeechIsPlayed(p: Player, events: seq<Event>, rate: real)
    requires p.fadeInLen != 0 && p.started && Conserved(p) && OnlyQuanta(events)
    ensures TookFrom(p, Run(p, events, rate).0, Requested(events))
    ensures var q := Run(p, events, rate).0;
      Requested(events) >= |Remaining(p)| ==> q.consumed == p.consumed + Remaining(p) && Remaining(q) == []
  {
    QuantaTake(p, events, rate);
    if Requested(events) >= |Remaining(p)| { TookAll(p, Run(p, events, rate).0, Requested(events)); }
  }

  ghost predicate Silent(outs: seq<Sample>) {
    forall i | 0 <= i < |outs| :: outs[i] == Num(0.0)
  }

  lemma NothingQueuedHolds(p: Player, rate: real, now: real)
    requires rate > 0.0 && p.preBuffer >= 0.5 && !p.started && p.queue == []
    ensures Holds(p, rate, now)
  {
    ProductLess(0.0, rate, p.preBuffer);
  }

  /** A flush, and only that, ends playback at once: every quantum after it is silent until the next chunk. */
  lemma {:induction false} FlushSilences(p: Player, events: seq<Event>, rate: real)
    requires rate > 0.0 && p.fadeInLen != 0 && p.preBuffer >= 0.5 && OnlyQuanta(events)
    ensures var (q, outs) := Run(Flushed(p), events, rate); q == Flushed(p) && Silent(outs)
  {
    if events != [] {
      var front, last := events[..|events| - 1], events[|events| - 1];
      assert last in events && forall e | e in front :: e in events;
      FlushSilences(p, front, rate);
      NothingQueuedHolds(Flushed(p), rate, last.now);
    }
  }

  // ---- gains ----------------------------------------------------------------------------------

  /** Every ramp counter is in range, so every gain is in [0, 1]; and the cushion is in range. */
  ghost predicate RampsOk(p: Player) {
    && 0 <= p.fadeIn <= p.fadeInLen && p.fadeInLen >= 1
    && 0 <= p.fadeOut <= STARVE_FADE
    && (!p.wasStarved ==> p.fadeOut == 0)
    && 0.5 <= p.preBuffer <= CUSHION_MAX
  }

  /** A number of magnitude at most m, or also a NaN if those may come. */
  ghost predicate Fits(s: Sample, m: real, nan: bool) {
    if s.Num? then Abs(s.v) <= m else nan
  }

  ghost predicate AllFit(samples: seq<Sample>, m: real, nan: bool) {
    forall i | 0 <= i < |samples| :: Fits(samples[i], m, nan)
  }

  lemma ScaleFits(s: Sample, g: real, m: real, nan: bool)
    requires Fits(s, m, nan) && 0.0 <= g <= 1.0
    ensures Fits(Scale(s, g), m, nan)
  {
    if s.Num? {
      ProductSign(1.0 - g, Abs(s.v));
      ProductSign(g, Abs(s.v));
      AbsProduct(s.v, g);
    }
  }

  lemma RatioInUnit(a: int, b: int)
    requires 0 <= a <= b && b >= 1
    ensures 0.0 <= a as real / b as real <= 1.0
  {
  }

  lemma StarveLaw(p: Player, m: real, nan: bool)
    requires RampsOk(p) && Fits(p.last, m, nan)
    ensures var (q, out) := Starve(p); RampsOk(q) && Fits(q.last, m, nan) && Fits(out, m, nan)
  {
    RatioInUnit(p.fadeOut, STARVE_FADE);
    ScaleFits(p.last, FadeGain(p.fadeOut), m, nan);
  }

  lemma PlayLaw(p: Player, m: real, nan: bool)
    requires RampsOk(p) && p.queue != [] && p.pos < |p.queue[0]| && Fits(p.queue[0][p.pos], m, nan)
    ensures var (q, out) := Play(p); RampsOk(q) && Fits(q.last, m, nan) && Fits(out, m, nan)
  {
    RatioInUnit(p.fadeIn, p.fadeInLen);
    RatioInUnit(STARVE_FADE, STARVE_FADE);
    var raw := p.queue[0][p.pos];
    ScaleFits(raw, 1.0 - p.fadeIn as real / p.fadeInLen as real, m, nan);
    ScaleFits(raw, 1.0 - STARVE_FADE as real / STARVE_FADE as real, m, nan);
  }

  ghost predicate Calm(p: Player, m: real, nan: bool) {
    Conserved(p) && RampsOk(p) && Fits(p.last, m, nan) && AllFit(p.pushed, m, nan)
  }

  lemma TickCalm(p: Player, m: real, nan: bool)
    requires p.started && Calm(p, m, nan)
    ensures var (q, out) := Tick(p); q.started && Calm(q, m, nan) && Fits(out, m, nan)
  {
    TickConserves(p);
    DropSpentKeeps(p);
    DropSpentRemaining(p);
    var d := DropSpent(p);
    if d.queue == [] {
      StarveLaw(d, m, nan);
    } else {
      assert Remaining(p)[0] == d.queue[0][d.pos];
      assert p.pushed[|p.consumed|] == Remaining(p)[0];
      PlayLaw(d, m, nan);
    }
  }

  lemma {:induction false} TicksCalm(p: Player, n: nat, m: real, nan: bool)
    requires p.started && Calm(p, m, nan)
    ensures var (q, outs, _) := Ticks(p, n); q.started && Calm(q, m, nan) && AllFit(outs, m, nan)
  {
    if n > 0 {
      TicksCalm(p, n - 1, m, nan);
      TickCalm(Ticks(p, n - 1).0, m, nan);
    }
  }

  lemma CushionLaw(p: Player, starved: bool)
    requires RampsOk(p)
    ensures var q := Cushioned(p, starved); RampsOk(q) && q.preBuffer >= p.preBuffer
  {
  }

  lemma CushionCalm(p: Player, starved: bool, m: real, nan: bool)
    requires Calm(p, m, nan)
    ensures Calm(Cushioned(p, starved), m, nan)
  {
    CushionConserves(p, starved);
    CushionLaw(p, starved);
  }

  lemma ProcessCalm(p: Player, n: nat, rate: real, now: real, m: real, nan: bool)
    requires m >= 0.0 && Calm(p, m, nan)
    ensures Calm(Processed(p, n, rate, now).0, m, nan) && AllFit(Processed(p, n, rate, now).1, m, nan)
  {
    if !Holds(p, rate, now) {
      var (q, _, starved) := Ticks(Started(p), n);
      TicksCalm(Started(p), n, m, nan);
      CushionCalm(q, starved, m, nan);
    }
  }

  lemma PushCalm(p: Player, samples: seq<Sample>, now: real, m: real, nan: bool)
    requires Calm(p, m, nan) && AllFit(samples, m, nan)
    ensures Calm(Queued(p, samples, now), m, nan)
  {
    PushConserves(p, samples, now);
    AllFitAppend(p.pushed, samples, m, nan);
  }

  lemma AllFitAppend(a: seq<Sample>, b: seq<Sample>, m: real, nan: bool)
    requires AllFit(a, m, nan) && AllFit(b, m, nan)
    ensures AllFit(a + b, m, nan)
  {
  }

  lemma StepCalm(p: Player, e: Event, rate: real, m: real, nan: bool)
    requires m >= 0.0 && Calm(p, m, nan)
    requires e.Chunk? ==> AllFit(e.samples, m, nan)
    ensures Calm(Next(p, e, rate).0, m, nan) && AllFit(Next(p, e, rate).1, m, nan)
  {
    match e
    case Flush =>
    case Chunk(samples, now) => PushCalm(p, samples, now, m, nan);
    case Process(n, now) => ProcessCalm(p, n, rate, now, m, nan);
  }

  ghost predicate ChunksFit(events: seq<Event>, m: real, nan: bool) {
    forall e | e in events && e.Chunk? :: AllFit(e.samples, m, nan)
  }

  /** The gain law: in every run, no output is louder than the loudest sample pushed, fades and
      starvation included. */
  lemma {:induction false} NeverLouderThanInput(events: seq<Event>, rate: real, m: real, nan: bool)
    requires m >= 0.0 && ChunksFit(events, m, nan)
    ensures Calm(Run(Init(), events, rate).0, m, nan)
    ensures AllFit(Run(Init(), events, rate).1, m, nan)
  {
    if events != [] {
      var front, last := events[..|events| - 1], events[|events| - 1];
      assert forall e | e in front :: e in events;
      NeverLouderThanInput(front, rate, m, nan);
      StepCalm(Run(Init(), front, rate).0, last, rate, m, nan);
    }
  }

  /** The chunk is what the player makes of a PCM16 message. */
  ghost predicate FromPcm(e: Event, rate: real)
    requires rate > 0.0
  {
    e.Chunk? ==> exists bytes: seq<byte> :: e.samples == Samples(bytes, rate)
  }

  /** And the message holds a sample, or needs no resampling. */
  ghost predicate FromWholeSamples(e: Event, rate: real)
    requires rate > 0.0
  {
    e.Chunk? ==> exists bytes: seq<byte> :: e.samples == Samples(bytes, rate) && (|bytes| >= 2 || rate == SPEECH_RATE)
  }

  lemma FloatsInUnit(bytes: seq<byte>)
    ensures forall i | 0 <= i < |Floats(bytes)| :: Abs(Floats(bytes)[i]) <= 1.0
  {
    forall i | 0 <= i < |Floats(bytes)| ensures Abs(Floats(bytes)[i]) <= 1.0 {
      SampleRange(bytes[2 * i], bytes[2 * i + 1]);
    }
  }

  lemma MessageFits(bytes: seq<byte>, rate: real, nan: bool)
    requires rate > 0.0 && (nan || |bytes| >= 2 || rate == SPEECH_RATE)
    ensures AllFit(Samples(bytes, rate), 1.25, nan)
  {
    var pcm := Floats(bytes);
    FloatsInUnit(bytes);
    if pcm != [] {
      OutputBound(pcm, SPEECH_RATE, rate, 1.0);
    }
  }

  /** Whatever the context's sample rate and however PCM16 messages, flushes and quanta interleave, every
      number the speakers get is in [-5/4, 5/4]; and they get only numbers if every message holds a
      whole sample, or the context runs at the speech rate. */
  lemma {:induction false} OutputStaysInRange(events: seq<Event>, rate: real)
    requires rate > 0.0 && forall e | e in events :: FromPcm(e, rate)
    ensures AllFit(Run(Init(), events, rate).1, 1.25, true)
    ensures (forall e | e in events :: FromWholeSamples(e, rate)) ==> AllFit(Run(Init(), events, rate).1, 1.25, false)
  {
    forall e | e in events && e.Chunk? ensures AllFit(e.samples, 1.25, true) {
      assert FromPcm(e, rate);
      var bytes: seq<byte> :| e.samples == Samples(bytes, rate);
      MessageFits(bytes, rate, true);
    }
    NeverLouderThanInput(events, rate, 1.25, true);
    if forall e | e in events :: FromWholeSamples(e, rate) {
      forall e | e in events && e.Chunk? ensures AllFit(e.samples, 1.25, false) {
        assert FromWholeSamples(e, rate);
        var bytes: seq<byte> :| e.samples == Samples(bytes, rate) && (|bytes| >= 2 || rate == SPEECH_RATE);
        MessageFits(bytes, rate, false);
      }
      NeverLouderThanInput(events, rate, 1.25, false);
    }
  }

  // ---- samples that are not numbers -------------------------------------------------------------------

  ghost predicate LastOk(p: Player) {
    p.last.NaN? ==> NaN in p.consumed
  }

  /** One output sample is not a number exactly if a NaN was taken for it, or fades after one. */
  lemma TickNaN(p: Player)
    requires p.fadeInLen != 0 && LastOk(p)
    ensures var (q, out) := Tick(p); LastOk(q) && (NaN in q.consumed <==> NaN in p.consumed || out.NaN?)
  {
    DropSpentKeeps(p);
  }

  lemma {:induction false} TicksNaN(p: Player, n: nat)
    requires p.fadeInLen != 0 && LastOk(p)
    ensures var (q, outs, _) := Ticks(p, n); LastOk(q) && (NaN in q.consumed <==> NaN in p.consumed || NaN in outs)
  {
    if n > 0 {
      TicksNaN(p, n - 1);
      TickNaN(Ticks(p, n - 1).0);
    }
  }

  lemma StepNaN(p: Player, e: Event, rate: real)
    requires p.fadeInLen != 0 && LastOk(p)
    ensures var (q, outs) := Next(p, e, rate);
      LastOk(q) && (e.Flush? || (NaN in q.consumed <==> NaN in p.consumed || NaN in outs)) && (e.Flush? ==> outs == [])
  {
    match e
    case Flush =>
    case Chunk(_, _) =>
    case Process(n, now) =>
      if !Holds(p, rate, now) { TicksNaN(Started(p), n); }
  }

  /** At some point of the run the samples taken since the last flush contained a NaN. */
  predicate TookNaN(events: seq<Event>, rate: real) {
    events != [] && (TookNaN(events[..|events| - 1], rate) || NaN in Run(Init(), events, rate).0.consumed)
  }

  lemma {:induction false} SpoiledSoFar(events: seq<Event>, rate: real)
    ensures var (p, outs) := Run(Init(), events, rate);
      && LastOk(p) && (NaN in p.consumed ==> TookNaN(events, rate))
      && (NaN in outs <==> TookNaN(events, rate))
  {
    if events != [] {
      var front := events[..|events| - 1];
      SpoiledSoFar(front, rate);
      StepNaN(Run(Init(), front, rate).0, events[|events| - 1], rate);
    }
  }

  /** In every run the speakers get a sample that is not a number exactly if one was taken from the queue. */
  lemma {:induction false} OutputHasNaNIff(events: seq<Event>, rate: real)
    ensures NaN in Run(Init(), events, rate).1 <==> TookNaN(events, rate)
  {
    SpoiledSoFar(events, rate);
  }

  /** A message queues a sample that is not a number exactly when it holds no whole sample and the
      context does not run at the speech rate. */
  lemma MessageQueuesNaNIff(bytes: seq<byte>, rate: real)
    requires rate > 0.0
    ensures NaN in Samples(bytes, rate) <==> |bytes| < 2 && rate != SPEECH_RATE
  {
    NaNIff(Floats(bytes), SPEECH_RATE, rate);
  }

  lemma ProcessRamps(p: Player, n: nat, rate: real, now: real)
    requires RampsOk(p)
    ensures var q := Processed(p, n, rate, now).0; RampsOk(q) && q.preBuffer >= p.preBuffer
  {
    if !Holds(p, rate, now) {
      var (q, _, starved) := Ticks(Started(p), n);
      TicksRamps(Started(p), n);
      CushionLaw(q, starved);
    }
  }

  /** The cushion never shrinks, across flushes too. */
  lemma {:induction false} CushionOnlyGrows(p: Player, events: seq<Event>, rate: real)
    requires RampsOk(p)
    ensures var q := Run(p, events, rate).0; RampsOk(q) && q.preBuffer >= p.preBuffer
  {
    if events != [] {
      var e := events[|events| - 1];
      CushionOnlyGrows(p, events[..|events| - 1], rate);
      if e.Process? { ProcessRamps(Run(p, events[..|events| - 1], rate).0, e.n, rate, e.now); }
    }
  }

  lemma {:induction false} TicksRamps(p: Player, n: nat)
    requires RampsOk(p)
    ensures var q := Ticks(p, n).0; RampsOk(q) && q.preBuffer == p.preBuffer
  {
    if n > 0 {
      TicksRamps(p, n - 1);
      DropSpentKeeps(Ticks(p, n - 1).0);
    }
  }

  /** Between quanta: one report exactly if the utterance starved at all, of a cushion that had just grown. */
  ghost predicate ReportsOk(p: Player) {
    && |p.reports| == (if p.dry > 0 then 1 else 0)
    && (p.reportedUnderrun <==> p.dry > 0)
    && forall ms | ms in p.reports :: 625 <= ms <= 800
  }

  lemma {:induction false} TicksReport(p: Player, n: nat)
    requires p.fadeInLen != 0
    ensures var (q, _, starved) := Ticks(p, n);
      && q.reports == p.reports && q.reportedUnderrun == p.reportedUnderrun && q.preBuffer == p.preBuffer
      && q.dry >= p.dry && (starved <==> q.dry > p.dry)
  {
    if n > 0 {
      TicksReport(p, n - 1);
      DropSpentKeeps(Ticks(p, n - 1).0);
    }
  }

  lemma GrownRange(preBuffer: real)
    requires 0.5 <= preBuffer <= CUSHION_MAX
    ensures 625 <= Millis(Grown(preBuffer)) <= 800
  {
  }

  lemma ProcessReports(p: Player, n: nat, rate: real, now: real)
    requires RampsOk(p) && ReportsOk(p)
    ensures ReportsOk(Processed(p, n, rate, now).0)
  {
    if !Holds(p, rate, now) {
      TicksReport(Started(p), n);
      GrownRange(p.preBuffer);
    }
  }

  /** In every run an utterance posts one underrun report if any of its samples starved, resumed since or
      not, and none otherwise; the report names the grown cushion, between 625 and 800 ms. */
  lemma {:induction false} OneReportPerUtterance(events: seq<Event>, rate: real)
    ensures ReportsOk(Run(Init(), events, rate).0)
  {
    if events != [] {
      var front, last := events[..|events| - 1], events[|events| - 1];
      OneReportPerUtterance(front, rate);
      CushionOnlyGrows(Init(), front, rate);
      if last.Process? { ProcessReports(Run(Init(), front, rate).0, last.n, rate, last.now); }
    }
  }

  // ---- starvation -------------------------------------------------------------------------------

  ghost predicate Dry(p: Player) {
    Conserved(p) && RampsOk(p) && p.started && Remaining(p) == []
  }

  lemma DryTick(p: Player)
    requires Dry(p)
    ensures var (q, out) := Tick(p);
      && Dry(q) && q.last == p.last && q.wasStarved
      && q.fadeOut == RampEnd(p.fadeOut + 1)
      && out == Scale(p.last, FadeGain(p.fadeOut))
      && DropSpent(p).queue == []
  {
    TickConserves(p);
    DropSpentKeeps(p);
    DropSpentRemaining(p);
  }

  function RampEnd(k: int): int {
    if k < STARVE_FADE then k else STARVE_FADE
  }

  lemma GainAtRampEnd(k: int)
    requires k >= 0
    ensures FadeGain(RampEnd(k)) == FadeGain(k)
  {
  }

  /** The samples follow the fade-out ramp of `last` from step `from` on. */
  ghost predicate OnRamp(outs: seq<Sample>, last: Sample, from: int) {
    forall k | 0 <= k < |outs| :: outs[k] == Scale(last, FadeGain(from + k))
  }

  lemma OneMoreOnRamp(outs: seq<Sample>, out: Sample, last: Sample, from: int)
    requires 0 <= from && OnRamp(outs, last, from) && out == Scale(last, FadeGain(RampEnd(from + |outs|)))
    ensures OnRamp(outs + [out], last, from)
  {
    GainAtRampEnd(from + |outs|);
  }

  lemma RampJoin(outs: seq<Sample>, more: seq<Sample>, last: Sample, from: int)
    requires 0 <= from && OnRamp(outs, last, from) && OnRamp(more, last, RampEnd(from + |outs|))
    ensures OnRamp(outs + more, last, from)
  {
    forall k | 0 <= k < |more| ensures more[k] == Scale(last, FadeGain(from + |outs| + k)) {
      GainAtRampEnd(from + |outs| + k);
      GainAtRampEnd(RampEnd(from + |outs|) + k);
    }
    forall k | 0 <= k < |outs + more| ensures (outs + more)[k] == Scale(last, FadeGain(from + k)) {
      if k >= |outs| {
        assert (outs + more)[k] == more[k - |outs|];
      }
    }
  }

  lemma {:induction false} StarvationLasts(p: Player, n: nat)
    requires Dry(p)
    ensures var (q, _, starved) := Ticks(p, n);
      && Dry(q) && q.last == p.last && (starved <==> n > 0)
      && q.fadeOut == RampEnd(p.fadeOut + n)
      && (n > 0 ==> q.wasStarved)
  {
    if n > 0 {
      StarvationLasts(p, n - 1);
      DryTick(Ticks(p, n - 1).0);
    }
  }

  /** n starved samples: the last sample under a ramp that goes on from where it was. */
  lemma {:induction false} StarvationRamp(p: Player, n: nat)
    requires Dry(p)
    ensures OnRamp(Ticks(p, n).1, p.last, p.fadeOut)
  {
    if n > 0 {
      StarvationRamp(p, n - 1);
      StarvationLasts(p, n - 1);
      var (q, outs, _) := Ticks(p, n - 1);
      DryTick(q);
      OneMoreOnRamp(outs, Tick(q).1, p.last, p.fadeOut);
      assert Ticks(p, n).1 == outs + [Tick(q).1];
    }
  }

  /** One starved quantum goes on with the ramp and leaves the player dry. */
  lemma DryQuantum(p: Player, n: nat, rate: real, now: real)
    requires Dry(p)
    ensures var (q, outs) := Processed(p, n, rate, now);
      && Dry(q) && q.last == p.last && |outs| == n
      && q.fadeOut == RampEnd(p.fadeOut + n)
      && OnRamp(outs, p.last, p.fadeOut)
  {
    StarvationLasts(p, n);
    StarvationRamp(p, n);
    assert Started(p) == p;
  }

  /** Across any split into render quanta the fade-out is one ramp: the k-th starved sample is the
      last played sample times 1 - k/48, then silence. */
  lemma {:induction false} FadeOutSpansQuanta(p: Player, events: seq<Event>, rate: real)
    requires Dry(p) && !p.wasStarved && OnlyQuanta(events)
    ensures var (q, outs) := Run(p, events, rate);
      && Dry(q) && q.last == p.last
      && q.fadeOut == RampEnd(|outs|)
      && OnRamp(outs, p.last, 0)
  {
    if events != [] {
      var front, e := events[..|events| - 1], events[|events| - 1];
      assert forall x | x in front :: x in events;
      assert e in events;
      FadeOutSpansQuanta(p, front, rate);
      var (q, outs) := Run(p, front, rate);
      DryQuantum(q, e.n, rate, e.now);
      RampJoin(outs, Processed(q, e.n, rate, e.now).1, p.last, 0);
    }
  }

  // ---- fading in ----------------------------------------------------------------------------------

  /** A sample with `left` of the `len` steps of a fade-in still to go. */
  function FadedIn(raw: Sample, left: int, len: int): Sample
    requires len >= 1
  {
    if left > 0 then Scale(raw, 1.0 - left as real / len as real) else raw
  }

  /** The samples are the queued ones, in order, under a fade-in with `left` of `len` steps to go. */
  ghost predicate OnFadeIn(outs: seq<Sample>, queued: seq<Sample>, left: int, len: int)
    requires len >= 1
  {
    |outs| <= |queued| && forall k | 0 <= k < |outs| :: outs[k] == FadedIn(queued[k], left - k, len)
  }

  lemma FadeInPlay(p: Player)
    requires RampsOk(p) && !p.wasStarved && p.queue != [] && p.pos < |p.queue[0]|
    ensures var (q, out) := Play(p);
      && out == FadedIn(p.queue[0][p.pos], p.fadeIn, p.fadeInLen)
      && q.fadeIn == Max(p.fadeIn - 1, 0) && q.fadeInLen == p.fadeInLen
      && !q.wasStarved && RampsOk(q) && q.last == out
  {
  }

  lemma FadeInTick(p: Player)
    requires Conserved(p) && RampsOk(p) && p.started && !p.wasStarved && Remaining(p) != []
    ensures var (q, out) := Tick(p);
      && out == FadedIn(Remaining(p)[0], p.fadeIn, p.fadeInLen)
      && q.fadeIn == Max(p.fadeIn - 1, 0) && q.fadeInLen == p.fadeInLen
      && !q.wasStarved && RampsOk(q) && q.last == out && DropSpent(p).queue != []
  {
    DropSpentKeeps(p);
    DropSpentRemaining(p);
    var d := DropSpent(p);
    assert Remaining(d)[0] == d.queue[0][d.pos];
    FadeInPlay(d);
  }

  lemma {:induction false} FadeInLasts(p: Player, n: nat)
    requires Conserved(p) && RampsOk(p) && p.started && !p.wasStarved && n <= |Remaining(p)|
    ensures var q := Ticks(p, n).0;
      && Conserved(q) && RampsOk(q) && q.started && !q.wasStarved
      && q.fadeIn == Max(p.fadeIn - n, 0) && q.fadeInLen == p.fadeInLen
      && Remaining(q) == Remaining(p)[n..]
  {
    TicksConserve(p, n);
    if n > 0 {
      FadeInLasts(p, n - 1);
      FadeInTick(Ticks(p, n - 1).0);
    }
  }

  lemma {:induction false} FadeInNeverStarves(p: Player, n: nat)
    requires Conserved(p) && RampsOk(p) && p.started && !p.wasStarved && n <= |Remaining(p)|
    ensures var (q, outs, starved) := Ticks(p, n); !starved && (n > 0 ==> q.last == outs[n - 1])
  {
    if n > 0 {
      FadeInNeverStarves(p, n - 1);
      FadeInLasts(p, n - 1);
      FadeInTick(Ticks(p, n - 1).0);
    }
  }

  lemma OneMoreOnFadeIn(outs: seq<Sample>, out: Sample, queued: seq<Sample>, left: int, len: int)
    requires len >= 1 && OnFadeIn(outs, queued, left, len) && |outs| < |queued|
    requires out == FadedIn(queued[|outs|], Max(left - |outs|, 0), len)
    ensures OnFadeIn(outs + [out], queued, left, len)
  {
  }

  /** As long as samples are queued, the output is the queued samples under the running fade-in. */
  lemma {:induction false} FadeInRamp(p: Player, n: nat)
    requires Conserved(p) && RampsOk(p) && p.started && !p.wasStarved && n <= |Remaining(p)|
    ensures OnFadeIn(Ticks(p, n).1, Remaining(p), p.fadeIn, p.fadeInLen)
  {
    if n > 0 {
      FadeInRamp(p, n - 1);
      FadeInLasts(p, n - 1);
      var (q, outs, _) := Ticks(p, n - 1);
      FadeInTick(q);
      var out := Tick(q).1;
      OneMoreOnFadeIn(outs, out, Remaining(p), p.fadeIn, p.fadeInLen);
    }
  }

  lemma ProcessHoldsOrStarts(p: Player, n: nat, rate: real, now: real)
    requires p.fadeInLen != 0 && Conserved(p)
    ensures var q := Processed(p, n, rate, now).0; q == p || q.started
  {
    if !Holds(p, rate, now) {
      var (q, _, starved) := Ticks(Started(p), n);
      TicksConserve(Started(p), n);
      CushionConserves(q, starved);
    }
  }

  lemma StarveStep(p: Player, e: Event, rate: real)
    requires p.fadeInLen != 0 && Conserved(p) && (!p.started ==> !p.wasStarved)
    ensures var q := Next(p, e, rate).0; !q.started ==> !q.wasStarved
  {
    match e
    case Flush =>
    case Chunk(_, _) =>
    case Process(n, now) => ProcessHoldsOrStarts(p, n, rate, now);
  }

  /** Before the start latch nothing starves. */
  lemma {:induction false} OnlyStartedPlayersStarve(events: seq<Event>, rate: real)
    ensures var p := Run(Init(), events, rate).0; !p.started ==> !p.wasStarved
  {
    if events != [] {
      var front := events[..|events| - 1];
      OnlyStartedPlayersStarve(front, rate);
      NothingLostNothingRepeated(front, rate);
      StarveStep(Run(Init(), front, rate).0, events[|events| - 1], rate);
    }
  }

  /** In every run the quantum that starts an utterance plays the samples pushed since the flush from
      the first one, the k-th of the first 96 at k/96 of its size and every later one untouched. */
  lemma {:induction false} StartFadesIn(events: seq<Event>, n: nat, rate: real, now: real)
    requires var p := Run(Init(), events, rate).0; !p.started && !Holds(p, rate, now) && n <= |p.pushed|
    ensures var p := Run(Init(), events, rate).0; OnFadeIn(Processed(p, n, rate, now).1, p.pushed, 96, 96)
  {
    var p := Run(Init(), events, rate).0;
    OnlyStartedPlayersStarve(events, rate);
    NothingLostNothingRepeated(events, rate);
    CushionOnlyGrows(Init(), events, rate);
    FadeInRamp(Started(p), n);
  }

  /** A starved player with samples queued goes on like one about to fade in over 48 samples. */
  function Resuming(p: Player): Player {
    p.(wasStarved := false, fadeOut := 0, fadeIn := STARVE_FADE, fadeInLen := STARVE_FADE)
  }

  lemma DropSpentResuming(p: Player)
    ensures DropSpent(Resuming(p)) == Resuming(DropSpent(p))
    decreases |p.queue|
  {
    if p.queue != [] && p.pos >= |p.queue[0]| {
      DropSpentResuming(p.(queue := p.queue[1..], pos := 0));
    }
  }

  lemma ResumingTick(p: Player)
    requires Conserved(p) && RampsOk(p) && p.wasStarved && Remaining(p) != []
    ensures Tick(p) == Tick(Resuming(p))
  {
    DropSpentResuming(p);
    DropSpentKeeps(p);
    DropSpentRemaining(p);
  }

  lemma {:induction false} ResumingTicks(p: Player, n: nat)
    requires Conserved(p) && RampsOk(p) && p.wasStarved && Remaining(p) != [] && n >= 1
    ensures Ticks(p, n) == Ticks(Resuming(p), n)
  {
    if n == 1 {
      ResumingTick(p);
      DropSpentResuming(p);
      assert Ticks(p, 0) == (p, [], false) && Ticks(Resuming(p), 0) == (Resuming(p), [], false);
    } else {
      ResumingTicks(p, n - 1);
    }
  }

  /** After any starvation the queued samples come back, none skipped, the k-th of the first 48 at
      k/48 of its size and every later one untouched. */
  lemma ResumeFadesIn(p: Player, n: nat)
    requires Conserved(p) && RampsOk(p) && p.started && p.wasStarved && 1 <= n <= |Remaining(p)|
    ensures OnFadeIn(Ticks(p, n).1, Remaining(p), 48, 48)
  {
    ResumingTicks(p, n);
    FadeInRamp(Resuming(p), n);
  }

  lemma FirstSampleAfterStarvation(p: Player)
    requires Conserved(p) && RampsOk(p) && p.wasStarved && Remaining(p) != [] && Remaining(p)[0].Num?
    ensures Tick(p).1 == Num(0.0)
  {
    DropSpentKeeps(p);
    DropSpentRemaining(p);
    var d := DropSpent(p);
    assert Remaining(d)[0] == d.queue[0][d.pos];
    assert STARVE_FADE as real / STARVE_FADE as real == 1.0;
    assert d.queue[0][d.pos].v * 0.0 == 0.0;
  }

  lemma LastStarvedSample(p: Player, k: nat)
    requires Dry(p) && !p.wasStarved && k >= 1
    ensures Ticks(p, k).1[k - 1] == Scale(p.last, FadeGain(k - 1))
  {
    StarvationRamp(p, k);
  }

  lemma SilentResume(p: Player, k: nat, samples: seq<Sample>, now: real)
    requires Dry(p) && k >= 1 && samples != [] && samples[0].Num?
    ensures Tick(Queued(Ticks(p, k).0, samples, now)).1 == Num(0.0)
  {
    StarvationLasts(p, k);
    var q := Ticks(p, k).0;
    PushConserves(q, samples, now);
    FirstSampleAfterStarvation(Queued(q, samples, now));
  }

  /** After k >= 1 starved samples the first resumed sample is silent, so the step at the resume is
      no larger than one step of the ramp exactly when the starvation lasted the whole ramp;
      a shorter underrun still ends in a jump. */
  lemma ResumeIsClickFreeIff(p: Player, k: nat, samples: seq<Sample>, now: real)
    requires Dry(p) && !p.wasStarved && k >= 1
    requires p.last.Num? && p.last.v != 0.0
    requires samples != [] && samples[0].Num?
    ensures var starved := Ticks(p, k).1;
            var resumed := Tick(Queued(Ticks(p, k).0, samples, now)).1;
      && resumed == Num(0.0)
      && starved[k - 1].Num?
      && (Abs(starved[k - 1].v - resumed.v) <= Abs(p.last.v) / 48.0 <==> k >= STARVE_FADE)
  {
    LastStarvedSample(p, k);
    SilentResume(p, k, samples, now);
    StepAtResume(Ticks(p, k).1[k - 1], Tick(Queued(Ticks(p, k).0, samples, now)).1, p.last.v, k);
  }

  lemma AbsProduct(x: real, g: real)
    requires g >= 0.0
    ensures Abs(x * g) == Abs(x) * g
  {
    if x >= 0.0 { ProductSign(x, g); } else { ProductSign(-x, g); assert x * g == -((-x) * g); }
  }

  // ---- a run that clicks ----------------------------------------------------------------------------

  /** A quantum that starts an utterance and asks for exactly what is queued leaves the player dry. */
  lemma StartThenDry(p: Player, n: nat, rate: real, now: real)
    requires Conserved(p) && RampsOk(p) && !p.started && !p.wasStarved && p.consumed == []
    requires !Holds(p, rate, now) && n == |p.pushed| >= 1
    ensures var (q, outs) := Processed(p, n, rate, now);
      Dry(q) && !q.wasStarved && q.last == FadedIn(p.pushed[n - 1], START_FADE - (n - 1), START_FADE)
  {
    FadeInLasts(Started(p), n);
    FadeInNeverStarves(Started(p), n);
    FadeInRamp(Started(p), n);
  }

  function Ones(n: nat): (samples: seq<Sample>)
    ensures |samples| == n && forall i | 0 <= i < n :: samples[i] == Num(1.0)
  {
    seq(n, _ => Num(1.0))
  }

  lemma CushionFull(p: Player, rate: real, now: real)
    requires rate > 0.0 && p.preBuffer == 0.5 && QueuedLength(p.queue) as real >= rate
    ensures !Holds(p, rate, now)
  {
  }

  lemma FadedOne(left: int)
    requires left < START_FADE
    ensures FadedIn(Num(1.0), left, START_FADE).Num? && FadedIn(Num(1.0), left, START_FADE).v > 0.0
  {
  }

  /** In every context there is a run that leaves the player dry after an audible sample, not yet starved. */
  lemma DryAfterSpeech(rate: real) returns (events: seq<Event>, p: Player)
    requires rate > 0.0
    ensures p == Run(Init(), events, rate).0 && Dry(p) && !p.wasStarved && p.last.Num? && p.last.v > 0.0
  {
    var n := rate.Floor + 2;
    var queued := ChunkThenQuantum(Ones(n), n, rate);
    events, p := [Chunk(Ones(n), 0.0), Process(n, 0.0)], Processed(queued, n, rate, 0.0).0;
    CushionFull(queued, rate, 0.0);
    StartThenDry(queued, n, rate, 0.0);
    FadedOne(START_FADE - (n - 1));
  }

  /** The player between a first chunk and a first quantum. */
  lemma ChunkThenQuantum(samples: seq<Sample>, n: nat, rate: real) returns (queued: Player)
    requires samples != []
    ensures queued == Queued(Init(), samples, 0.0) && queued.queue == [samples] && queued.pushed == samples
    ensures QueuedLength(queued.queue) == |samples| && Conserved(queued) && RampsOk(queued)
    ensures Run(Init(), [Chunk(samples, 0.0), Process(n, 0.0)], rate).0 == Processed(queued, n, rate, 0.0).0
  {
    var chunk, quantum := Chunk(samples, 0.0), Process(n, 0.0);
    queued := Queued(Init(), samples, 0.0);
    assert [chunk, quantum][..1] == [chunk] && [chunk][..0] == [] && [samples][..0] == [];
    assert Run(Init(), [chunk], rate).0 == queued;
    PushConserves(Init(), samples, 0.0);
  }

  /** So a click can happen: one starved sample, then speech again, is a jump of more than a ramp step. */
  lemma ClickHappens(rate: real) returns (events: seq<Event>, p: Player)
    requires rate > 0.0
    ensures p == Run(Init(), events, rate).0
    ensures var starved := Ticks(p, 1).1[0]; var resumed := Tick(Queued(Ticks(p, 1).0, [Num(1.0)], 0.0)).1;
      starved.Num? && resumed.Num? && p.last.Num? && Abs(starved.v - resumed.v) > Abs(p.last.v) / 48.0
  {
    events, p := DryAfterSpeech(rate);
    ResumeIsClickFreeIff(p, 1, [Num(1.0)], 0.0);
  }

  lemma StepAtResume(starved: Sample, resumed: Sample, last: real, k: nat)
    requires k >= 1 && last != 0.0
    requires starved == Scale(Num(last), FadeGain(k - 1)) && resumed == Num(0.0)
    ensures starved.Num?
    ensures Abs(starved.v - resumed.v) <= Abs(last) / 48.0 <==> k >= STARVE_FADE
  {
    JumpAtResume(last, k);
  }

  lemma JumpAtResume(last: real, k: nat)
    requires k >= 1 && last != 0.0
    ensures Abs(last * FadeGain(k - 1)) <= Abs(last) / 48.0 <==> k >= STARVE_FADE
  {
    var g, a := FadeGain(k - 1), Abs(last);
    AbsProduct(last, g);
    assert a / 48.0 == (1.0 / 48.0) * a;
    var jump, step := Abs(last * g), a / 48.0;
    assert jump == g * a && step == (1.0 / 48.0) * a;
    if k >= STARVE_FADE {
      ProductSign(1.0 / 48.0 - g, a);
      assert (1.0 / 48.0 - g) * a == step - jump;
    } else {
      assert g > 1.0 / 48.0 && a > 0.0;
      ProductLess(1.0 / 48.0, g, a);
      assert jump > step;
    }
  }
}
