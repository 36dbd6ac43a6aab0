/** web/audio-worklet.js:72-155, the PCM player: a queue of resampled chunks played sample by
    sample behind a start cushion, with fades around starvation. */
module Player {
  import opened Common
  import opened Pcm
  import opened Resampler

  const START_FADE: int := 96
  const STARVE_FADE: int := 48
  const CUSHION_MAX: real := 0.8
  const SPEECH_RATE: real := 24000.0

  datatype Player = Player(
    queue: seq<seq<Sample>>,
    pos: nat,                      // read position in the first chunk
    started: bool,
    fadeIn: int,
    fadeInLen: int,
    fadeOut: int,
    wasStarved: bool,
    last: Sample,
    reportedUnderrun: bool,
    firstChunkAt: Option<real>,
    preBuffer: real,
    pushed: seq<Sample>,           // history since the last flush: every sample queued
    consumed: seq<Sample>,         // history since the last flush: every sample taken, before fading
    reports: seq<int>,             // history since the last flush: the underrun messages posted
    dry: nat)                      // history since the last flush: how many samples starved

  /** A flush, a chunk of resampled samples, or a render quantum of n samples. */
  datatype Event = Flush | Chunk(samples: seq<Sample>, now: real) | Process(n: nat, now: real)

  function Init(): Player {
    Player([], 0, false, 0, 1, 0, false, Num(0.0), false, None, 0.5, [], [], [], 0)
  }

  function Scale(s: Sample, g: real): Sample {
    if s.Num? then Num(s.v * g) else NaN
  }

  // ---- messages --------------------------------------------------------------------

  function Flushed(p: Player): Player {
    Player([], 0, false, 0, p.fadeInLen, 0, false, Num(0.0), false, None, p.preBuffer, [], [], [], 0)
  }

  /** PCM16 bytes as numbers in [-1, 1). */
  function Floats(bytes: seq<byte>): (pcm: seq<real>)
    ensures |pcm| == |bytes| / 2
    ensures forall i | 0 <= i < |pcm| :: pcm[i] == Decode(bytes)[i] as real / 32768.0
  {
    seq(|bytes| / 2, i requires 0 <= i < |bytes| / 2 => Decode(bytes)[i] as real / 32768.0)
  }

  /** The samples a PCM message stands for in a context of the given rate. */
  function Samples(bytes: seq<byte>, rate: real): seq<Sample>
    requires rate > 0.0
  {
    Resampled(Floats(bytes), SPEECH_RATE, rate)
  }

  /** The message handler once the samples are computed. */
  function Queued(p: Player, samples: seq<Sample>, now: real): Player {
    var q := if p.firstChunkAt.None? then p.(firstChunkAt := Some(now)) else p;
    if samples == [] then q else q.(queue := q.queue + [samples], pushed := q.pushed + samples)
  }

  // ---- one output sample -----------------------------------------------------------------

  /** The inner while loop: drop the chunks read to their end. */
  function DropSpent(p: Player): Player
    decreases |p.queue|
  {
    if p.queue != [] && p.pos >= |p.queue[0]| then DropSpent(p.(queue := p.queue[1..], pos := 0)) else p
  }

  function FadeGain(k: int): real {
    if k < STARVE_FADE then 1.0 - k as real / STARVE_FADE as real else 0.0
  }

  /** Nothing to play: the last sample, faded. */
  function Starve(p: Player): (Player, Sample) {
    (p.(wasStarved := true, dry := p.dry + 1, fadeOut := if p.fadeOut < STARVE_FADE then p.fadeOut + 1 else p.fadeOut),
     Scale(p.last, FadeGain(p.fadeOut)))
  }

  /** The next queued sample, through the current fade-in ramp. */
  function Play(p: Player): (Player, Sample)
    requires p.queue != [] && p.pos < |p.queue[0]| && p.fadeInLen != 0
  {
    var q := if p.wasStarved
             then p.(wasStarved := false, fadeOut := 0, fadeIn := STARVE_FADE, fadeInLen := STARVE_FADE) else p;
    var raw := q.queue[0][q.pos];
    var s := if q.fadeIn > 0 then Scale(raw, 1.0 - q.fadeIn as real / q.fadeInLen as real) else raw;
    (q.(pos := q.pos + 1, fadeIn := if q.fadeIn > 0 then q.fadeIn - 1 else q.fadeIn, last := s,
        consumed := q.consumed + [raw]), s)
  }

  function Tick(p: Player): (Player, Sample)
    requires p.fadeInLen != 0
  {
    var q := DropSpent(p);
    DropSpentKeeps(p);
    if q.queue == [] then Starve(q) else Play(q)
  }

  lemma DropSpentKeeps(p: Player)
    ensures var q := DropSpent(p);
      && q == p.(queue := q.queue, pos := q.pos)
      && (q.queue != [] ==> q.pos < |q.queue[0]|)
    decreases |p.queue|
  {
  }

  // ---- one render quantum ---------------------------------------------------------------------

  function QueuedLength(queue: seq<seq<Sample>>): nat {
    |Flatten(queue)|
  }

  /** The start latch: a full cushion, or audio that has trickled for more than 1.2 s. */
  predicate Holds(p: Player, rate: real, now: real) {
    var queued := QueuedLength(p.queue) as real;
    var escape := p.firstChunkAt.Some? && now - p.firstChunkAt.value > 1.2 && queued > 0.1 * rate;
    !p.started && queued < rate * p.preBuffer && !escape
  }

  function Started(p: Player): Player {
    if p.started then p else p.(started := true, fadeIn := START_FADE, fadeInLen := START_FADE)
  }

  /** n samples in a row: the state, the samples, and whether any of them starved. */
  function Ticks(p: Player, n: nat): (r: (Player, seq<Sample>, bool))
    requires p.fadeInLen != 0
    ensures r.0.fadeInLen != 0 && |r.1| == n
  {
    if n == 0 then (p, [], false)
    else
      var (q, outs, starved) := Ticks(p, n - 1);
      DropSpentKeeps(q);
      var (q', out) := Tick(q);
      (q', outs + [out], starved || DropSpent(q).queue == [])
  }

  /** Math.round of the cushion in milliseconds. */
  function Millis(seconds: real): int {
    (seconds * 1000.0 + 0.5).Floor
  }

  function Grown(preBuffer: real): real {
    if preBuffer * 1.25 < CUSHION_MAX then preBuffer * 1.25 else CUSHION_MAX
  }

  /** A starved quantum grows the cushion and is reported once per utterance. */
  function Cushioned(p: Player, starved: bool): Player {
    if !starved then p
    else if p.reportedUnderrun then p.(preBuffer := Grown(p.preBuffer))
    else p.(preBuffer := Grown(p.preBuffer), reportedUnderrun := true, reports := p.reports + [Millis(Grown(p.preBuffer))])
  }

  function Silence(n: nat): (outs: seq<Sample>)
    ensures |outs| == n && forall i | 0 <= i < n :: outs[i] == Num(0.0)
  {
    seq(n, _ => Num(0.0))
  }

  function Processed(p: Player, n: nat, rate: real, now: real): (Player, seq<Sample>)
    requires p.fadeInLen != 0
  {
    if Holds(p, rate, now) then (p, Silence(n))
    else
      var (q, outs, starved) := Ticks(Started(p), n);
      (Cushioned(q, starved), outs)
  }

  // ---- runs ------------------------------------------------------------------------------------

  function Next(p: Player, e: Event, rate: real): (r: (Player, seq<Sample>))
    requires p.fadeInLen != 0
    ensures r.0.fadeInLen != 0
  {
    match e
    case Flush => (Flushed(p), [])
    case Chunk(samples, now) => (Queued(p, samples, now), [])
    case Process(n, now) => Processed(p, n, rate, now)
  }

  /** The state after a run and everything it sent to the speakers. */
  function Run(p: Player, events: seq<Event>, rate: real): (r: (Player, seq<Sample>))
    requires p.fadeInLen != 0
    ensures r.0.fadeInLen != 0
  {
    if events == [] then (p, [])
    else
      var (q, outs) := Run(p, events[..|events| - 1], rate);
      var (q', more) := Next(q, events[|events| - 1], rate);
      (q', outs + more)
  }
}
