/** When playback starts, and how long the cushion is, told from the events of a run alone. */
module PlayerStart {
  import opened Common
  import opened Resampler
  import opened Player
  import opened PlayerLaws

  /** The samples pushed since the last flush. */
  function Pushed(events: seq<Event>): seq<Sample> {
    if events == [] then []
    else
      match events[|events| - 1]
      case Flush => []
      case Chunk(samples, _) => Pushed(events[..|events| - 1]) + samples
      case Process(_, _) => Pushed(events[..|events| - 1])
  }

  /** When the first chunk since the last flush came. */
  function FirstChunk(events: seq<Event>): Option<real> {
    if events == [] then None
    else
      var before := FirstChunk(events[..|events| - 1]);
      match events[|events| - 1]
      case Flush => None
      case Chunk(_, now) => if before.None? then Some(now) else before
      case Process(_, _) => before
  }

  /** The quanta in which some sample starved, since the page was loaded. */
  function StarvedQuanta(events: seq<Event>, rate: real): nat {
    if events == [] then 0
    else
      var front, last := events[..|events| - 1], events[|events| - 1];
      StarvedQuanta(front, rate)
      + (if last.Process? && Run(Init(), events, rate).0.dry > Run(Init(), front, rate).0.dry then 1 else 0)
  }

  /** The cushion in seconds after k starved quanta. */
  function CushionAfter(k: nat): real {
    if k == 0 then 0.5 else if k == 1 then 0.625 else if k == 2 then 0.78125 else 0.8
  }

  /** What the messages have left in a player, whatever was played. */
  ghost predicate Messages(p: Player, pushed: seq<Sample>, first: Option<real>) {
    p.pushed == pushed && p.firstChunkAt == first
  }

  lemma {:induction false} TicksKeepMessages(p: Player, n: nat)
    requires p.fadeInLen != 0
    ensures var q := Ticks(p, n).0;
      Messages(q, p.pushed, p.firstChunkAt) && q.preBuffer == p.preBuffer && q.started == p.started
  {
    if n > 0 {
      TicksKeepMessages(p, n - 1);
      DropSpentKeeps(Ticks(p, n - 1).0);
    }
  }

  lemma CushionKeepsMessages(p: Player, starved: bool)
    ensures var q := Cushioned(p, starved);
      && Messages(q, p.pushed, p.firstChunkAt) && q.dry == p.dry && q.started == p.started
      && q.preBuffer == (if starved then Grown(p.preBuffer) else p.preBuffer)
  {
  }

  lemma ProcessKeepsMessages(p: Player, n: nat, rate: real, now: real)
    requires p.fadeInLen != 0
    ensures var q := Processed(p, n, rate, now).0;
      && Messages(q, p.pushed, p.firstChunkAt) && q.dry >= p.dry
      && q.preBuffer == (if q.dry > p.dry then Grown(p.preBuffer) else p.preBuffer)
  {
    if !Holds(p, rate, now) {
      var (q, _, starved) := Ticks(Started(p), n);
      TicksKeepMessages(Started(p), n);
      TicksReport(Started(p), n);
      CushionKeepsMessages(q, starved);
    }
  }

  lemma MessageStep(p: Player, e: Event, rate: real)
    requires p.fadeInLen != 0
    ensures var q := Next(p, e, rate).0;
      match e
      case Flush => Messages(q, [], None) && q.preBuffer == p.preBuffer
      case Chunk(samples, now) =>
        Messages(q, p.pushed + samples, if p.firstChunkAt.None? then Some(now) else p.firstChunkAt)
        && q.preBuffer == p.preBuffer
      case Process(_, _) =>
        Messages(q, p.pushed, p.firstChunkAt)
        && q.preBuffer == (if q.dry > p.dry then Grown(p.preBuffer) else p.preBuffer)
  {
    match e
    case Flush =>
    case Chunk(samples, _) => assert samples == [] ==> p.pushed + samples == p.pushed;
    case Process(n, now) => ProcessKeepsMessages(p, n, rate, now);
  }

  lemma GrowsToNext(k: nat)
    ensures Grown(CushionAfter(k)) == CushionAfter(k + 1)
  {
  }

  /** In every run: what was pushed since the flush, when the first chunk of it came, and a cushion of 0.5, 0.625,
      0.78125 and then 0.8 s after no, one, two and more starved quanta. */
  lemma {:induction false} StateFromEvents(events: seq<Event>, rate: real)
    ensures var p := Run(Init(), events, rate).0;
      Messages(p, Pushed(events), FirstChunk(events)) && p.preBuffer == CushionAfter(StarvedQuanta(events, rate))
  {
    if events != [] {
      var front := events[..|events| - 1];
      StateFromEvents(front, rate);
      MessageStep(Run(Init(), front, rate).0, events[|events| - 1], rate);
      GrowsToNext(StarvedQuanta(front, rate));
    }
  }

  /** The milliseconds an underrun in the k-th starved quantum reports. */
  function Reported(k: nat): int {
    if k <= 1 then 625 else if k == 2 then 781 else 800
  }

  /** The reports since the last flush: one at the first starved quantum. */
  function Reports(events: seq<Event>, rate: real): seq<int> {
    if events == [] then []
    else
      var front, last := events[..|events| - 1], events[|events| - 1];
      if last.Flush? then []
      else if StarvedQuanta(events, rate) > StarvedQuanta(front, rate) && Reports(front, rate) == []
      then [Reported(StarvedQuanta(events, rate))]
      else Reports(front, rate)
  }

  lemma ReportStep(p: Player, e: Event, rate: real)
    requires p.fadeInLen != 0 && (p.reportedUnderrun <==> p.reports != [])
    ensures var q := Next(p, e, rate).0;
      && (q.reportedUnderrun <==> q.reports != [])
      && q.reports == (if e.Flush? then []
                       else if e.Process? && q.dry > p.dry && p.reports == [] then [Millis(q.preBuffer)] else p.reports)
  {
    match e
    case Flush =>
    case Chunk(_, _) =>
    case Process(n, now) =>
      if !Holds(p, rate, now) {
        var (q, _, starved) := Ticks(Started(p), n);
        TicksReport(Started(p), n);
        CushionKeepsMessages(q, starved);
      }
  }

  lemma ReportedMillis(k: nat)
    requires k > 0
    ensures Millis(CushionAfter(k)) == Reported(k)
  {
  }

  /** In every run an utterance that starved has reported 625, 781 or 800 ms, once, by how often the player had
      starved before it. */
  lemma {:induction false} ReportsFromEvents(events: seq<Event>, rate: real)
    ensures var p := Run(Init(), events, rate).0;
      p.reports == Reports(events, rate) && (p.reportedUnderrun <==> p.reports != [])
  {
    if events != [] {
      var front := events[..|events| - 1];
      ReportsFromEvents(front, rate);
      ReportStep(Run(Init(), front, rate).0, events[|events| - 1], rate);
      StateFromEvents(events, rate);
      if StarvedQuanta(events, rate) > StarvedQuanta(front, rate) { ReportedMillis(StarvedQuanta(events, rate)); }
    }
  }

  /** So many samples fill the cushion, or they are more than a tenth of a second and the first of them came more
      than 1.2 s ago. */
  predicate Enough(queued: nat, cushion: real, first: Option<real>, rate: real, now: real) {
    || queued as real >= rate * cushion
    || (queued as real > 0.1 * rate && first.Some? && now - first.value > 1.2)
  }

  /** A quantum at `now` starts an utterance. */
  ghost predicate Starts(events: seq<Event>, rate: real, now: real) {
    Enough(|Pushed(events)|, CushionAfter(StarvedQuanta(events, rate)), FirstChunk(events), rate, now)
  }

  lemma HoldsIff(events: seq<Event>, rate: real, now: real)
    requires !Run(Init(), events, rate).0.started
    ensures Holds(Run(Init(), events, rate).0, rate, now) <==> !Starts(events, rate, now)
  {
    var p := Run(Init(), events, rate).0;
    StateFromEvents(events, rate);
    AllStillQueued(events, rate);
    LatchIsClosedIff(p, rate, now, |Pushed(events)|, CushionAfter(StarvedQuanta(events, rate)), FirstChunk(events));
  }

  lemma AllStillQueued(events: seq<Event>, rate: real)
    requires !Run(Init(), events, rate).0.started
    ensures var p := Run(Init(), events, rate).0; QueuedLength(p.queue) == |p.pushed|
  {
    var p := Run(Init(), events, rate).0;
    NothingLostNothingRepeated(events, rate);
    RemainingOfUnread(p);
    assert p.consumed + Remaining(p) == Remaining(p);
  }

  lemma LatchIsClosedIff(p: Player, rate: real, now: real, queued: nat, cushion: real, first: Option<real>)
    requires !p.started && QueuedLength(p.queue) == queued && p.preBuffer == cushion && p.firstChunkAt == first
    ensures Holds(p, rate, now) <==> !Enough(queued, cushion, first, rate, now)
  {
  }

  lemma HeldQuantum(p: Player, n: nat, rate: real, now: real)
    requires p.fadeInLen != 0 && Holds(p, rate, now)
    ensures Processed(p, n, rate, now).0 == p
    ensures var outs := Processed(p, n, rate, now).1; |outs| == n && Silent(outs)
  {
  }

  lemma StartingQuantum(p: Player, n: nat, rate: real, now: real)
    requires Conserved(p) && p.fadeInLen != 0 && !p.started && !Holds(p, rate, now)
    ensures var q := Processed(p, n, rate, now).0; q.started && q.consumed == p.pushed[..MinNat(n, |p.pushed|)]
  {
    var (q, _, starved) := Ticks(Started(p), n);
    TicksConserve(Started(p), n);
    CushionConserves(q, starved);
    CushionKeepsSamples(q, starved);
    assert p.consumed + Remaining(p) == Remaining(p);
    assert p.consumed + p.pushed[..MinNat(n, |p.pushed|)] == p.pushed[..MinNat(n, |p.pushed|)];
  }

  /** The start latch, in every run: the next quantum of a player that is not playing takes samples exactly if it
      starts, and then from the first one pushed, faded in over 96 samples; otherwise it is silent and changes
      nothing. */
  lemma {:induction false} PlaybackStartsIff(events: seq<Event>, n: nat, rate: real, now: real)
    requires !Run(Init(), events, rate).0.started
    ensures var p := Run(Init(), events, rate).0; var (q, outs) := Next(p, Process(n, now), rate);
      if Starts(events, rate, now)
      then q.started && q.consumed == Pushed(events)[..MinNat(n, |Pushed(events)|)]
        && (n <= |Pushed(events)| ==> OnFadeIn(outs, Pushed(events), 96, 96))
      else q == p && |outs| == n && Silent(outs)
  {
    var p := Run(Init(), events, rate).0;
    HoldsIff(events, rate, now);
    StateFromEvents(events, rate);
    NothingLostNothingRepeated(events, rate);
    if Starts(events, rate, now) {
      StartingQuantum(p, n, rate, now);
      if n <= |Pushed(events)| { StartFadesIn(events, n, rate, now); }
    } else {
      HeldQuantum(p, n, rate, now);
    }
  }

  /** For one: a word of 0.4 s, shorter than any cushion, is held back for 1.2 s and then played. */
  lemma ShortWordIsHeard(samples: seq<Sample>, now: real)
    requires |samples| == 9600
    ensures Starts([Chunk(samples, 0.0)], 24000.0, now) <==> now > 1.2
  {
    var events := [Chunk(samples, 0.0)];
    assert events[..0] == [] && Pushed([]) == [] && FirstChunk([]).None? && StarvedQuanta([], 24000.0) == 0;
    assert [] + samples == samples;
  }
}
