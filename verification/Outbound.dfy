/** backend/voice.py:63-89: the outbound queue to the browser. Producers never wait; a writer drains
    it. Audio is shed while the backlog is at the cap, control messages never are. */
module Outbound {
  import opened Common

  const MAX_QUEUED_AUDIO: nat := 240

  /** The control messages of a call. */
  datatype Control = Ready | Transcript(text: string, final: bool) | SpeechEnd

  datatype Message = Audio(pcm: seq<int>) | Json(msg: Control)

  datatype Outbox = Outbox(
    queue: seq<Message>,
    produced: seq<Message>,      // history: everything the producers handed in
    taken: seq<Message>,         // history: everything the writer took
    delivered: seq<Message>,     // history: what the socket accepted
    dropped: nat)                // history: how many frames were shed

  datatype Event =
    | SendAudio(pcm: seq<int>)
    | SendJson(msg: Control)
    | WriterTurn(ok: bool)       // the writer takes the next item; the socket accepts it or raises

  function Init(): Outbox {
    Outbox([], [], [], [], 0)
  }

  function Next(o: Outbox, e: Event): Outbox {
    match e
    case SendAudio(pcm) =>
      var o' := o.(produced := o.produced + [Audio(pcm)]);
      if |o.queue| < MAX_QUEUED_AUDIO then o'.(queue := o.queue + [Audio(pcm)])
      else o'.(dropped := o.dropped + 1)
    case SendJson(msg) => o.(produced := o.produced + [Json(msg)], queue := o.queue + [Json(msg)])
    case WriterTurn(ok) =>
      if o.queue == [] then o
      else o.(queue := o.queue[1..], taken := o.taken + [o.queue[0]],
              delivered := if ok then o.delivered + [o.queue[0]] else o.delivered)
  }

  function Run(o: Outbox, events: seq<Event>): Outbox {
    if events == [] then o else Next(Run(o, events[..|events| - 1]), events[|events| - 1])
  }

  // ---- what shedding may do ------------------------------------------------------------


  function Jsons(ms: seq<Message>): seq<Message> {
    if ms == [] then []
    else if ms[|ms| - 1].Json? then Jsons(ms[..|ms| - 1]) + [ms[|ms| - 1]] else Jsons(ms[..|ms| - 1])
  }

  function Audios(ms: seq<Message>): seq<Message> {
    if ms == [] then []
    else if ms[|ms| - 1].Audio? then Audios(ms[..|ms| - 1]) + [ms[|ms| - 1]] else Audios(ms[..|ms| - 1])
  }

  /** `kept` is `all` with some audio messages left out and nothing else changed. */
  predicate Shed(all: seq<Message>, kept: seq<Message>) {
    if all == [] then kept == []
    else
      var m := all[|all| - 1];
      || (kept != [] && kept[|kept| - 1] == m && Shed(all[..|all| - 1], kept[..|kept| - 1]))
      || (m.Audio? && Shed(all[..|all| - 1], kept))
  }

  /** `sub` is a subsequence of `whole`. */
  predicate Subsequence(sub: seq<Message>, whole: seq<Message>) {
    if whole == [] then sub == []
    else
      || (sub != [] && sub[|sub| - 1] == whole[|whole| - 1]
          && Subsequence(sub[..|sub| - 1], whole[..|whole| - 1]))
      || Subsequence(sub, whole[..|whole| - 1])
  }

  lemma {:induction false} ShedKeepsJson(all: seq<Message>, kept: seq<Message>)
    requires Shed(all, kept)
    ensures Jsons(kept) == Jsons(all)
    ensures Subsequence(Audios(kept), Audios(all))
    ensures |kept| <= |all|
  {
    if all != [] {
      var m, front := all[|all| - 1], all[..|all| - 1];
      if kept != [] && kept[|kept| - 1] == m && Shed(front, kept[..|kept| - 1]) {
        ShedKeepsJson(front, kept[..|kept| - 1]);
        if m.Audio? {
          var a, b := Audios(kept), Audios(all);
          assert a[..|a| - 1] == Audios(kept[..|kept| - 1]) && b[..|b| - 1] == Audios(front);
        }
      } else {
        ShedKeepsJson(front, kept);
        var b := Audios(all);
        assert b[..|b| - 1] == Audios(front);
      }
    }
  }

  lemma ShedSnoc(all: seq<Message>, kept: seq<Message>, m: Message)
    requires Shed(all, kept)
    ensures Shed(all + [m], kept + [m])
    ensures m.Audio? ==> Shed(all + [m], kept)
  {
    assert (all + [m])[..|all|] == all && (kept + [m])[..|kept|] == kept;
  }

  // ---- the invariant ----------------------------------------------------------------------

  ghost predicate Inv(o: Outbox) {
    && Shed(o.produced, o.taken + o.queue)
    && |o.produced| == |o.taken| + |o.queue| + o.dropped
    && |Audios(o.queue)| <= MAX_QUEUED_AUDIO
    && Subsequence(o.delivered, o.taken)
  }

  lemma AudiosSnoc(ms: seq<Message>, m: Message)
    ensures Audios(ms + [m]) == Audios(ms) + (if m.Audio? then [m] else [])
  {
    assert (ms + [m])[..|ms|] == ms;
  }

  lemma {:induction false} AudiosCount(ms: seq<Message>)
    ensures |Audios(ms)| <= |ms|
    ensures ms != [] ==> |Audios(ms[1..])| <= |Audios(ms)|
  {
    if ms != [] {
      AudiosCount(ms[..|ms| - 1]);
      if |ms| > 1 {
        var rest := ms[1..];
        assert rest[..|rest| - 1] == ms[..|ms| - 1][1..];
      }
    }
  }

  lemma QueuedShed(produced: seq<Message>, taken: seq<Message>, queue: seq<Message>, m: Message)
    requires Shed(produced, taken + queue)
    ensures Shed(produced + [m], taken + (queue + [m]))
  {
    ShedSnoc(produced, taken + queue, m);
    assert taken + (queue + [m]) == taken + queue + [m];
  }

  lemma QueuedCount(queue: seq<Message>, m: Message)
    requires |queue| < MAX_QUEUED_AUDIO
    ensures |Audios(queue + [m])| <= MAX_QUEUED_AUDIO
  {
    AudiosSnoc(queue, m);
    AudiosCount(queue);
  }

  lemma QueuedAudioInv(o: Outbox, pcm: seq<int>)
    requires Inv(o) && |o.queue| < MAX_QUEUED_AUDIO
    ensures Inv(o.(produced := o.produced + [Audio(pcm)], queue := o.queue + [Audio(pcm)]))
  {
    var m := Audio(pcm);
    QueuedShed(o.produced, o.taken, o.queue, m);
    QueuedCount(o.queue, m);
  }

  lemma ShedAudioInv(o: Outbox, pcm: seq<int>)
    requires Inv(o)
    ensures Inv(o.(produced := o.produced + [Audio(pcm)], dropped := o.dropped + 1))
  {
    ShedSnoc(o.produced, o.taken + o.queue, Audio(pcm));
  }

  lemma AudioInv(o: Outbox, pcm: seq<int>)
    requires Inv(o)
    ensures Inv(Next(o, SendAudio(pcm)))
  {
    if |o.queue| < MAX_QUEUED_AUDIO { QueuedAudioInv(o, pcm); } else { ShedAudioInv(o, pcm); }
  }

  lemma JsonInv(o: Outbox, msg: Control)
    requires Inv(o)
    ensures Inv(Next(o, SendJson(msg)))
  {
    ShedSnoc(o.produced, o.taken + o.queue, Json(msg));
    AudiosSnoc(o.queue, Json(msg));
    assert o.taken + (o.queue + [Json(msg)]) == o.taken + o.queue + [Json(msg)];
  }

  lemma SubsequenceSnoc(sub: seq<Message>, whole: seq<Message>, m: Message)
    requires Subsequence(sub, whole)
    ensures Subsequence(sub + [m], whole + [m]) && Subsequence(sub, whole + [m])
  {
    assert (whole + [m])[..|whole|] == whole && (sub + [m])[..|sub|] == sub;
  }

  lemma WriterInv(o: Outbox, ok: bool)
    requires Inv(o)
    ensures Inv(Next(o, WriterTurn(ok)))
  {
    if o.queue != [] {
      AudiosCount(o.queue);
      assert (o.taken + [o.queue[0]]) + o.queue[1..] == o.taken + o.queue;
      SubsequenceSnoc(o.delivered, o.taken, o.queue[0]);
    }
  }

  lemma StepInv(o: Outbox, e: Event)
    requires Inv(o)
    ensures Inv(Next(o, e))
  {
    match e
    case SendAudio(pcm) => AudioInv(o, pcm);
    case SendJson(msg) => JsonInv(o, msg);
    case WriterTurn(ok) => WriterInv(o, ok);
  }

  lemma {:induction false} Reachable(events: seq<Event>)
    ensures Inv(Run(Init(), events))
  {
    if events != [] {
      Reachable(events[..|events| - 1]);
      StepInv(Run(Init(), events[..|events| - 1]), events[|events| - 1]);
    }
  }

  /** Over any interleaving of producers and writer: control messages are all taken or queued, in
      order, none lost or repeated; the audio taken and queued is in order a part of the audio
      produced; produced = taken + queued + dropped; and at most 240 frames wait. */
  lemma {:induction false} AudioIsShedControlIsNot(events: seq<Event>)
    ensures var o := Run(Init(), events);
      && Jsons(o.taken + o.queue) == Jsons(o.produced)
      && Subsequence(Audios(o.taken + o.queue), Audios(o.produced))
      && |o.produced| == |o.taken| + |o.queue| + o.dropped
      && |Audios(o.queue)| <= MAX_QUEUED_AUDIO
      && Subsequence(o.delivered, o.taken)
  {
    Reachable(events);
    var o := Run(Init(), events);
    ShedKeepsJson(o.produced, o.taken + o.queue);
  }

  /** A frame is shed exactly when the whole backlog, control messages included, is at the cap: 240
      waiting control messages alone silence the agent. */
  lemma FrameIsShedIff(o: Outbox, pcm: seq<int>)
    ensures Next(o, SendAudio(pcm)).dropped == o.dropped + 1 <==> |o.queue| >= MAX_QUEUED_AUDIO
    ensures Next(o, SendAudio(pcm)).taken + Next(o, SendAudio(pcm)).queue
         == o.taken + o.queue + (if |o.queue| >= MAX_QUEUED_AUDIO then [] else [Audio(pcm)])
  {
  }

  ghost predicate OnlyJson(events: seq<Event>) {
    forall e | e in events :: e.SendJson?
  }

  lemma {:induction false} JsonPilesUp(events: seq<Event>)
    requires OnlyJson(events)
    ensures |Run(Init(), events).queue| == |events| && Run(Init(), events).dropped == 0
  {
    if events != [] {
      var front, last := events[..|events| - 1], events[|events| - 1];
      assert last in events && forall e | e in front :: e in events;
      JsonPilesUp(front);
    }
  }

  /** While the writer is stuck, any 240 control messages shed the next frame although no audio waits; and
      no fewer do. */
  lemma {:induction false} ControlAloneSilencesIff(events: seq<Event>, pcm: seq<int>)
    requires OnlyJson(events)
    ensures Next(Run(Init(), events), SendAudio(pcm)).dropped == 1 <==> |events| >= 240
  {
    JsonPilesUp(events);
  }

  // ---- the backlog ----------------------------------------------------------------------------

  lemma {:induction false} AudiosAppend(a: seq<Message>, b: seq<Message>)
    ensures Audios(a + b) == Audios(a) + Audios(b)
  {
    if b == [] {
      assert a + b == a;
    } else {
      var front, last := b[..|b| - 1], b[|b| - 1];
      AudiosAppend(a, front);
      assert a + b == a + front + [last];
      AudiosSnoc(a + front, last);
    }
  }

  ghost predicate NoAudioSent(events: seq<Event>) {
    forall i | 0 <= i < |events| :: !events[i].SendAudio?
  }

  /** The rounds of the writer. */
  function Rounds(events: seq<Event>): nat {
    if events == [] then 0
    else Rounds(events[..|events| - 1]) + (if events[|events| - 1].WriterTurn? then 1 else 0)
  }

  function Least(a: nat, b: nat): nat {
    if a < b then a else b
  }

  /** First in, first out: with no audio produced, what is taken or waits is what was there followed by
      control messages, and each round takes one message unless none waits. */
  ghost predicate Drained(o: Outbox, o': Outbox, more: seq<Message>, rounds: nat) {
    && o'.taken + o'.queue == o.taken + o.queue + more
    && Audios(more) == []
    && |o.taken| + Least(rounds, |o.queue|) <= |o'.taken| <= |o.taken| + rounds
  }

  lemma DrainStep(o: Outbox, mid: Outbox, more: seq<Message>, rounds: nat, e: Event) returns (more': seq<Message>)
    requires Drained(o, mid, more, rounds) && !e.SendAudio?
    ensures Drained(o, Next(mid, e), more', rounds + (if e.WriterTurn? then 1 else 0))
  {
    more' := more;
    match e
    case SendJson(msg) =>
      more' := more + [Json(msg)];
      AudiosSnoc(more, Json(msg));
      assert mid.taken + (mid.queue + [Json(msg)]) == mid.taken + mid.queue + [Json(msg)];
    case WriterTurn(_) =>
      if mid.queue == [] {
        assert |mid.taken + mid.queue| == |o.taken + o.queue + more|;
      } else {
        assert (mid.taken + [mid.queue[0]]) + mid.queue[1..] == mid.taken + mid.queue;
      }
  }

  lemma {:induction false} Drains(o: Outbox, events: seq<Event>) returns (more: seq<Message>)
    requires NoAudioSent(events)
    ensures Drained(o, Run(o, events), more, Rounds(events))
  {
    more := [];
    if events == [] {
      assert o.taken + o.queue + [] == o.taken + o.queue;
    } else {
      var front, last := events[..|events| - 1], events[|events| - 1];
      assert !last.SendAudio? && forall i | 0 <= i < |front| :: front[i] == events[i];
      var before := Drains(o, front);
      more := DrainStep(o, Run(o, front), before, Rounds(front), last);
    }
  }

  lemma TakenIsPrefix(o: Outbox, o': Outbox, more: seq<Message>, rounds: nat)
    requires Drained(o, o', more, rounds)
    ensures |o'.taken| <= |o.taken + o.queue + more| && o'.taken == (o.taken + o.queue + more)[..|o'.taken|]
  {
    assert o'.taken == (o'.taken + o'.queue)[..|o'.taken|];
  }

  lemma NoAudioInPart(more: seq<Message>, k: nat)
    requires Audios(more) == [] && k <= |more|
    ensures Audios(more[..k]) == []
  {
    AudiosAppend(more[..k], more[k..]);
    assert more == more[..k] + more[k..];
  }

  lemma AudioOfDrained(o: Outbox, o': Outbox, more: seq<Message>, rounds: nat)
    requires Drained(o, o', more, rounds)
    ensures Audios(o'.taken) == Audios(o.taken + o.queue[..Least(rounds, |o.queue|)])
  {
    var first := o.taken + o.queue;
    TakenIsPrefix(o, o', more, rounds);
    if rounds <= |o.queue| {
      assert (first + more)[..|o.taken| + rounds] == o.taken + o.queue[..rounds];
    } else {
      var k := |o'.taken| - |first|;
      assert (first + more)[..|first| + k] == first + more[..k] && o.queue[..|o.queue|] == o.queue;
      AudiosAppend(first, more[..k]);
      NoAudioInPart(more, k);
    }
  }

  /** When no more audio is produced the backlog still goes out: after n writer rounds the audio taken is
      exactly that taken before and that among the first n waiting messages. */
  lemma {:induction false} BacklogIsTaken(o: Outbox, events: seq<Event>)
    requires NoAudioSent(events)
    ensures Audios(Run(o, events).taken) == Audios(o.taken) + Audios(o.queue[..Least(Rounds(events), |o.queue|)])
  {
    var more := Drains(o, events);
    AudioOfDrained(o, Run(o, events), more, Rounds(events));
    AudiosAppend(o.taken, o.queue[..Least(Rounds(events), |o.queue|)]);
  }

  ghost predicate AllAccepted(events: seq<Event>) {
    forall i | 0 <= i < |events| && events[i].WriterTurn? :: events[i].ok
  }

  /** While the browser's socket accepts every item, what is taken is delivered. */
  lemma {:induction false} AcceptedIsDelivered(o: Outbox, events: seq<Event>)
    requires AllAccepted(events)
    ensures var o' := Run(o, events); o.taken <= o'.taken && o'.delivered == o.delivered + o'.taken[|o.taken|..]
  {
    if events == [] {
      assert o.taken[|o.taken|..] == [];
    } else {
      var front, last := events[..|events| - 1], events[|events| - 1];
      assert forall i | 0 <= i < |front| :: front[i] == events[i];
      assert last.WriterTurn? ==> last.ok;
      AcceptedIsDelivered(o, front);
    }
  }

  /** The messages the writer took in rounds whose send succeeded. */
  function SentOff(events: seq<Event>): seq<Message> {
    if events == [] then []
    else
      var front, last := events[..|events| - 1], events[|events| - 1];
      var before, after := Run(Init(), front).taken, Run(Init(), events).taken;
      SentOff(front) + (if last.WriterTurn? && last.ok && before != after && after != [] then [after[|after| - 1]] else [])
  }

  /** In every run exactly those are delivered, in order: a send that fails loses its own message and no other. */
  lemma {:induction false} DeliveredIsSentOff(events: seq<Event>)
    ensures Run(Init(), events).delivered == SentOff(events)
  {
    if events != [] {
      var front, last := events[..|events| - 1], events[|events| - 1];
      var mid := Run(Init(), front);
      DeliveredIsSentOff(front);
      assert last.WriterTurn? && mid.queue != [] ==> |Next(mid, last).taken| == |mid.taken| + 1;
    }
  }

  lemma {:induction false} BacklogIsDelivered(o: Outbox, events: seq<Event>)
    requires NoAudioSent(events) && AllAccepted(events)
    ensures Audios(Run(o, events).delivered) == Audios(o.delivered) + Audios(o.queue[..Least(Rounds(events), |o.queue|)])
  {
    BacklogIsTaken(o, events);
    AcceptedIsDelivered(o, events);
    var o' := Run(o, events);
    var newly := o'.taken[|o.taken|..];
    assert o'.taken == o.taken + newly;
    AudiosAppend(o.taken, newly);
    AudiosAppend(o.delivered, newly);
    SamePrefixSameRest(Audios(o.taken), Audios(newly), Audios(o.queue[..Least(Rounds(events), |o.queue|)]));
  }

  lemma SamePrefixSameRest(prefix: seq<Message>, a: seq<Message>, b: seq<Message>)
    requires prefix + a == prefix + b
    ensures a == b
  {
    assert a == (prefix + a)[|prefix|..] && b == (prefix + b)[|prefix|..];
  }

  // ---- the session's queue -------------------------------------------------------------------

  class OutboundQueue {
    var out: seq<Message>
    var delivered: seq<Message>
    ghost var produced: seq<Message>
    ghost var taken: seq<Message>
    ghost var dropped: nat

    ghost function View(): Outbox
      reads this
    {
      Outbox(out, produced, taken, delivered, dropped)
    }

    constructor ()
      ensures View() == Init()
    {
      out, delivered, produced, taken, dropped := [], [], [], [], 0;
    }

    method SendAudioFrame(pcm: seq<int>)
      modifies this
      ensures View() == Next(old(View()), SendAudio(pcm))
    {
      produced := produced + [Audio(pcm)];
      if |out| < MAX_QUEUED_AUDIO {
        out := out + [Audio(pcm)];
      } else {
        dropped := dropped + 1;
      }
    }

    method SendJsonMessage(msg: Control)
      modifies this
      ensures View() == Next(old(View()), SendJson(msg))
    {
      produced := produced + [Json(msg)];
      out := out + [Json(msg)];
    }

    /** One round of the writer loop. */
    method WriterRound(ok: bool)
      modifies this
      ensures View() == Next(old(View()), WriterTurn(ok))
    {
      if out == [] {
        return;
      }
      var item := out[0];
      out := out[1..];
      taken := taken + [item];
      if ok {
        delivered := delivered + [item];
      }
    }
  }
}
