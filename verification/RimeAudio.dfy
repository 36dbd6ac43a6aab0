/** The frames the streamer forwards, over whole runs of the utterance machine. */
module RimeAudio {
  import opened Common
  import opened Pcm
  import opened Carry
  import opened Rime
  import opened RimeLaws

  /** The event empties the carry: a clear, a new socket, or a chunk of a cancelled stream. */
  predicate Resets(s: Streamer, e: Event) {
    match e
    case RunClear => s.clears > 0
    case CloseBegins => true
    case Connected(ok) => ok && s.holder.Connecting?
    case Chunk(_, _) => s.readers > 0 && s.dropped
    case _ => false
  }

  ghost predicate NoResets(s: Streamer, trace: seq<Event>) {
    trace == [] ||
    (NoResets(s, trace[..|trace| - 1]) && !Resets(Run(s, trace[..|trace| - 1]), trace[|trace| - 1]))
  }

  /** The bytes of the chunks the reader accepted. */
  function Received(s: Streamer, trace: seq<Event>): seq<byte> {
    if trace == [] then []
    else
      var front, last := trace[..|trace| - 1], trace[|trace| - 1];
      Received(s, front) + (if last.Chunk? && last.raw.Some? && Run(s, front).readers > 0 then last.raw.value else [])
  }

  lemma OtherEventsKeepAudio(s: Streamer, e: Event)
    requires !Resets(s, e) && !(e.Chunk? && e.raw.Some? && s.readers > 0)
    ensures Next(s, e).carry == s.carry && Next(s, e).forwarded == s.forwarded
  {
    match e
    case Acquire =>
    case Connected(_) =>
    case SendDone(_, _) =>
    case Poll(_) =>
    case Speak =>
    case Cancel =>
    case StartWarmUp =>
    case RunFire =>
    case RunClear =>
    case Chunk(_, _) =>
    case DoneMsg(_) =>
    case ReaderEnds =>
    case SocketCloses =>
    case CloseEnds =>
  }

  /** Between two resets of the carry, in every run: forwarded bytes and carry are together exactly
      the received bytes, whatever else the tasks did. */
  lemma {:induction false} NoByteLost(s: Streamer, trace: seq<Event>)
    requires NoResets(s, trace)
    ensures var s' := Run(s, trace);
      Flatten(s'.forwarded) + s'.carry == Flatten(s.forwarded) + s.carry + Received(s, trace)
  {
    if trace != [] {
      var front, e := trace[..|trace| - 1], trace[|trace| - 1];
      NoByteLost(s, front);
      var mid := Run(s, front);
      if e.Chunk? && e.raw.Some? && mid.readers > 0 {
        ChunkKeepsBytes(mid, e.raw.value, e.now);
      } else {
        OtherEventsKeepAudio(mid, e);
      }
    }
  }

  lemma ChunkKeepsBytes(s: Streamer, raw: seq<byte>, now: real)
    requires s.readers > 0 && !s.dropped
    ensures var s' := Next(s, Chunk(Some(raw), now));
      Flatten(s'.forwarded) + s'.carry == Flatten(s.forwarded) + s.carry + raw
  {
    var (frame, left) := Cut(s.carry, raw);
    assert frame + left == s.carry + raw;
    assert (s.forwarded + [frame])[..|s.forwarded|] == s.forwarded;
    assert Flatten(s.forwarded) + frame + left == Flatten(s.forwarded) + (frame + left);
    assert Flatten(s.forwarded) + s.carry + raw == Flatten(s.forwarded) + (s.carry + raw);
  }

  /** The bytes accepted since the last reset of a run. */
  function SinceReset(trace: seq<Event>): seq<byte> {
    if trace == [] then []
    else
      var front, last := trace[..|trace| - 1], trace[|trace| - 1];
      var mid := Run(Init(), front);
      if Resets(mid, last) then []
      else if last.Chunk? && last.raw.Some? && mid.readers > 0 then SinceReset(front) + last.raw.value
      else SinceReset(front)
  }

  /** The byte that has no partner yet. */
  function OddByte(bytes: seq<byte>): (odd: seq<byte>)
    ensures |odd| == |bytes| % 2
  {
    if |bytes| % 2 == 1 then [bytes[|bytes| - 1]] else []
  }

  lemma ResetEmpties(s: Streamer, e: Event)
    requires Resets(s, e)
    ensures Next(s, e).carry == []
  {
  }

  lemma OddByteAppend(bytes: seq<byte>, raw: seq<byte>)
    ensures Cut(OddByte(bytes), raw).1 == OddByte(bytes + raw)
  {
    var data := OddByte(bytes) + raw;
    assert |data| % 2 == |bytes + raw| % 2;
    if raw == [] {
      assert data == OddByte(bytes) && bytes + raw == bytes;
    } else {
      assert data[|data| - 1] == raw[|raw| - 1] == (bytes + raw)[|bytes + raw| - 1];
    }
  }

  /** In every run the carry is the odd byte of what was accepted since the last reset. */
  lemma {:induction false} CarryIsOddByte(trace: seq<Event>)
    ensures Run(Init(), trace).carry == OddByte(SinceReset(trace))
  {
    if trace != [] {
      var front, e := trace[..|trace| - 1], trace[|trace| - 1];
      var mid := Run(Init(), front);
      CarryIsOddByte(front);
      if Resets(mid, e) {
        ResetEmpties(mid, e);
      } else if e.Chunk? && e.raw.Some? && mid.readers > 0 {
        OddByteAppend(SinceReset(front), e.raw.value);
      } else {
        OtherEventsKeepAudio(mid, e);
      }
    }
  }

  lemma {:induction false} ForwardedGrows(s: Streamer, trace: seq<Event>)
    ensures s.forwarded <= Run(s, trace).forwarded
  {
    if trace != [] {
      ForwardedGrows(s, trace[..|trace| - 1]);
      GrowsStep(Run(s, trace[..|trace| - 1]), trace[|trace| - 1]);
    }
  }

  lemma GrowsStep(s: Streamer, e: Event)
    ensures s.forwarded <= Next(s, e).forwarded
  {
    if !e.Chunk? && !Resets(s, e) {
      OtherEventsKeepAudio(s, e);
    }
  }

  lemma {:induction false} DecodeEachIsDecode(frames: seq<seq<byte>>)
    requires AllEven(frames)
    ensures DecodeEach(frames) == Decode(Flatten(frames))
  {
    if frames != [] {
      DecodeEachIsDecode(frames[..|frames| - 1]);
      EvenTotal(frames[..|frames| - 1]);
      DecodeAppend(Flatten(frames[..|frames| - 1]), frames[|frames| - 1]);
    }
  }

  /** Frames of whole samples that hold a byte stream but for a carried byte decode like it. */
  lemma AddedFramesDecode(earlier: seq<seq<byte>>, added: seq<seq<byte>>, carry: seq<byte>, received: seq<byte>)
    requires AllEven(added) && |carry| <= 1
    requires Flatten(earlier + added) + carry == Flatten(earlier) + received
    ensures DecodeEach(added) == Decode(received)
  {
    FlattenAppend(earlier, added);
    var out := Flatten(earlier);
    assert Flatten(added) + carry == received by {
      assert out + Flatten(added) + carry == out + (Flatten(added) + carry);
      assert (out + (Flatten(added) + carry))[|out|..] == Flatten(added) + carry;
      assert (out + received)[|out|..] == received;
    }
    DecodeEachIsDecode(added);
    EvenTotal(added);
    DecodeAppend(Flatten(added), carry);
    assert Decode(carry) == [];
  }

  lemma SinceResetDecodes(earlier: seq<seq<byte>>, all: seq<seq<byte>>, carry: seq<byte>, received: seq<byte>)
    requires earlier <= all && AllEven(all) && |carry| <= 1
    requires Flatten(all) + carry == Flatten(earlier) + [] + received
    ensures DecodeEach(all[|earlier|..]) == Decode(received)
  {
    assert all == earlier + all[|earlier|..];
    assert Flatten(earlier) + [] == Flatten(earlier);
    AddedFramesDecode(earlier, all[|earlier|..], carry, received);
  }

  /** Re-chunking refines continuous decoding, for every run of the whole streamer: since the last
      reset, the forwarded frames decoded one by one give exactly the samples of the received
      byte stream decoded as a whole. */
  lemma {:induction false} ForwardedDecodesLikeStream(before: seq<Event>, after: seq<Event>)
    requires Run(Init(), before).carry == [] && NoResets(Run(Init(), before), after)
    ensures var s, s' := Run(Init(), before), Run(Run(Init(), before), after);
      && s.forwarded <= s'.forwarded
      && DecodeEach(s'.forwarded[|s.forwarded|..]) == Decode(Received(s, after))
  {
    var s := Run(Init(), before);
    InitInv();
    Reachable(Init(), before);
    Reachable(s, after);
    ForwardedGrows(s, after);
    NoByteLost(s, after);
    SinceResetDecodes(s.forwarded, Run(s, after).forwarded, Run(s, after).carry, Received(s, after));
  }
}
