/** web/audio-worklet.js:26-45, the Catmull-Rom resampler, over exact reals. */
module Resampler {
  import opened Common

  /** A sample of a Float32Array: a number, or the NaN an out-of-range read leads to. */
  datatype Sample = Num(v: real) | NaN

  // ---- the interpolant ---------------------------------------------------------------

  /** The cubic through p1 and p2 in Horner form, at t in [0, 1). */
  function Cubic(p0: real, p1: real, p2: real, p3: real, t: real): real {
    var a := -0.5 * p0 + 1.5 * p1 - 1.5 * p2 + 0.5 * p3;
    var b := p0 - 2.5 * p1 + 2.0 * p2 - 0.5 * p3;
    var c := -0.5 * p0 + 0.5 * p2;
    ((a * t + b) * t + c) * t + p1
  }

  function Min(x: int, y: int): int {
    if x < y then x else y
  }

  function Max(x: int, y: int): int {
    if x < y then y else x
  }

  /** The value at a position of the source, neighbours clamped at both ends. */
  function At(src: seq<real>, pos: real): real
    requires src != [] && pos >= 0.0
  {
    var i1 := Min(pos.Floor, |src| - 1);
    Cubic(src[Max(i1 - 1, 0)], src[i1], src[Min(i1 + 1, |src| - 1)], src[Min(i1 + 2, |src| - 1)], pos - i1 as real)
  }

  // ---- the output grid ------------------------------------------------------------------

  function Ceil(x: real): int {
    -((-x).Floor)
  }

  function OutLength(n: nat, srcRate: real, dstRate: real): nat
    requires srcRate > 0.0
  {
    Max(1, Ceil(n as real * dstRate / srcRate))
  }

  function Position(i: nat, srcRate: real, dstRate: real): real
    requires srcRate > 0.0 && dstRate > 0.0
    ensures Position(i, srcRate, dstRate) >= 0.0
  {
    ProductSign(i as real, srcRate / dstRate);
    i as real * (srcRate / dstRate)
  }

  lemma ProductSign(x: real, y: real)
    requires x >= 0.0 && y >= 0.0
    ensures x * y >= 0.0
  {
  }

  /** What resampleCubic returns for rates that differ; an empty source yields one NaN. */
  function Resampled(src: seq<real>, srcRate: real, dstRate: real): (out: seq<Sample>)
    requires srcRate > 0.0 && dstRate > 0.0
    ensures srcRate != dstRate ==> |out| == OutLength(|src|, srcRate, dstRate)
  {
    if srcRate == dstRate then seq(|src|, i requires 0 <= i < |src| => Num(src[i]))
    else if src == [] then [NaN]
    else seq(OutLength(|src|, srcRate, dstRate),
             i requires 0 <= i < OutLength(|src|, srcRate, dstRate) => Num(At(src, Position(i, srcRate, dstRate))))
  }

  lemma DivMul(x: real, y: real, z: real)
    requires y > 0.0 && z > 0.0 && x < z * y
    ensures x / y < z
  {
    assert z == (z * y) / y;
    assert z - x / y == (z * y - x) / y;
  }

  /** Every output position lies inside the source, so the upper clamp of i1 never acts and the
      fraction t stays in [0, 1). */
  lemma PositionInside(n: nat, i: nat, srcRate: real, dstRate: real)
    requires n > 0 && srcRate > 0.0 && dstRate > 0.0
    requires i < OutLength(n, srcRate, dstRate)
    ensures var pos := Position(i, srcRate, dstRate);
      && 0.0 <= pos < n as real
      && 0 <= pos.Floor <= n - 1
      && 0.0 <= pos - pos.Floor as real < 1.0
  {
    var pos := Position(i, srcRate, dstRate);
    var whole := n as real * dstRate / srcRate;
    assert whole > 0.0;
    assert i as real < whole by {
      assert i == 0 || i < Ceil(whole);
    }
    assert whole * srcRate == n as real * dstRate;
    ProductLess(i as real, whole, srcRate);
    DivMul(i as real * srcRate, dstRate, n as real);
    assert pos == i as real * srcRate / dstRate;
  }

  lemma ProductLess(x: real, y: real, k: real)
    requires x < y && k > 0.0
    ensures x * k < y * k
  {
  }

  // ---- accuracy -----------------------------------------------------------------------------

  /** At a sample position the output is that sample. */
  lemma WholePositionsAreExact(src: seq<real>, k: nat)
    requires k < |src|
    ensures At(src, k as real) == src[k]
  {
    assert (k as real).Floor == k;
  }

  lemma CubicOnQuadratic(x: real, t: real, A: real, B: real, C: real)
    ensures var q := (y: real) => (A * y + B) * y + C;
      Cubic(q(x - 1.0), q(x), q(x + 1.0), q(x + 2.0), t) == q(x + t)
  {
    var q := (y: real) => (A * y + B) * y + C;
    var P, D := q(x), 2.0 * (A * x) + B;
    assert q(x - 1.0) == P - D + A;
    assert q(x + 1.0) == P + D + A;
    assert q(x + 2.0) == P + 2.0 * D + 4.0 * A;
    assert Cubic(P - D + A, P, P + D + A, P + 2.0 * D + 4.0 * A, t) == ((0.0 * t + A) * t + D) * t + P;
    calc {
      q(x + t);
      (A * (x + t) + B) * (x + t) + C;
      (A * x + A * t + B) * (x + t) + C;
      (A * x + B) * x + C + (A * t) * x + (A * x + A * t + B) * t;
      P + (A * t) * x + (A * x + A * t + B) * t;
      P + (A * x) * t + (A * x + A * t + B) * t;
      P + (A * t + D) * t;
    }
  }

  /** A source sampled from any quadratic is reproduced exactly between its clamped edges. */
  lemma QuadraticsAreExact(src: seq<real>, pos: real, A: real, B: real, C: real)
    requires forall k | 0 <= k < |src| :: src[k] == (A * k as real + B) * k as real + C
    requires 1.0 <= pos && pos.Floor + 2 < |src|
    ensures At(src, pos) == (A * pos + B) * pos + C
  {
    var k := pos.Floor;
    CubicOnQuadratic(k as real, pos - k as real, A, B, C);
    assert (k - 1) as real == k as real - 1.0 && (k + 1) as real == k as real + 1.0 && (k + 2) as real == k as real + 2.0;
  }

  /** The slope of the cubic. */
  function Slope(p0: real, p1: real, p2: real, p3: real, t: real): real {
    var a := -0.5 * p0 + 1.5 * p1 - 1.5 * p2 + 0.5 * p3;
    var b := p0 - 2.5 * p1 + 2.0 * p2 - 0.5 * p3;
    var c := -0.5 * p0 + 0.5 * p2;
    (3.0 * a * t + 2.0 * b) * t + c
  }

  /** Inside a chunk the curve has no kinks: neighbouring pieces meet with equal value and slope. */
  lemma PiecesJoinSmoothly(p0: real, p1: real, p2: real, p3: real, p4: real)
    ensures Cubic(p0, p1, p2, p3, 1.0) == Cubic(p1, p2, p3, p4, 0.0)
    ensures Slope(p0, p1, p2, p3, 1.0) == Slope(p1, p2, p3, p4, 0.0)
  {
  }

  // ---- chunk edges -------------------------------------------------------------------------------

  /** The four samples the curve runs through at a position, neighbours clamped at both ends. */
  datatype Taps = Taps(p0: real, p1: real, p2: real, p3: real)

  function TapsAt(src: seq<real>, i: nat): Taps
    requires i < |src|
  {
    Taps(src[Max(i - 1, 0)], src[i], src[Min(i + 1, |src| - 1)], src[Min(i + 2, |src| - 1)])
  }

  /** What the neighbours outside a chunk would change: the taps of the undivided stream less those of
      the chunk. The tap p1 is the chunk's own and never differs. */
  function EdgeTaps(before: seq<real>, chunk: seq<real>, rest: seq<real>, i: nat): Taps
    requires i < |chunk|
  {
    var c, w := TapsAt(chunk, i), TapsAt(before + chunk + rest, |before| + i);
    Taps(w.p0 - c.p0, 0.0, w.p2 - c.p2, w.p3 - c.p3)
  }

  lemma Distribute(w: real, x: real, y: real)
    ensures w * (x - y) == w * x - w * y
  {
  }

  lemma HornerIsLinear(a: real, b: real, c: real, d: real, a': real, b': real, c': real, d': real, t: real)
    ensures (((a - a') * t + (b - b')) * t + (c - c')) * t + (d - d')
         == (((a * t + b) * t + c) * t + d) - (((a' * t + b') * t + c') * t + d')
  {
    Distribute(t, a, a');
    Distribute(t, a * t + b, a' * t + b');
    Distribute(t, (a * t + b) * t + c, (a' * t + b') * t + c');
  }

  lemma CubicIsLinear(c: Taps, w: Taps, t: real)
    ensures Cubic(w.p0 - c.p0, w.p1 - c.p1, w.p2 - c.p2, w.p3 - c.p3, t)
         == Cubic(w.p0, w.p1, w.p2, w.p3, t) - Cubic(c.p0, c.p1, c.p2, c.p3, t)
  {
    HornerIsLinear(-0.5 * w.p0 + 1.5 * w.p1 - 1.5 * w.p2 + 0.5 * w.p3, w.p0 - 2.5 * w.p1 + 2.0 * w.p2 - 0.5 * w.p3,
                   -0.5 * w.p0 + 0.5 * w.p2, w.p1,
                   -0.5 * c.p0 + 1.5 * c.p1 - 1.5 * c.p2 + 0.5 * c.p3, c.p0 - 2.5 * c.p1 + 2.0 * c.p2 - 0.5 * c.p3,
                   -0.5 * c.p0 + 0.5 * c.p2, c.p1, t);
  }

  lemma FloorShift(n: nat, pos: real)
    ensures (n as real + pos).Floor == n + pos.Floor
  {
  }

  lemma AtIsCubicOfTaps(src: seq<real>, pos: real)
    requires pos >= 0.0 && pos.Floor < |src|
    ensures var c := TapsAt(src, pos.Floor); At(src, pos) == Cubic(c.p0, c.p1, c.p2, c.p3, pos - pos.Floor as real)
  {
  }

  /** Chunk by chunk against the undivided stream: wherever a chunk lies in it, an output of the chunk is
      that of the stream exactly when the neighbours cut off cancel out in the curve. */
  lemma ChunkAgreesIff(before: seq<real>, chunk: seq<real>, rest: seq<real>, pos: real)
    requires pos >= 0.0 && pos.Floor < |chunk|
    ensures var d := EdgeTaps(before, chunk, rest, pos.Floor); var t := pos - pos.Floor as real;
      At(before + chunk + rest, |before| as real + pos) == At(chunk, pos) <==> Cubic(d.p0, 0.0, d.p2, d.p3, t) == 0.0
  {
    var whole, i := before + chunk + rest, pos.Floor;
    FloorShift(|before|, pos);
    AtIsCubicOfTaps(chunk, pos);
    AtIsCubicOfTaps(whole, |before| as real + pos);
    assert whole[|before| + i] == chunk[i];
    CubicIsLinear(TapsAt(chunk, i), TapsAt(whole, |before| + i), pos - i as real);
  }

  /** Away from both cuts nothing differs; the ends of the stream are no cuts. */
  lemma ChunkInteriorAgrees(before: seq<real>, chunk: seq<real>, rest: seq<real>, pos: real)
    requires pos >= 0.0 && pos.Floor < |chunk|
    requires (before == [] || pos >= 1.0) && (rest == [] || pos.Floor + 2 < |chunk|)
    ensures At(before + chunk + rest, |before| as real + pos) == At(chunk, pos)
  {
    ChunkAgreesIff(before, chunk, rest, pos);
    assert EdgeTaps(before, chunk, rest, pos.Floor) == Taps(0.0, 0.0, 0.0, 0.0);
  }

  lemma CubicOfOne(d: real, t: real)
    requires 0.0 < t < 1.0
    ensures Cubic(d, 0.0, 0.0, 0.0, t) == 0.0 <==> d == 0.0
    ensures Cubic(0.0, 0.0, 0.0, d, t) == 0.0 <==> d == 0.0
  {
    var u := 1.0 - t;
    var tu := t * u;
    assert Cubic(d, 0.0, 0.0, 0.0, t) == -0.5 * (d * (tu * u));
    assert Cubic(0.0, 0.0, 0.0, d, t) == -0.5 * (d * (tu * t));
    ProductLess(0.0, t, u);
    ProductLess(0.0, tu, u);
    ProductLess(0.0, tu, t);
    NonZeroProduct(d, tu * u);
    NonZeroProduct(d, tu * t);
  }

  lemma NonZeroProduct(x: real, y: real)
    requires y > 0.0
    ensures x * y == 0.0 <==> x == 0.0
  {
    if x > 0.0 { ProductLess(0.0, x, y); }
    if x < 0.0 { ProductLess(x, 0.0, y); }
  }

  /** In the first piece of a chunk the curve bends exactly when the sample before the cut differs from
      the one after it. */
  lemma FirstPieceAgreesIff(before: seq<real>, chunk: seq<real>, rest: seq<real>, pos: real)
    requires before != [] && 0.0 < pos < 1.0 && (|chunk| > 2 || (rest == [] && chunk != []))
    ensures At(before + chunk + rest, |before| as real + pos) == At(chunk, pos) <==> before[|before| - 1] == chunk[0]
  {
    ChunkAgreesIff(before, chunk, rest, pos);
    assert EdgeTaps(before, chunk, rest, 0) == Taps(before[|before| - 1] - chunk[0], 0.0, 0.0, 0.0);
    CubicOfOne(before[|before| - 1] - chunk[0], pos);
  }

  /** In the last piece but one, exactly when the sample after the cut differs from the one before. */
  lemma LastButOnePieceAgreesIff(before: seq<real>, chunk: seq<real>, rest: seq<real>, pos: real)
    requires rest != [] && |chunk| >= 2 && (before == [] || |chunk| > 2)
    requires (|chunk| - 2) as real < pos < (|chunk| - 1) as real
    ensures At(before + chunk + rest, |before| as real + pos) == At(chunk, pos) <==> rest[0] == chunk[|chunk| - 1]
  {
    var i := |chunk| - 2;
    assert pos.Floor == i;
    ChunkAgreesIff(before, chunk, rest, pos);
    assert EdgeTaps(before, chunk, rest, i) == Taps(0.0, 0.0, 0.0, rest[0] - chunk[i + 1]);
    CubicOfOne(rest[0] - chunk[i + 1], pos - i as real);
  }

  /** Two samples after a cut, measured from the one before it, whose pulls on the curve cancel at t. */
  predicate Cancels(x: real, y: real, t: real) {
    (1.0 + 4.0 * t - 3.0 * (t * t)) * x == (t * (1.0 - t)) * y
  }

  lemma CubicOfTwo(x: real, y: real, t: real)
    requires 0.0 < t < 1.0
    ensures Cubic(0.0, 0.0, x, y, t) == 0.0 <==> Cancels(x, y, t)
  {
    var s := t * t;
    var k := t * s;
    CubicIsWeighted(0.0, 0.0, x, y, t, s, k);
    var f, g := 1.0 + 4.0 * t - 3.0 * s, t * (1.0 - t);
    assert -1.5 * k + 2.0 * s + 0.5 * t == (0.5 * t) * f;
    assert 0.5 * k - 0.5 * s == -((0.5 * t) * g);
    assert (0.5 * t) * f * x == (0.5 * t) * (f * x);
    assert (0.5 * t) * g * y == (0.5 * t) * (g * y);
    Distribute(0.5 * t, f * x, g * y);
    NonZeroProduct(f * x - g * y, 0.5 * t);
  }

  /** In the last piece, exactly when the next two samples, measured from the chunk's last one, cancel;
      so in particular when both equal it. */
  lemma LastPieceAgreesIff(before: seq<real>, chunk: seq<real>, rest: seq<real>, pos: real)
    requires rest != [] && chunk != [] && (before == [] || |chunk| > 1)
    requires (|chunk| - 1) as real < pos < |chunk| as real
    ensures var t, last := pos - (|chunk| - 1) as real, chunk[|chunk| - 1];
      At(before + chunk + rest, |before| as real + pos) == At(chunk, pos)
      <==> Cancels(rest[0] - last, rest[Min(1, |rest| - 1)] - last, t)
  {
    var i := |chunk| - 1;
    assert pos.Floor == i;
    ChunkAgreesIff(before, chunk, rest, pos);
    assert EdgeTaps(before, chunk, rest, i) == Taps(0.0, 0.0, rest[0] - chunk[i], rest[Min(1, |rest| - 1)] - chunk[i]);
    CubicOfTwo(rest[0] - chunk[i], rest[Min(1, |rest| - 1)] - chunk[i], pos - i as real);
  }

  /** For one: a ramp cut in two bends at the cut. */
  lemma ChunkEdgesShow()
    ensures At([0.0, 1.0], 1.5) != At([0.0, 1.0] + [2.0, 3.0], 1.5)
  {
    LastPieceAgreesIff([], [0.0, 1.0], [2.0, 3.0], 1.5);
    assert [] + [0.0, 1.0] + [2.0, 3.0] == [0.0, 1.0] + [2.0, 3.0];
  }

  /** Chunk by chunk the output grid starts anew. After n source samples that gave k outputs, the next
      chunk's outputs sit where the stream's do exactly when no position was rounded up. */
  lemma GridAlignsIff(n: nat, k: nat, i: nat, srcRate: real, dstRate: real)
    requires srcRate > 0.0 && dstRate > 0.0
    ensures Position(k + i, srcRate, dstRate) == n as real + Position(i, srcRate, dstRate)
        <==> k as real * srcRate == n as real * dstRate
  {
    var ratio := srcRate / dstRate;
    assert (k + i) as real * ratio == k as real * ratio + i as real * ratio;
    assert ratio * dstRate == srcRate;
    assert (k as real * ratio) * dstRate == k as real * srcRate;
    if k as real * ratio < n as real { ProductLess(k as real * ratio, n as real, dstRate); }
    if k as real * ratio > n as real { ProductLess(n as real, k as real * ratio, dstRate); }
  }

  // ---- chunk by chunk ----------------------------------------------------------------------------

  function Total(counts: seq<nat>): nat {
    if counts == [] then 0 else Total(counts[..|counts| - 1]) + counts[|counts| - 1]
  }

  /** The outputs the chunks of these lengths give one by one. */
  function OutLengths(lengths: seq<nat>, srcRate: real, dstRate: real): (outs: seq<nat>)
    requires srcRate > 0.0
    ensures |outs| == |lengths|
    ensures forall i | 0 <= i < |outs| :: outs[i] == OutLength(lengths[i], srcRate, dstRate)
  {
    seq(|lengths|, i requires 0 <= i < |lengths| => OutLength(lengths[i], srcRate, dstRate))
  }

  /** What n source samples would give if samples could be cut. */
  function Ideal(n: nat, srcRate: real, dstRate: real): real
    requires srcRate > 0.0
  {
    n as real * dstRate / srcRate
  }

  lemma CeilRounds(x: real)
    requires x > 0.0
    ensures x <= Max(1, Ceil(x)) as real < x + 1.0
  {
  }

  /** The output of a non-empty chunk is as long as it should be, or longer by less than a sample. */
  lemma LengthRoundsUp(n: nat, srcRate: real, dstRate: real)
    requires n > 0 && srcRate > 0.0 && dstRate > 0.0
    ensures Ideal(n, srcRate, dstRate) <= OutLength(n, srcRate, dstRate) as real < Ideal(n, srcRate, dstRate) + 1.0
  {
    ProductLess(0.0, n as real, dstRate);
    CeilRounds(Ideal(n, srcRate, dstRate));
  }

  ghost predicate NoneEmpty(lengths: seq<nat>) {
    forall i | 0 <= i < |lengths| :: lengths[i] > 0
  }

  /** No chunk's output count was rounded up. */
  ghost predicate NoneRounded(lengths: seq<nat>, srcRate: real, dstRate: real)
    requires srcRate > 0.0
  {
    forall i | 0 <= i < |lengths| :: OutLength(lengths[i], srcRate, dstRate) as real == Ideal(lengths[i], srcRate, dstRate)
  }

  function Sum(xs: seq<real>): real {
    if xs == [] then 0.0 else Sum(xs[..|xs| - 1]) + xs[|xs| - 1]
  }

  /** Sums of counts each of which is its ideal, or more by less than one. */
  lemma {:induction false} DriftSum(ideals: seq<real>, outs: seq<nat>)
    requires |ideals| == |outs|
    requires forall i | 0 <= i < |outs| :: ideals[i] <= outs[i] as real < ideals[i] + 1.0
    ensures Sum(ideals) <= Total(outs) as real
    ensures outs != [] ==> (Total(outs) as real) < Sum(ideals) + |outs| as real
    ensures Total(outs) as real == Sum(ideals) <==> forall i | 0 <= i < |outs| :: outs[i] as real == ideals[i]
  {
    if outs != [] {
      var n := |outs| - 1;
      var s, o := ideals[..n], outs[..n];
      assert forall i | 0 <= i < n :: s[i] == ideals[i] && o[i] == outs[i];
      DriftSum(s, o);
    }
  }

  function Ideals(lengths: seq<nat>, srcRate: real, dstRate: real): (ideals: seq<real>)
    requires srcRate > 0.0
    ensures |ideals| == |lengths| && forall i | 0 <= i < |ideals| :: ideals[i] == Ideal(lengths[i], srcRate, dstRate)
  {
    seq(|lengths|, i requires 0 <= i < |lengths| => Ideal(lengths[i], srcRate, dstRate))
  }

  lemma IdealAdds(a: nat, b: nat, srcRate: real, dstRate: real)
    requires srcRate > 0.0
    ensures Ideal(a + b, srcRate, dstRate) == Ideal(a, srcRate, dstRate) + Ideal(b, srcRate, dstRate)
  {
    assert (a + b) as real * dstRate == a as real * dstRate + b as real * dstRate;
  }

  lemma {:induction false} SumOfIdeals(lengths: seq<nat>, srcRate: real, dstRate: real)
    requires srcRate > 0.0
    ensures Sum(Ideals(lengths, srcRate, dstRate)) == Ideal(Total(lengths), srcRate, dstRate)
  {
    if lengths != [] {
      var front, last := lengths[..|lengths| - 1], lengths[|lengths| - 1];
      SumOfIdeals(front, srcRate, dstRate);
      IdealAdds(Total(front), last, srcRate, dstRate);
      assert Ideals(lengths, srcRate, dstRate)[..|lengths| - 1] == Ideals(front, srcRate, dstRate);
    }
  }

  /** Drift: over any list of non-empty chunks the outputs run ahead of the source by less than one sample for
      each chunk, and not at all exactly if no chunk was rounded up. */
  lemma {:induction false} Drift(lengths: seq<nat>, srcRate: real, dstRate: real)
    requires srcRate > 0.0 && dstRate > 0.0 && NoneEmpty(lengths)
    ensures var ideal, out := Ideal(Total(lengths), srcRate, dstRate), Total(OutLengths(lengths, srcRate, dstRate)) as real;
      && ideal <= out && (lengths != [] ==> out < ideal + |lengths| as real)
      && (out == ideal <==> NoneRounded(lengths, srcRate, dstRate))
  {
    forall i | 0 <= i < |lengths|
      ensures var ideal, out := Ideal(lengths[i], srcRate, dstRate), OutLength(lengths[i], srcRate, dstRate) as real;
        ideal <= out < ideal + 1.0
    {
      LengthRoundsUp(lengths[i], srcRate, dstRate);
    }
    DriftSum(Ideals(lengths, srcRate, dstRate), OutLengths(lengths, srcRate, dstRate));
    SumOfIdeals(lengths, srcRate, dstRate);
  }

  /** In a 48 kHz context speech never drifts. */
  lemma DoubleRateNeverRounds(lengths: seq<nat>)
    requires NoneEmpty(lengths)
    ensures NoneRounded(lengths, 24000.0, 48000.0)
  {
    forall i | 0 <= i < |lengths|
      ensures OutLength(lengths[i], 24000.0, 48000.0) as real == Ideal(lengths[i], 24000.0, 48000.0)
    {
      DoubleLength(lengths[i]);
    }
  }

  lemma DoubleLength(n: nat)
    requires n > 0
    ensures OutLength(n, 24000.0, 48000.0) as real == Ideal(n, 24000.0, 48000.0)
  {
    var whole := n as real * 48000.0 / 24000.0;
    assert whole == (2 * n) as real;
    assert Ceil(whole) == 2 * n;
  }

  /** The chunks resampled one by one, as the player and the batcher do it. */
  function ResampledEach(chunks: seq<seq<real>>, srcRate: real, dstRate: real): seq<Sample>
    requires srcRate > 0.0 && dstRate > 0.0
  {
    if chunks == [] then []
    else ResampledEach(chunks[..|chunks| - 1], srcRate, dstRate) + Resampled(chunks[|chunks| - 1], srcRate, dstRate)
  }

  function Lengths(chunks: seq<seq<real>>): (lengths: seq<nat>)
    ensures |lengths| == |chunks| && forall i | 0 <= i < |chunks| :: lengths[i] == |chunks[i]|
  {
    seq(|chunks|, i requires 0 <= i < |chunks| => |chunks[i]|)
  }

  lemma {:induction false} FlattenLength(chunks: seq<seq<real>>)
    ensures |Flatten(chunks)| == Total(Lengths(chunks))
  {
    if chunks != [] {
      FlattenLength(chunks[..|chunks| - 1]);
      assert Lengths(chunks)[..|chunks| - 1] == Lengths(chunks[..|chunks| - 1]);
    }
  }

  /** The chunks one by one give as many outputs as their lengths say. */
  lemma {:induction false} EachLengths(chunks: seq<seq<real>>, srcRate: real, dstRate: real)
    requires srcRate > 0.0 && dstRate > 0.0 && srcRate != dstRate
    ensures |ResampledEach(chunks, srcRate, dstRate)| == Total(OutLengths(Lengths(chunks), srcRate, dstRate))
  {
    if chunks != [] {
      var front := chunks[..|chunks| - 1];
      EachLengths(front, srcRate, dstRate);
      assert Lengths(chunks)[..|chunks| - 1] == Lengths(front);
      assert OutLengths(Lengths(chunks), srcRate, dstRate)[..|chunks| - 1] == OutLengths(Lengths(front), srcRate, dstRate);
    }
  }

  lemma PositionsAlign(n: nat, k: nat, i: nat, srcRate: real, dstRate: real)
    requires srcRate > 0.0 && dstRate > 0.0 && k as real * srcRate == n as real * dstRate
    ensures Position(k + i, srcRate, dstRate) == n as real + Position(i, srcRate, dstRate)
  {
    GridAlignsIff(n, k, i, srcRate, dstRate);
  }

  lemma LessByFactor(x: real, y: real, k: real)
    requires k > 0.0 && x * k < y * k
    ensures x < y
  {
    if y <= x {
      ProductSign(x - y, k);
      Distribute(k, x, y);
    }
  }

  /** A position inside the source belongs to an output. */
  lemma InsideIsCounted(n: nat, i: nat, srcRate: real, dstRate: real)
    requires n > 0 && srcRate > 0.0 && dstRate > 0.0 && Position(i, srcRate, dstRate) < n as real
    ensures i < OutLength(n, srcRate, dstRate)
  {
    var pos := Position(i, srcRate, dstRate);
    assert (srcRate / dstRate) * dstRate == srcRate;
    assert pos * dstRate == i as real * srcRate;
    ProductLess(pos, n as real, dstRate);
    IdealScaled(n, srcRate, dstRate);
    LessByFactor(i as real, Ideal(n, srcRate, dstRate), srcRate);
    LengthRoundsUp(n, srcRate, dstRate);
  }

  lemma IdealScaled(n: nat, srcRate: real, dstRate: real)
    requires srcRate > 0.0
    ensures Ideal(n, srcRate, dstRate) * srcRate == n as real * dstRate
  {
  }

  lemma OutputIsAt(src: seq<real>, i: nat, srcRate: real, dstRate: real)
    requires srcRate > 0.0 && dstRate > 0.0 && srcRate != dstRate && src != []
    requires i < OutLength(|src|, srcRate, dstRate)
    ensures Resampled(src, srcRate, dstRate)[i] == Num(At(src, Position(i, srcRate, dstRate)))
  {
  }

  lemma ShiftedIsInside(n: nat, chunk: nat, rest: nat, k: nat, i: nat, srcRate: real, dstRate: real)
    requires srcRate > 0.0 && dstRate > 0.0 && chunk > 0 && k as real * srcRate == n as real * dstRate
    requires i < OutLength(chunk, srcRate, dstRate)
    ensures Position(k + i, srcRate, dstRate) == n as real + Position(i, srcRate, dstRate)
    ensures k + i < OutLength(n + chunk + rest, srcRate, dstRate)
  {
    PositionsAlign(n, k, i, srcRate, dstRate);
    PositionInside(chunk, i, srcRate, dstRate);
    InsideIsCounted(n + chunk + rest, k + i, srcRate, dstRate);
  }

  /** The outputs of earlier chunks none of which was rounded up end where the source ends. */
  lemma EarlierChunksAlign(lengths: seq<nat>, n: nat, k: nat, srcRate: real, dstRate: real)
    requires srcRate > 0.0 && dstRate > 0.0 && NoneEmpty(lengths) && NoneRounded(lengths, srcRate, dstRate)
    requires n == Total(lengths) && k == Total(OutLengths(lengths, srcRate, dstRate))
    ensures k as real * srcRate == n as real * dstRate
  {
    Drift(lengths, srcRate, dstRate);
    IdealScaled(n, srcRate, dstRate);
  }

  /** The neighbours a chunk is cut off from cancel out in the curve at this position. */
  predicate EdgesCancel(before: seq<real>, chunk: seq<real>, rest: seq<real>, pos: real)
    requires 0 <= pos.Floor < |chunk|
  {
    var d := EdgeTaps(before, chunk, rest, pos.Floor);
    Cubic(d.p0, 0.0, d.p2, d.p3, pos - pos.Floor as real) == 0.0
  }

  lemma ShiftedOutputAgreesIff(before: seq<real>, chunk: seq<real>, rest: seq<real>, k: nat, i: nat,
                               srcRate: real, dstRate: real)
    requires srcRate > 0.0 && dstRate > 0.0 && chunk != [] && i < OutLength(|chunk|, srcRate, dstRate)
    requires k as real * srcRate == |before| as real * dstRate
    ensures 0 <= Position(i, srcRate, dstRate).Floor < |chunk|
    ensures k + i < OutLength(|before + chunk + rest|, srcRate, dstRate)
    ensures At(before + chunk + rest, Position(k + i, srcRate, dstRate)) == At(chunk, Position(i, srcRate, dstRate))
        <==> EdgesCancel(before, chunk, rest, Position(i, srcRate, dstRate))
  {
    ShiftedIsInside(|before|, |chunk|, |rest|, k, i, srcRate, dstRate);
    PositionInside(|chunk|, i, srcRate, dstRate);
    ChunkAgreesIff(before, chunk, rest, Position(i, srcRate, dstRate));
  }

  /** The i-th output of a chunk is the stream's output number k + i. */
  ghost predicate SameOutput(before: seq<real>, chunk: seq<real>, rest: seq<real>, k: nat, i: nat,
                             srcRate: real, dstRate: real)
    requires srcRate > 0.0 && dstRate > 0.0
  {
    var all, own := Resampled(before + chunk + rest, srcRate, dstRate), Resampled(chunk, srcRate, dstRate);
    i < |own| && k + i < |all| && all[k + i] == own[i]
  }

  lemma SameOutputIff(before: seq<real>, chunk: seq<real>, rest: seq<real>, k: nat, i: nat, srcRate: real, dstRate: real)
    requires srcRate > 0.0 && dstRate > 0.0 && srcRate != dstRate && chunk != []
    requires i < OutLength(|chunk|, srcRate, dstRate) && k as real * srcRate == |before| as real * dstRate
    ensures 0 <= Position(i, srcRate, dstRate).Floor < |chunk|
    ensures SameOutput(before, chunk, rest, k, i, srcRate, dstRate)
        <==> EdgesCancel(before, chunk, rest, Position(i, srcRate, dstRate))
  {
    ShiftedOutputAgreesIff(before, chunk, rest, k, i, srcRate, dstRate);
    OutputIsAt(before + chunk + rest, k + i, srcRate, dstRate);
    OutputIsAt(chunk, i, srcRate, dstRate);
  }

  /** Chunk by chunk against the undivided stream, as lists: if no earlier chunk was rounded up, the i-th output of
      a chunk, which comes after k outputs of the earlier ones, is the stream's output number k + i exactly when
      the neighbours cut off cancel out. */
  lemma {:induction false} ChunkOutputAgreesIff(before: seq<seq<real>>, chunk: seq<real>, rest: seq<real>, i: nat,
                                                srcRate: real, dstRate: real)
    requires srcRate > 0.0 && dstRate > 0.0 && srcRate != dstRate && chunk != []
    requires NoneEmpty(Lengths(before)) && NoneRounded(Lengths(before), srcRate, dstRate)
    requires i < OutLength(|chunk|, srcRate, dstRate)
    ensures 0 <= Position(i, srcRate, dstRate).Floor < |chunk|
    ensures var k := Total(OutLengths(Lengths(before), srcRate, dstRate));
      SameOutput(Flatten(before), chunk, rest, k, i, srcRate, dstRate)
      <==> EdgesCancel(Flatten(before), chunk, rest, Position(i, srcRate, dstRate))
  {
    var k := Total(OutLengths(Lengths(before), srcRate, dstRate));
    FlattenLength(before);
    EarlierChunksAlign(Lengths(before), |Flatten(before)|, k, srcRate, dstRate);
    SameOutputIff(Flatten(before), chunk, rest, k, i, srcRate, dstRate);
  }

  // ---- magnitude ---------------------------------------------------------------------------------

  function Abs(x: real): real {
    if x < 0.0 then -x else x
  }

  lemma SquareSign(x: real)
    ensures x * x >= 0.0
  {
    if x >= 0.0 { ProductSign(x, x); } else { ProductSign(-x, -x); }
  }

  lemma ProductBound(w: real, a: real, p: real, m: real)
    requires -a <= w <= a && -m <= p <= m
    ensures -(a * m) <= w * p <= a * m
  {
    ProductSign(a - w, m - p);
    ProductSign(a + w, m + p);
    ProductSign(a - w, m + p);
    ProductSign(a + w, m - p);
    assert (a - w) * (m - p) == a * m - a * p - w * m + w * p;
    assert (a + w) * (m + p) == a * m + a * p + w * m + w * p;
    assert (a - w) * (m + p) == a * m + a * p - w * m - w * p;
    assert (a + w) * (m - p) == a * m - a * p + w * m - w * p;
  }

  /** The four weights of the interpolant, with s the square and c the cube of t. */
  lemma CubicIsWeighted(p0: real, p1: real, p2: real, p3: real, t: real, s: real, c: real)
    requires s == t * t && c == t * s
    ensures Cubic(p0, p1, p2, p3, t)
         == (-0.5 * c + s - 0.5 * t) * p0 + (1.5 * c - 2.5 * s + 1.0) * p1
          + (-1.5 * c + 2.0 * s + 0.5 * t) * p2 + (0.5 * c - 0.5 * s) * p3
  {
    var a := -0.5 * p0 + 1.5 * p1 - 1.5 * p2 + 0.5 * p3;
    var b := p0 - 2.5 * p1 + 2.0 * p2 - 0.5 * p3;
    var d := -0.5 * p0 + 0.5 * p2;
    assert ((a * t + b) * t + d) * t + p1 == a * c + b * s + d * t + p1 by {
      assert (a * t + b) * t == a * s + b * t;
      assert (a * s + b * t + d) * t == a * c + b * s + d * t;
    }
  }

  /** The sign facts of the weights, with s the square and c the cube of t. */
  lemma Powers(t: real, s: real, c: real)
    requires 0.0 <= t <= 1.0 && s == t * t && c == t * s
    ensures s >= 0.0 && t - s >= 0.0 && s - c >= 0.0 && t - 2.0 * s + c >= 0.0 && 1.0 - 2.0 * t + s >= 0.0
    ensures t - s <= 0.25
  {
    var u := 1.0 - t;
    ProductSign(t, u);
    ProductSign(t, t * u);
    ProductSign(u, t * u);
    assert t * (t * u) == s - c && u * (t * u) == t - 2.0 * s + c;
    SquareSign(t - 0.5);
  }

  lemma TotalWeight(t: real, s: real, c: real)
    requires s >= 0.0 && t - s >= 0.0 && s - c >= 0.0 && t - 2.0 * s + c >= 0.0 && 1.0 - 2.0 * t + s >= 0.0
    requires t - s <= 0.25
    ensures Abs(-0.5 * c + s - 0.5 * t) + Abs(1.5 * c - 2.5 * s + 1.0) + Abs(-1.5 * c + 2.0 * s + 0.5 * t)
          + Abs(0.5 * c - 0.5 * s) <= 1.25
  {
  }

  /** The interpolant is a weighted sum whose weights add up to at most 5/4 in magnitude. */
  lemma Weights(p0: real, p1: real, p2: real, p3: real, t: real)
    returns (w0: real, w1: real, w2: real, w3: real)
    requires 0.0 <= t <= 1.0
    ensures Cubic(p0, p1, p2, p3, t) == w0 * p0 + w1 * p1 + w2 * p2 + w3 * p3
    ensures Abs(w0) + Abs(w1) + Abs(w2) + Abs(w3) <= 1.25
  {
    var s := t * t;
    var c := t * s;
    Powers(t, s, c);
    TotalWeight(t, s, c);
    CubicIsWeighted(p0, p1, p2, p3, t, s, c);
    w0, w1 := -0.5 * c + s - 0.5 * t, 1.5 * c - 2.5 * s + 1.0;
    w2, w3 := -1.5 * c + 2.0 * s + 0.5 * t, 0.5 * c - 0.5 * s;
  }

  lemma Scaled(a0: real, a1: real, a2: real, a3: real, m: real) returns (r0: real, r1: real, r2: real, r3: real)
    requires a0 + a1 + a2 + a3 <= 1.25 && m >= 0.0
    ensures r0 == a0 * m && r1 == a1 * m && r2 == a2 * m && r3 == a3 * m
    ensures r0 + r1 + r2 + r3 <= 1.25 * m
  {
    r0, r1, r2, r3 := a0 * m, a1 * m, a2 * m, a3 * m;
    ProductSign(1.25 - (a0 + a1 + a2 + a3), m);
  }

  /** Four products, each within its share, add up within the sum of the shares. */
  lemma WithinShares(x: real, q0: real, q1: real, q2: real, q3: real, r0: real, r1: real, r2: real, r3: real, cap: real)
    requires x == q0 + q1 + q2 + q3
    requires -r0 <= q0 <= r0 && -r1 <= q1 <= r1 && -r2 <= q2 <= r2 && -r3 <= q3 <= r3
    requires r0 + r1 + r2 + r3 <= cap
    ensures Abs(x) <= cap
  {
  }

  /** The overshoot of the interpolant is at most a quarter. */
  lemma CubicBound(p0: real, p1: real, p2: real, p3: real, t: real, m: real)
    requires 0.0 <= t <= 1.0
    requires Abs(p0) <= m && Abs(p1) <= m && Abs(p2) <= m && Abs(p3) <= m
    ensures Abs(Cubic(p0, p1, p2, p3, t)) <= 1.25 * m
  {
    var w0, w1, w2, w3 := Weights(p0, p1, p2, p3, t);
    var a0, a1, a2, a3 := Abs(w0), Abs(w1), Abs(w2), Abs(w3);
    ProductBound(w0, a0, p0, m);
    ProductBound(w1, a1, p1, m);
    ProductBound(w2, a2, p2, m);
    ProductBound(w3, a3, p3, m);
    var r0, r1, r2, r3 := Scaled(a0, a1, a2, a3, m);
    WithinShares(Cubic(p0, p1, p2, p3, t), w0 * p0, w1 * p1, w2 * p2, w3 * p3, r0, r1, r2, r3, 1.25 * m);
  }

  /** Every output is a number of magnitude at most 5/4 of the source's. */
  lemma {:induction false} OutputBound(src: seq<real>, srcRate: real, dstRate: real, m: real)
    requires src != [] && srcRate > 0.0 && dstRate > 0.0
    requires forall k | 0 <= k < |src| :: Abs(src[k]) <= m
    ensures forall out | out in Resampled(src, srcRate, dstRate) :: out.Num? && Abs(out.v) <= 1.25 * m
  {
    assert Abs(src[0]) <= m;
    var outs := Resampled(src, srcRate, dstRate);
    forall i | 0 <= i < |outs| ensures outs[i].Num? && Abs(outs[i].v) <= 1.25 * m {
      if srcRate != dstRate {
        var pos := Position(i, srcRate, dstRate);
        PositionInside(|src|, i, srcRate, dstRate);
        var i1 := pos.Floor;
        CubicBound(src[Max(i1 - 1, 0)], src[i1], src[Min(i1 + 1, |src| - 1)], src[Min(i1 + 2, |src| - 1)],
                   pos - i1 as real, m);
      }
    }
  }

  /** The only way to a NaN: an empty source at unequal rates. */
  lemma NaNIff(src: seq<real>, srcRate: real, dstRate: real)
    requires srcRate > 0.0 && dstRate > 0.0
    ensures NaN in Resampled(src, srcRate, dstRate) <==> src == [] && srcRate != dstRate
  {
    if src == [] && srcRate != dstRate {
      assert Resampled(src, srcRate, dstRate)[0] == NaN;
    }
  }

  // ---- the loop ------------------------------------------------------------------------------------

  method Interpolate(src: array<real>, pos: real) returns (v: real)
    requires src.Length > 0 && pos >= 0.0
    ensures v == At(src[..], pos)
  {
    var i1 := Min(pos.Floor, src.Length - 1);
    var i0 := Max(i1 - 1, 0);
    var i2 := Min(i1 + 1, src.Length - 1);
    var i3 := Min(i1 + 2, src.Length - 1);
    var t := pos - i1 as real;
    var a := -0.5 * src[i0] + 1.5 * src[i1] - 1.5 * src[i2] + 0.5 * src[i3];
    var b := src[i0] - 2.5 * src[i1] + 2.0 * src[i2] - 0.5 * src[i3];
    var c := -0.5 * src[i0] + 0.5 * src[i2];
    v := ((a * t + b) * t + c) * t + src[i1];
  }

  method ResampleCubic(src: array<real>, srcRate: real, dstRate: real) returns (out: array<Sample>)
    requires srcRate > 0.0 && dstRate > 0.0
    ensures out[..] == Resampled(src[..], srcRate, dstRate)
    ensures fresh(out)
  {
    if srcRate == dstRate {
      out := new Sample[src.Length](i requires 0 <= i < src.Length reads src => Num(src[i]));
      return;
    }
    out := new Sample[OutLength(src.Length, srcRate, dstRate)](_ => NaN);
    if src.Length == 0 {
      return;
    }
    for i := 0 to out.Length
      invariant forall k | 0 <= k < i :: out[k] == Num(At(src[..], Position(k, srcRate, dstRate)))
    {
      var v := Interpolate(src, Position(i, srcRate, dstRate));
      out[i] := Num(v);
    }
  }
}
