/**
 Streaming linear resampler. Positions are exact: a read position is kept as an integer number of
 1/toRate-ths of a source sample, so `position` here is the source's fractional position times toRate.
 */
module Resampling {
  import opened Arithmetic
  import opened Audio
  import opened Wrappers

  function Lerp(a: Sample, b: Sample, num: nat, den: nat): Sample
    requires den > 0
  {
    var fraction := num as real / den as real;
    a * (1.0 - fraction) + b * fraction
  }

  // ----- Resampling a whole signal at once: the reference.

  /** Outputs due after `n` samples: ceil((n - 1) * to / from). */
  function OutputCount(from: nat, to: nat, n: nat): nat
    requires from > 0 && to > 0
  {
    if n == 0 then 0 else ((n - 1) * to + from - 1) / from
  }

  /** Output `k` interpolates between source samples floor(k * from / to) and the next. */
  function OutputAt(from: nat, to: nat, signal: seq<Sample>, k: nat): Sample
    requires from > 0 && to > 0
    requires k * from / to + 1 < |signal|
  {
    Lerp(signal[k * from / to], signal[k * from / to + 1], k * from % to, to)
  }

  function Whole(from: nat, to: nat, signal: seq<Sample>): (out: seq<Sample>)
    requires from > 0 && to > 0
  {
    if from == to then signal
    else
      seq(OutputCount(from, to, |signal|), k requires 0 <= k < OutputCount(from, to, |signal|) =>
        DueExactly(from, to, |signal|, k);
        OutputAt(from, to, signal, k))
  }

  /** Output `k` is due after `n` samples exactly when both its neighbours have arrived. */
  lemma {:induction false} DueExactly(from: nat, to: nat, n: nat, k: nat)
    requires from > 0 && to > 0
    ensures k < OutputCount(from, to, n) <==> k * from / to + 1 < n
  {
    if n > 0 {
      var total := (n - 1) * to;
      var count := OutputCount(from, to, n);
      var q, r := k * from / to, k * from % to;
      assert k * from == to * q + r;
      assert total + from - 1 == from * count + (total + from - 1) % from;
      if k < count {
        MulMonotone(from, k, count);
        assert k * from < total;
        if n - 1 <= q {
          assert to * (n - 1) <= to * q by { if n - 1 < q { MulMonotone(to, n - 1, q); } }
        }
      } else {
        assert from * count <= from * k by { if count < k { MulMonotone(from, count, k); } }
        assert total <= k * from;
        if q < n - 1 {
          MulMonotone(to, q, n - 1);
        }
      }
    }
  }

  lemma {:induction false} CountMonotone(from: nat, to: nat, m: nat, n: nat)
    requires from > 0 && to > 0 && m <= n
    ensures OutputCount(from, to, m) <= OutputCount(from, to, n)
  {
    if OutputCount(from, to, n) < OutputCount(from, to, m) {
      DueExactly(from, to, m, OutputCount(from, to, n));
      DueExactly(from, to, n, OutputCount(from, to, n));
    }
  }

  /** Later samples only append: no output already due changes. */
  lemma {:induction false} WholePrefix(from: nat, to: nat, signal: seq<Sample>, more: seq<Sample>)
    requires from > 0 && to > 0
    ensures Whole(from, to, signal) <= Whole(from, to, signal + more)
  {
    CountMonotone(from, to, |signal|, |signal + more|);
    if from != to {
      forall k | 0 <= k < OutputCount(from, to, |signal|)
        ensures Whole(from, to, signal)[k] == Whole(from, to, signal + more)[k]
      {
        DueExactly(from, to, |signal|, k);
        DueExactly(from, to, |signal + more|, k);
      }
    }
  }

  // ----- What the outputs are worth.

  // The samples of a straight line.
  ghost predicate Affine(signal: seq<Sample>, c: real, d: real) {
    forall i | 0 <= i < |signal| :: signal[i] == c + d * i as real
  }

  // The line at the time of output `k`, k * from / to source samples from the start.
  function LineAt(from: nat, to: nat, c: real, d: real, k: nat): real
    requires to > 0
  {
    c + d * ((k * from) as real / to as real)
  }

  // Every output read off the same line at its own time.
  ghost predicate AffineAt(out: seq<Sample>, from: nat, to: nat, c: real, d: real)
    requires to > 0
  {
    forall k | 0 <= k < |out| :: out[k] == LineAt(from, to, c, d, k)
  }

  lemma {:induction false} LerpOnLine(c: real, d: real, q: nat, num: nat, den: nat)
    requires den > 0
    ensures Lerp(c + d * q as real, c + d * (q + 1) as real, num, den)
            == c + d * ((q * den + num) as real / den as real)
  {
    var fraction := num as real / den as real;
    assert fraction * den as real == num as real;
    assert (q as real + fraction) * den as real == (q * den + num) as real;
    assert q as real + fraction == (q * den + num) as real / den as real;
    calc {
      Lerp(c + d * q as real, c + d * (q + 1) as real, num, den);
      (c + d * q as real) * (1.0 - fraction) + (c + d * (q as real + 1.0)) * fraction;
      c + d * (q as real + fraction);
    }
  }

  lemma {:induction false} WholeIs(from: nat, to: nat, signal: seq<Sample>, k: nat)
    requires from > 0 && to > 0 && from != to && k < |Whole(from, to, signal)|
    ensures k * from / to + 1 < |signal| && Whole(from, to, signal)[k] == OutputAt(from, to, signal, k)
  {
    DueExactly(from, to, |signal|, k);
  }

  // Where output `k` falls: after sample `q`, by `r` parts out of `to`.
  lemma {:induction false} WholeAt(from: nat, to: nat, signal: seq<Sample>, k: nat) returns (q: nat, r: nat)
    requires from > 0 && to > 0 && from != to && k < |Whole(from, to, signal)|
    ensures q == k * from / to && r == k * from % to < to && q * to + r == k * from
    ensures q + 1 < |signal| && Whole(from, to, signal)[k] == Lerp(signal[q], signal[q + 1], r, to)
  {
    WholeIs(from, to, signal, k);
    q, r := Split(k * from, to);
  }

  lemma {:induction false} Split(x: nat, m: nat) returns (q: nat, r: nat)
    requires m > 0
    ensures q == x / m && r == x % m < m && q * m + r == x
  {
    q, r := x / m, x % m;
  }

  lemma {:induction false} SameRateTime(from: nat, k: nat)
    requires from > 0
    ensures (k * from) as real / from as real == k as real
  {
    assert (k * from) as real == k as real * from as real;
  }

  lemma {:induction false} LineIsStraight(from: nat, c: real, d: real, k: nat)
    requires from > 0
    ensures LineAt(from, from, c, d, k) == c + d * k as real
  {
    SameRateTime(from, k);
  }

  lemma {:induction false} OutputOnLine(from: nat, to: nat, signal: seq<Sample>, c: real, d: real, k: nat)
    requires from > 0 && to > 0 && Affine(signal, c, d) && k < |Whole(from, to, signal)|
    ensures Whole(from, to, signal)[k] == LineAt(from, to, c, d, k)
  {
    if from == to {
      LineIsStraight(from, c, d, k);
    } else {
      var q, r := WholeAt(from, to, signal, k);
      OnLine(signal[q], signal[q + 1], q, r, from, to, c, d, k);
    }
  }

  lemma {:induction false} OnLine(
      a: real, b: real, q: nat, r: nat, from: nat, to: nat, c: real, d: real, k: nat)
    requires to > 0 && q * to + r == k * from && a == c + d * q as real && b == c + d * (q + 1) as real
    ensures Lerp(a, b, r, to) == LineAt(from, to, c, d, k)
  {
    LerpOnLine(c, d, q, r, to);
  }

  /** A straight line comes out as the same line, each output at its own time. */
  lemma {:induction false} WholeAffine(from: nat, to: nat, signal: seq<Sample>, c: real, d: real)
    requires from > 0 && to > 0 && Affine(signal, c, d)
    ensures AffineAt(Whole(from, to, signal), from, to, c, d)
  {
    forall k | 0 <= k < |Whole(from, to, signal)|
      ensures Whole(from, to, signal)[k] == LineAt(from, to, c, d, k)
    {
      OutputOnLine(from, to, signal, c, d, k);
    }
  }

  /** An output that lands on a source sample is that sample. */
  lemma {:induction false} WholeOnSample(from: nat, to: nat, signal: seq<Sample>, k: nat)
    requires from > 0 && to > 0 && k < |Whole(from, to, signal)| && k * from % to == 0
    ensures k * from / to < |signal| && Whole(from, to, signal)[k] == signal[k * from / to]
  {
    if from == to {
      SameRatePlace(from, k);
    } else {
      var q, r := WholeAt(from, to, signal, k);
      LerpAtStart(signal[q], signal[q + 1], to);
    }
  }

  lemma {:induction false} SameRatePlace(from: nat, k: nat)
    requires from > 0
    ensures k * from / from == k
  {
    DivModUnique(k * from, from, k, 0);
  }

  lemma {:induction false} LerpAtStart(a: real, b: real, den: nat)
    requires den > 0
    ensures Lerp(a, b, 0, den) == a
  {
  }

  predicate Between(x: real, a: real, b: real) {
    a <= x <= b || b <= x <= a
  }

  /** Every output lies between its two source samples. */
  lemma {:induction false} WholeBetween(from: nat, to: nat, signal: seq<Sample>, k: nat)
    requires from > 0 && to > 0 && from != to && k < |Whole(from, to, signal)|
    ensures var q := k * from / to;
            q + 1 < |signal| && Between(Whole(from, to, signal)[k], signal[q], signal[q + 1])
  {
    var q, r := WholeAt(from, to, signal, k);
    LerpBetween(signal[q], signal[q + 1], r, to);
  }

  lemma {:induction false} LerpBetween(a: real, b: real, num: nat, den: nat)
    requires num < den
    ensures Between(Lerp(a, b, num, den), a, b)
  {
    MixBetween(a, b, num as real / den as real);
  }

  lemma {:induction false} MixBetween(a: real, b: real, fraction: real)
    requires 0.0 <= fraction <= 1.0
    ensures Between(a * (1.0 - fraction) + b * fraction, a, b)
  {
    if a <= b {
      var gap, part := b - a, PartOf(b - a, fraction);
      assert a * (1.0 - fraction) + (a + gap) * fraction == a + gap * fraction;
    } else {
      var gap, part := a - b, PartOf(a - b, 1.0 - fraction);
      assert (b + gap) * (1.0 - fraction) + b * fraction == b + gap * (1.0 - fraction);
    }
  }

  function PartOf(x: real, fraction: real): (part: real)
    requires 0.0 <= x && 0.0 <= fraction <= 1.0
    ensures 0.0 <= part <= x && part == x * fraction
  {
    assert x * (1.0 - fraction) >= 0.0;
    x * fraction
  }

  // ----- The streaming form.

  // `sample_at`: index -1 is the previous block's last sample.
  function SampleAt(previous: Option<Sample>, input: seq<Sample>, index: int): Sample
    requires |input| > 0 && -1 <= index < |input|
  {
    if index < 0 then previous.GetOr(input[0]) else input[index]
  }

  /** The state a resampler is in once it has been fed `signal`. */
  ghost predicate Carries(from: nat, to: nat, signal: seq<Sample>, position: int, previous: Option<Sample>)
    requires from > 0 && to > 0
  {
    if from == to || signal == [] then position == 0 && previous == None
    else position == OutputCount(from, to, |signal|) * from - |signal| * to
         && previous == Some(signal[|signal| - 1])
  }

  /** The carried position never reaches further back than the one sample that is kept. */
  lemma {:induction false} CarriedPosition(from: nat, to: nat, signal: seq<Sample>, position: int,
      previous: Option<Sample>)
    requires from > 0 && to > 0
    requires Carries(from, to, signal, position, previous)
    ensures position + to >= 0
    ensures position < 0 ==> previous.Some?
  {
    if from != to && signal != [] {
      var n := |signal|;
      var count := OutputCount(from, to, n);
      assert (n - 1) * to + from - 1 == from * count + ((n - 1) * to + from - 1) % from;
      assert (n - 1) * to == n * to - to;
    }
  }

  // Output `c`, read relative to a block that starts after `before` samples.
  lemma {:induction false} BlockIndex(from: nat, to: nat, c: nat, before: nat)
    requires from > 0 && to > 0
    ensures (c * from - before * to) / to == c * from / to - before
    ensures (c * from - before * to) % to == c * from % to
  {
    DivModShift(c * from, to, 0 - before);
    assert c * from + to * (0 - before) == c * from - before * to;
  }

  class Resampler {
    const fromRate: nat
    const toRate: nat
    var position: int
    var previous: Option<Sample>
    // Everything pushed so far.
    ghost var fed: seq<Sample>

    ghost predicate Valid()
      reads this
    {
      fromRate > 0 && toRate > 0 && Carries(fromRate, toRate, fed, position, previous)
    }

    constructor (fromRate: nat, toRate: nat)
      requires fromRate > 0 && toRate > 0
      ensures Valid() && fed == [] && this.fromRate == fromRate && this.toRate == toRate
    {
      this.fromRate, this.toRate := fromRate, toRate;
      position, previous, fed := 0, None, [];
    }

    predicate IsIdentity() {
      fromRate == toRate
    }

    /** Appends to `out` exactly the outputs that became due with `input`. */
    method Push(input: seq<Sample>, out: seq<Sample>) returns (extended: seq<Sample>)
      requires Valid()
      modifies this
      ensures Valid() && fed == old(fed) + input
      ensures Whole(fromRate, toRate, old(fed)) <= Whole(fromRate, toRate, fed)
      ensures extended == out + Whole(fromRate, toRate, fed)[|Whole(fromRate, toRate, old(fed))|..]
    {
      ghost var before := fed;
      ghost var after := before + input;
      WholePrefix(fromRate, toRate, before, input);
      extended := out;

      if |input| == 0 {
        assert after == before;
        return;
      }

      if IsIdentity() {
        extended := extended + input;
        fed := after;
        return;
      }

      var pos;
      extended, pos := Interpolate(input, out);
      position := pos - |input| * toRate;
      previous := Some(input[|input| - 1]);
      fed := after;
      CarriesOn(before, input, pos);
    }

    // The loop of `push`: `pos` is relative to the start of this block and negative between blocks.
    method Interpolate(input: seq<Sample>, out: seq<Sample>) returns (extended: seq<Sample>, pos: int)
      requires Valid() && !IsIdentity() && |input| > 0
      ensures pos == ScaledPosition(OutputCount(fromRate, toRate, |fed + input|), |fed|)
      ensures OutputCount(fromRate, toRate, |fed|) <= OutputCount(fromRate, toRate, |fed + input|)
      ensures extended == out + Whole(fromRate, toRate, fed + input)[OutputCount(fromRate, toRate, |fed|)..]
    {
      var last := |input| - 1;
      pos := position;
      extended := out;
      ghost var first := OutputCount(fromRate, toRate, |fed|);
      ghost var count := first;
      ghost var whole := Whole(fromRate, toRate, fed + input);
      CarriedPosition(fromRate, toRate, fed, position, previous);
      CountMonotone(fromRate, toRate, |fed|, |fed + input|);
      DueInBlock(fed, input, count);

      while pos / toRate < last
        invariant first <= count <= |whole|
        invariant pos == ScaledPosition(count, |fed|)
        invariant pos / toRate < last <==> count < |whole|
        invariant pos >= position
        invariant extended == out + whole[first..count]
        decreases |whole| - count
      {
        var lower := pos / toRate;
        NeighboursInBlock(fed, input, previous, pos, count);
        var a := SampleAt(previous, input, lower);
        var b := SampleAt(previous, input, lower + 1);
        extended := extended + [Lerp(a, b, pos % toRate, toRate)];
        StepPosition(count, |fed|);
        pos := pos + fromRate;
        count := count + 1;
        DueInBlock(fed, input, count);
      }
    }

    // Where output `count` reads, relative to a block that starts after `before` samples.
    ghost function ScaledPosition(count: nat, before: nat): int {
      count * fromRate - before * toRate
    }

    lemma {:induction false} StepPosition(count: nat, before: nat)
      ensures ScaledPosition(count + 1, before) == ScaledPosition(count, before) + fromRate
    {
    }

    lemma {:induction false} CarriesOn(before: seq<Sample>, input: seq<Sample>, pos: int)
      requires fromRate > 0 && toRate > 0 && fromRate != toRate && |input| > 0
      requires pos == ScaledPosition(OutputCount(fromRate, toRate, |before + input|), |before|)
      ensures Carries(fromRate, toRate, before + input, pos - |input| * toRate, Some(input[|input| - 1]))
    {
      assert |before| * toRate + |input| * toRate == |before + input| * toRate;
    }

    // The loop guard asks whether the next output is due.
    lemma {:induction false} DueInBlock(before: seq<Sample>, input: seq<Sample>, count: nat)
      requires fromRate > 0 && toRate > 0
      ensures ScaledPosition(count, |before|) / toRate < |input| - 1
              <==> count < OutputCount(fromRate, toRate, |before + input|)
    {
      BlockIndex(fromRate, toRate, count, |before|);
      DueExactly(fromRate, toRate, |before + input|, count);
    }

    // A block's two neighbours are the whole signal's; `input[0]` never stands in for a missing sample.
    lemma {:induction false} NeighboursInBlock(before: seq<Sample>, input: seq<Sample>, previous: Option<Sample>,
        pos: int, count: nat)
      requires fromRate > 0 && toRate > 0 && fromRate != toRate
      requires |input| > 0 && pos == ScaledPosition(count, |before|)
      requires pos + toRate >= 0 && (pos < 0 ==> previous.Some?)
      requires before != [] ==> previous == Some(before[|before| - 1])
      requires pos / toRate < |input| - 1
      requires before == [] ==> pos >= 0
      ensures count < |Whole(fromRate, toRate, before + input)|
      ensures -1 <= pos / toRate
      ensures Lerp(SampleAt(previous, input, pos / toRate), SampleAt(previous, input, pos / toRate + 1),
                   pos % toRate, toRate)
              == Whole(fromRate, toRate, before + input)[count]
    {
      BlockIndex(fromRate, toRate, count, |before|);
      DueInBlock(before, input, count);
      DueExactly(fromRate, toRate, |before + input|, count);
      var lower := pos / toRate;
      var signal := before + input;
      var i := count * fromRate / toRate;
      DivAtLeast(pos, toRate);
      assert lower == i - |before|;
      assert SampleAt(previous, input, lower) == signal[i];
      assert SampleAt(previous, input, lower + 1) == signal[i + 1];
    }
  }

  /** Pushing a signal in any blocks, empty ones included, gives what one push of the whole gives. */
  method PushInBlocks(fromRate: nat, toRate: nat, blocks: seq<seq<Sample>>) returns (out: seq<Sample>)
    requires fromRate > 0 && toRate > 0
    ensures out == Whole(fromRate, toRate, Flatten(blocks))
    ensures forall c, d | Affine(Flatten(blocks), c, d) :: AffineAt(out, fromRate, toRate, c, d)
  {
    var resampler := new Resampler(fromRate, toRate);
    out := [];
    for i := 0 to |blocks|
      invariant resampler.Valid() && fresh(resampler)
      invariant resampler.fromRate == fromRate && resampler.toRate == toRate
      invariant resampler.fed == Flatten(blocks[..i])
      invariant out == Whole(fromRate, toRate, resampler.fed)
    {
      assert blocks[..i + 1][..i] == blocks[..i];
      out := resampler.Push(blocks[i], out);
    }
    assert blocks[..|blocks|] == blocks;
    forall c, d | Affine(Flatten(blocks), c, d) ensures AffineAt(out, fromRate, toRate, c, d) {
      WholeAffine(fromRate, toRate, Flatten(blocks), c, d);
    }
  }
}
