/**
 * Construction of the one-period sample buffer that the player loops:
 * `loopLength` samples at the platform's sample rate, high (1) for the
 * pulse and low (-1) for the rest of the period, and, when the second
 * channel is inverted, a second channel holding the opposite levels.
 *
 * The channel fills follow `%TypedArray%.prototype.fill(value, start)` of
 * ECMAScript (ECMA-262, section 23.2.3.9, "%TypedArray%.prototype.fill").
 */
module Waveform {
  import opened PanelState

  datatype Option<T> = None | Some(value: T)

  const High: int := 1
  const Low: int := -1

  // ---------------------------------------------------------------------
  // Index arithmetic

  /** ToIntegerOrInfinity of a finite number: truncation toward zero. */
  function Truncate(x: real): (n: int)
    ensures 0.0 <= x ==> n as real <= x < n as real + 1.0
    ensures x < 0.0 ==> n as real - 1.0 < x <= n as real && n <= 0
  {
    if 0.0 <= x then x.Floor else -((-x).Floor)
  }

  /** The index a fill starts at, for a `start` argument and an array of
      `len` elements: a negative start counts back from the end, and the
      result is clamped into [0, len]. */
  function RelativeStart(start: real, len: nat): (k: nat)
    ensures k <= len
    ensures 0 <= Truncate(start) <= len ==> k == Truncate(start)
    ensures len < Truncate(start) ==> k == len
    ensures -(len as int) <= Truncate(start) < 0 ==> k == len + Truncate(start)
    ensures Truncate(start) < -(len as int) ==> k == 0
  {
    var r := Truncate(start);
    if r < 0 then (if len + r < 0 then 0 else len + r)
    else if r < len then r else len
  }

  /** A duration of `micros` µs measured in samples at `sampleRate`. */
  function Samples(sampleRate: real, micros: real): real
  {
    sampleRate * micros / MicrosPerSecond
  }

  /** Number of samples in one period of `period` µs,
      `Math.floor(sampleRate * lambda / 1e6)`: the whole number of samples
      that fit in the period. */
  function LoopLength(sampleRate: real, period: real): (n: int)
    ensures n as real <= Samples(sampleRate, period) < n as real + 1.0
  {
    Samples(sampleRate, period).Floor
  }

  /** The (possibly fractional) sample index at which the pulse ends. */
  function PulseEnd(sampleRate: real, width: real): real
  {
    width / MicrosPerSecond * sampleRate
  }

  /** Number of high samples in channel 0 of an `n`-sample buffer. */
  function HighCount(sampleRate: real, width: real, n: nat): (k: nat)
    ensures k <= n
  {
    RelativeStart(PulseEnd(sampleRate, width), n)
  }

  // ---------------------------------------------------------------------
  // Sample patterns

  /** `k` samples at `first` followed by `n - k` samples at `rest`. */
  function TwoLevel(n: nat, k: nat, first: int, rest: int): (s: seq<int>)
    requires k <= n
    ensures |s| == n
  {
    seq(n, i requires 0 <= i < n => if i < k then first else rest)
  }

  /** The sample-wise negation of `s`. */
  function Negated(s: seq<int>): (t: seq<int>)
    ensures |t| == |s|
  {
    seq(|s|, i requires 0 <= i < |s| => -s[i])
  }

  /** Number of occurrences of `v` in `s`. */
  function Count(s: seq<int>, v: int): (c: nat)
    ensures c <= |s|
    ensures c == 0 <==> v !in s
  {
    if s == [] then 0
    else Count(s[..|s| - 1], v) + (if s[|s| - 1] == v then 1 else 0)
  }

  lemma {:induction false} TwoLevelCount(n: nat, k: nat, first: int, rest: int)
    requires k <= n && first != rest
    ensures Count(TwoLevel(n, k, first, rest), first) == k
    ensures Count(TwoLevel(n, k, first, rest), rest) == n - k
  {
    if n > 0 {
      var s := TwoLevel(n, k, first, rest);
      var k' := if k == n then n - 1 else k;
      assert s[..n - 1] == TwoLevel(n - 1, k', first, rest);
      TwoLevelCount(n - 1, k', first, rest);
    }
  }

  /** Channel 0 of a period: every sample is a level, the first `k` are high,
      the rest low, and exactly `k` are high. */
  lemma SquareWaveShape(n: nat, k: nat)
    requires k <= n
    ensures forall i :: 0 <= i < n ==> TwoLevel(n, k, High, Low)[i] in {High, Low}
    ensures forall i :: 0 <= i < n ==> (TwoLevel(n, k, High, Low)[i] == High <==> i < k)
    ensures Count(TwoLevel(n, k, High, Low), High) == k
    ensures Count(TwoLevel(n, k, High, Low), Low) == n - k
  {
    TwoLevelCount(n, k, High, Low);
  }

  /** The inverted channel is the negation of channel 0, so its high samples
      are exactly channel 0's low ones. */
  lemma InvertedIsNegation(n: nat, k: nat)
    requires k <= n
    ensures TwoLevel(n, k, Low, High) == Negated(TwoLevel(n, k, High, Low))
    ensures Count(TwoLevel(n, k, Low, High), High) == n - k
  {
    TwoLevelCount(n, k, Low, High);
  }

  /** For a non-negative pulse at a non-negative sample rate, the number of
      high samples is `min(n, floor(width * sampleRate / 1e6))`. */
  lemma HighCountIsClampedFloor(sampleRate: real, width: real, n: nat)
    requires 0.0 <= sampleRate && 0.0 <= width
    ensures HighCount(sampleRate, width, n) ==
      if PulseEnd(sampleRate, width).Floor <= n then PulseEnd(sampleRate, width).Floor else n
  {
  }

  /** For a non-negative pulse that fits in the buffer, the high samples
      cover the pulse to within one sample. */
  lemma HighCountTracksPulse(sampleRate: real, width: real, n: nat)
    requires 0.0 <= sampleRate && 0.0 <= width && Truncate(PulseEnd(sampleRate, width)) <= n
    ensures HighCount(sampleRate, width, n) as real <= PulseEnd(sampleRate, width)
    ensures PulseEnd(sampleRate, width) < HighCount(sampleRate, width, n) as real + 1.0
  {
    HighCountIsClampedFloor(sampleRate, width, n);
  }

  /** When the pulse fits the period and the sample rate is non-negative,
      the pulse end never passes the buffer's end, so the clamp does not
      engage. */
  lemma PulseInsidePeriodNeedsNoClamp(sampleRate: real, p: Panel)
    requires 0.0 <= sampleRate && WellFormed(p)
    ensures 0 <= Truncate(PulseEnd(sampleRate, p.width)) <= LoopLength(sampleRate, p.lambda)
    ensures HighCount(sampleRate, p.width, LoopLength(sampleRate, p.lambda)) == Truncate(PulseEnd(sampleRate, p.width))
  {
  }

  /** A pulse at least as long as the period makes every sample high. */
  lemma OverlongPulseIsAllHigh(sampleRate: real, p: Panel)
    requires 0.0 < sampleRate && 0.0 < p.lambda <= p.width
    ensures HighCount(sampleRate, p.width, LoopLength(sampleRate, p.lambda)) == LoopLength(sampleRate, p.lambda)
  {
    assert sampleRate * p.lambda <= sampleRate * p.width;
    assert PulseEnd(sampleRate, p.width) == Samples(sampleRate, p.width);
    assert Samples(sampleRate, p.lambda) <= PulseEnd(sampleRate, p.width);
  }

  /** A pulse end in [-n, 0) (a negative pulse width at a positive sample
      rate) still yields an in-range index: the fill starts counting back
      from the end of the buffer. */
  lemma NegativePulseCountsFromEnd(sampleRate: real, width: real, n: nat)
    requires -(n as int) <= Truncate(PulseEnd(sampleRate, width)) < 0
    ensures HighCount(sampleRate, width, n) == n + Truncate(PulseEnd(sampleRate, width))
  {
  }

  // ---------------------------------------------------------------------
  // The platform buffer and the typed-array fill

  /** An audio buffer: `|channels|` channels of `length` samples each. */
  class AudioBuffer {
    const length: nat
    const sampleRate: real
    const channels: seq<array<int>>

    ghost predicate Valid()
      reads this
    {
      (forall i :: 0 <= i < |channels| ==> channels[i].Length == length) &&
      (forall i, j :: 0 <= i < j < |channels| ==> channels[i] != channels[j])
    }

    /** A new buffer is silent: all samples of all channels are 0. */
    constructor (length: nat, numberOfChannels: nat, sampleRate: real)
      ensures Valid()
      ensures this.length == length && this.sampleRate == sampleRate
      ensures |channels| == numberOfChannels
      ensures forall i :: 0 <= i < |channels| ==> fresh(channels[i])
      ensures forall i :: 0 <= i < |channels| ==> channels[i][..] == seq(length, _ => 0)
    {
      var cs: seq<array<int>> := [];
      while |cs| < numberOfChannels
        invariant |cs| <= numberOfChannels
        invariant forall i :: 0 <= i < |cs| ==> fresh(cs[i]) && cs[i].Length == length
        invariant forall i :: 0 <= i < |cs| ==> cs[i][..] == seq(length, _ => 0)
        invariant forall i, j :: 0 <= i < j < |cs| ==> cs[i] != cs[j]
      {
        var c := new int[length](_ => 0);
        cs := cs + [c];
      }
      this.length := length;
      this.sampleRate := sampleRate;
      channels := cs;
    }
  }

  /** `a.fill(value, start)`: every element from the relative start to the
      end becomes `value`; the elements before it keep their values. */
  method Fill(a: array<int>, value: int, start: real)
    modifies a
    ensures forall i :: 0 <= i < a.Length ==>
      a[i] == if i < RelativeStart(start, a.Length) then old(a[i]) else value
  {
    var k := RelativeStart(start, a.Length);
    var i := k;
    while i < a.Length
      invariant k <= i <= a.Length
      invariant forall j :: 0 <= j < a.Length ==>
        a[j] == if k <= j < i then value else old(a[j])
    {
      a[i] := value;
      i := i + 1;
    }
  }

  /** The buffer the player loops for panel `p` at `sampleRate`: none while
      stopped or when a period is shorter than one sample; otherwise one
      channel holding a period of the square wave and, when `p.inverted`,
      a second channel holding its negation. */
  method BuildLoop(sampleRate: real, p: Panel) returns (buffer: Option<AudioBuffer>)
    ensures buffer.None? <==> !p.playing || LoopLength(sampleRate, p.lambda) < 1
    ensures buffer.Some? ==>
      var b := buffer.value;
      var n := LoopLength(sampleRate, p.lambda);
      var k := HighCount(sampleRate, p.width, n);
      b.Valid() && b.length == n && b.sampleRate == sampleRate &&
      |b.channels| == (if p.inverted then 2 else 1) &&
      (forall i :: 0 <= i < |b.channels| ==> fresh(b.channels[i])) &&
      b.channels[0][..] == TwoLevel(n, k, High, Low) &&
      (p.inverted ==> b.channels[1][..] == Negated(b.channels[0][..]))
  {
    if !p.playing {
      return None;
    }
    var n := LoopLength(sampleRate, p.lambda);
    if n < 1 {
      return None;
    }
    var b := new AudioBuffer(n, if p.inverted then 2 else 1, sampleRate);
    var k := HighCount(sampleRate, p.width, n);
    var c0 := b.channels[0];
    Fill(c0, High, 0.0);
    Fill(c0, Low, PulseEnd(sampleRate, p.width));
    assert c0[..] == TwoLevel(n, k, High, Low);
    if p.inverted {
      var c1 := b.channels[1];
      Fill(c1, Low, 0.0);
      Fill(c1, High, PulseEnd(sampleRate, p.width));
      assert c1[..] == TwoLevel(n, k, Low, High);
      assert c0[..] == TwoLevel(n, k, High, Low);
      InvertedIsNegation(n, k);
    }
    buffer := Some(b);
  }
}
