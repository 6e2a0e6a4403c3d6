/** The two-band quadrature mirror filter bank: `WebRtcSpl_AnalysisQMF`
    splits a full-band frame into a low and a high band, and
    `WebRtcSpl_SynthesisQMF` merges the two bands back. Both run two
    all-pass cascades, one per polyphase branch, each with its own six
    state words that carry over from one call to the next. */
module Qmf {
  import opened FixedPoint
  import opened AllPass

  /** `kMaxBandFrameLength`: the size of the local working buffers, 10 ms
      at 64 kHz. */
  const MaxBandFrameLength: nat := 320

  // ---------------------------------------------------------------------
  // Polyphase helpers

  /** The samples at even positions 0, 2, 4, ... (one per pair). */
  function Evens<T>(x: seq<T>): seq<T>
  {
    seq(|x| / 2, i requires 0 <= i < |x| / 2 => x[2 * i])
  }

  /** The samples at odd positions 1, 3, 5, ... (one per pair). */
  function Odds<T>(x: seq<T>): seq<T>
  {
    seq(|x| / 2, i requires 0 <= i < |x| / 2 => x[2 * i + 1])
  }

  /** e[0], o[0], e[1], o[1], ...: the inverse of splitting into `Evens`
      and `Odds`. */
  function Interleave<T>(e: seq<T>, o: seq<T>): (r: seq<T>)
    requires |e| == |o|
    ensures |r| == 2 * |e|
    decreases |e|
  {
    if |e| == 0 then [] else [e[0], o[0]] + Interleave(e[1..], o[1..])
  }

  /** Position 2i of an interleaving holds e[i] and position 2i+1 holds o[i]. */
  lemma {:induction false} InterleaveAt<T>(e: seq<T>, o: seq<T>, i: nat)
    requires |e| == |o| && i < |e|
    ensures Interleave(e, o)[2 * i] == e[i] && Interleave(e, o)[2 * i + 1] == o[i]
    decreases i
  {
    if i > 0 {
      InterleaveAt(e[1..], o[1..], i - 1);
      assert Interleave(e, o) == [e[0], o[0]] + Interleave(e[1..], o[1..]);
    }
  }

  /** Splitting an interleaving gives back both halves. */
  lemma EvensOddsOfInterleave<T>(e: seq<T>, o: seq<T>)
    requires |e| == |o|
    ensures Evens(Interleave(e, o)) == e && Odds(Interleave(e, o)) == o
  {
    forall i | 0 <= i < |e|
      ensures Evens(Interleave(e, o))[i] == e[i] && Odds(Interleave(e, o))[i] == o[i]
    {
      InterleaveAt(e, o, i);
    }
  }

  /** Interleaving the two halves of an even-length sequence gives it back. */
  lemma InterleaveOfEvensOdds<T>(x: seq<T>)
    requires |x| % 2 == 0
    ensures Interleave(Evens(x), Odds(x)) == x
  {
    var r := Interleave(Evens(x), Odds(x));
    forall k | 0 <= k < |x|
      ensures r[k] == x[k]
    {
      InterleaveAt(Evens(x), Odds(x), k / 2);
    }
  }

  /** Interleaving distributes over concatenation. */
  lemma {:induction false} InterleaveConcat<T>(e1: seq<T>, o1: seq<T>, e2: seq<T>, o2: seq<T>)
    requires |e1| == |o1| && |e2| == |o2|
    ensures Interleave(e1 + e2, o1 + o2) == Interleave(e1, o1) + Interleave(e2, o2)
    decreases |e1|
  {
    if |e1| > 0 {
      assert (e1 + e2)[1..] == e1[1..] + e2 && (o1 + o2)[1..] == o1[1..] + o2;
      InterleaveConcat(e1[1..], o1[1..], e2, o2);
    } else {
      assert e1 + e2 == e2 && o1 + o2 == o2;
    }
  }

  /** Splitting a concatenation of even-length parts splits each part. */
  lemma EvensOddsConcat<T>(x: seq<T>, y: seq<T>)
    requires |x| % 2 == 0
    ensures Evens(x + y) == Evens(x) + Evens(y) && Odds(x + y) == Odds(x) + Odds(y)
  {
    assert |Evens(x + y)| == |Evens(x) + Evens(y)|;
    forall i | 0 <= i < |Evens(x + y)|
      ensures Evens(x + y)[i] == (Evens(x) + Evens(y))[i] && Odds(x + y)[i] == (Odds(x) + Odds(y))[i]
    {
      if i >= |x| / 2 {
        assert 2 * i - |x| == 2 * (i - |x| / 2);
      }
    }
  }

  /** An even length is twice its half. */
  lemma HalfOfEven(n: int)
    requires n % 2 == 0
    ensures 2 * (n / 2) == n
  {
  }

  /** The last odd and the last even sample of an even-length frame, in Q10,
      are the last two samples of the frame. */
  lemma LastPair(x: seq<Int16>)
    requires |x| % 2 == 0 && |x| >= 2
    ensures |ToQ10(Odds(x))| == |ToQ10(Evens(x))| == |x| / 2
    ensures ToQ10(Odds(x))[|x| / 2 - 1] == x[|x| - 1] as int * 1024
    ensures ToQ10(Evens(x))[|x| / 2 - 1] == x[|x| - 2] as int * 1024
  {
    var b := |x| / 2 - 1;
    assert 2 * b + 1 == |x| - 1;
  }

  // ---------------------------------------------------------------------
  // Sample-wise maps

  /** Samples shifted into Q10 (`* (1 << 10)`); an int16 sample times 1024
      always fits in 32 bits. */
  function ToQ10(x: seq<Int16>): seq<Int32>
  {
    seq(|x|, i requires 0 <= i < |x| => x[i] as int * 1024)
  }

  /** Synthesis sum channel in Q10: (low + high) * 1024. */
  function SumQ10(low: seq<Int16>, high: seq<Int16>): (r: seq<Int32>)
    requires |low| == |high|
    ensures |r| == |low|
  {
    seq(|low|, i requires 0 <= i < |low| => (low[i] as int + high[i]) * 1024)
  }

  /** Synthesis difference channel in Q10: (low - high) * 1024. */
  function DiffQ10(low: seq<Int16>, high: seq<Int16>): (r: seq<Int32>)
    requires |low| == |high|
    ensures |r| == |low|
  {
    seq(|low|, i requires 0 <= i < |low| => (low[i] as int - high[i]) * 1024)
  }

  /** f applied to the two sequences position by position. */
  function Zip(f: (Int32, Int32) -> Int16, a: seq<Int32>, b: seq<Int32>): (r: seq<Int16>)
    requires |a| == |b|
    ensures |r| == |a|
  {
    seq(|a|, i requires 0 <= i < |a| => f(a[i], b[i]))
  }

  lemma ZipConcat(f: (Int32, Int32) -> Int16, a1: seq<Int32>, b1: seq<Int32>, a2: seq<Int32>, b2: seq<Int32>)
    requires |a1| == |b1| && |a2| == |b2|
    ensures Zip(f, a1 + a2, b1 + b2) == Zip(f, a1, b1) + Zip(f, a2, b2)
  {
    forall i | 0 <= i < |a1| + |a2|
      ensures Zip(f, a1 + a2, b1 + b2)[i] == (Zip(f, a1, b1) + Zip(f, a2, b2))[i]
    {
      if i >= |a1| {
        assert (a1 + a2)[i] == a2[i - |a1|] && (b1 + b2)[i] == b2[i - |a1|];
      }
    }
  }

  /** r is v in Q11 rounded to the nearest integer, halves up, then
      clamped to the int16 range. */
  predicate RoundedQ11(r: int, v: int)
  {
    && (Int16Min < r < Int16Max ==> 2048 * r - 1024 <= v < 2048 * r + 1024)
    && (r == Int16Max ==> 2048 * r - 1024 <= v)
    && (r == Int16Min ==> v < 2048 * r + 1024)
  }

  /** One low-band sample: `SatW32ToW16((f1 + f2 + 1024) >> 11)`, the sum
      in `int32_t` (see `RoundShift11`), so a sum that leaves the 32-bit
      range is rounded after moving by 2^32. */
  function LowSample(f1: Int32, f2: Int32): (r: Int16)
    ensures Int32Min <= f1 as int + f2 + 1024 <= Int32Max ==> RoundedQ11(r, f1 as int + f2)
    ensures Int32Max < f1 as int + f2 + 1024 ==> RoundedQ11(r, f1 as int + f2 - TwoTo32)
    ensures f1 as int + f2 + 1024 < Int32Min ==> RoundedQ11(r, f1 as int + f2 + TwoTo32)
  {
    SatW32ToW16(RoundShift11(f1 as int + f2))
  }

  /** One high-band sample: `SatW32ToW16((f1 - f2 + 1024) >> 11)`, the
      difference in `int32_t`. */
  function HighSample(f1: Int32, f2: Int32): (r: Int16)
    ensures Int32Min <= f1 as int - f2 + 1024 <= Int32Max ==> RoundedQ11(r, f1 as int - f2)
    ensures Int32Max < f1 as int - f2 + 1024 ==> RoundedQ11(r, f1 as int - f2 - TwoTo32)
    ensures f1 as int - f2 + 1024 < Int32Min ==> RoundedQ11(r, f1 as int - f2 + TwoTo32)
  {
    SatW32ToW16(RoundShift11(f1 as int - f2))
  }

  /** Analysis low band, sample by sample. */
  function LowBand(f1: seq<Int32>, f2: seq<Int32>): seq<Int16>
    requires |f1| == |f2|
  {
    Zip(LowSample, f1, f2)
  }

  /** Analysis high band, sample by sample. */
  function HighBand(f1: seq<Int32>, f2: seq<Int32>): seq<Int16>
    requires |f1| == |f2|
  {
    Zip(HighSample, f1, f2)
  }

  /** Synthesis output branch: `SatW32ToW16((f + 512) >> 10)` per sample,
      the sum in `int32_t` (see `RoundShift10`). */
  function FromQ10(f: seq<Int32>): seq<Int16>
  {
    seq(|f|, i requires 0 <= i < |f| => SatW32ToW16(RoundShift10(f[i])))
  }

  /** The output rounding `(f + 512) >> 10` undoes the Q10 scaling of a
      sum or difference of two int16 samples. */
  lemma RoundShift10OfQ10(x: int)
    requires -0x1_0000 <= x <= 0x1_0000
    ensures RoundShift10(x * 1024) == x
  {
    assert Wrap32(x * 1024 + 512) == x * 1024 + 512;
  }

  /** Passed through the output stage unfiltered, the Q10 sum and
      difference channels come back as the saturated int16 sum and
      difference. */
  lemma {:induction false} Q10RoundTrip(low: seq<Int16>, high: seq<Int16>)
    requires |low| == |high|
    ensures |FromQ10(SumQ10(low, high))| == |FromQ10(DiffQ10(low, high))| == |low|
    ensures forall i | 0 <= i < |low| :: FromQ10(SumQ10(low, high))[i] == SatW32ToW16(low[i] as int + high[i])
    ensures forall i | 0 <= i < |low| :: FromQ10(DiffQ10(low, high))[i] == SatW32ToW16(low[i] as int - high[i])
  {
    forall i | 0 <= i < |low|
      ensures FromQ10(SumQ10(low, high))[i] == SatW32ToW16(low[i] as int + high[i])
      ensures FromQ10(DiffQ10(low, high))[i] == SatW32ToW16(low[i] as int - high[i])
    {
      RoundShift10OfQ10(low[i] as int + high[i]);
      RoundShift10OfQ10(low[i] as int - high[i]);
    }
  }

  /** The band sums are `int32_t` sums: two filtered samples of 2^30 add up
      past the 32-bit range, wrap to a negative value, and the low band
      saturates at -32768 instead of 32767. */
  lemma LowBandWrapsAround()
    ensures LowBand([0x4000_0000], [0x4000_0000]) == [Int16Min]
    ensures HighBand([0x4000_0000], [0x4000_0000]) == [0]
  {
    assert LowSample(0x4000_0000, 0x4000_0000) == Int16Min by {
      assert Wrap32(0x8000_0400) == -0x7FFF_FC00;
      assert -0x7FFF_FC00 / 2048 == -0x10_0000;
      assert RoundShift11(0x8000_0000) == -0x10_0000;
    }
    assert HighSample(0x4000_0000, 0x4000_0000) == 0 by {
      assert RoundShift11(0) == 0;
    }
    assert LowBand([0x4000_0000], [0x4000_0000])[0] == LowSample(0x4000_0000, 0x4000_0000);
    assert HighBand([0x4000_0000], [0x4000_0000])[0] == HighSample(0x4000_0000, 0x4000_0000);
  }

  lemma ToQ10Concat(x: seq<Int16>, y: seq<Int16>)
    ensures ToQ10(x + y) == ToQ10(x) + ToQ10(y)
  {
    assert |ToQ10(x + y)| == |ToQ10(x) + ToQ10(y)|;
    forall i | 0 <= i < |x + y|
      ensures ToQ10(x + y)[i] == (ToQ10(x) + ToQ10(y))[i]
    {
      if i >= |x| {
        assert (x + y)[i] == y[i - |x|];
      }
    }
  }

  lemma SumDiffQ10Concat(l1: seq<Int16>, h1: seq<Int16>, l2: seq<Int16>, h2: seq<Int16>)
    requires |l1| == |h1| && |l2| == |h2|
    ensures SumQ10(l1 + l2, h1 + h2) == SumQ10(l1, h1) + SumQ10(l2, h2)
    ensures DiffQ10(l1 + l2, h1 + h2) == DiffQ10(l1, h1) + DiffQ10(l2, h2)
  {
    assert |SumQ10(l1 + l2, h1 + h2)| == |SumQ10(l1, h1) + SumQ10(l2, h2)|;
    assert |DiffQ10(l1 + l2, h1 + h2)| == |DiffQ10(l1, h1) + DiffQ10(l2, h2)|;
    forall i | 0 <= i < |l1| + |l2|
      ensures SumQ10(l1 + l2, h1 + h2)[i] == (SumQ10(l1, h1) + SumQ10(l2, h2))[i]
      ensures DiffQ10(l1 + l2, h1 + h2)[i] == (DiffQ10(l1, h1) + DiffQ10(l2, h2))[i]
    {
      if i >= |l1| {
        assert (l1 + l2)[i] == l2[i - |l1|] && (h1 + h2)[i] == h2[i - |l1|];
      }
    }
  }

  lemma BandsConcat(a1: seq<Int32>, b1: seq<Int32>, a2: seq<Int32>, b2: seq<Int32>)
    requires |a1| == |b1| && |a2| == |b2|
    ensures LowBand(a1 + a2, b1 + b2) == LowBand(a1, b1) + LowBand(a2, b2)
    ensures HighBand(a1 + a2, b1 + b2) == HighBand(a1, b1) + HighBand(a2, b2)
  {
    ZipConcat(LowSample, a1, b1, a2, b2);
    ZipConcat(HighSample, a1, b1, a2, b2);
  }

  lemma FromQ10Concat(f: seq<Int32>, g: seq<Int32>)
    ensures FromQ10(f + g) == FromQ10(f) + FromQ10(g)
  {
    assert |FromQ10(f + g)| == |FromQ10(f) + FromQ10(g)|;
    forall i | 0 <= i < |f + g|
      ensures FromQ10(f + g)[i] == (FromQ10(f) + FromQ10(g))[i]
    {
      if i >= |f| {
        assert (f + g)[i] == g[i - |f|];
      }
    }
  }

  // ---------------------------------------------------------------------
  // Analysis

  /** What one analysis call produces: both bands and both new states. */
  datatype Split = Split(low: seq<Int16>, high: seq<Int16>, state1: seq<Int32>, state2: seq<Int32>)

  /** The input lengths `WebRtcSpl_AnalysisQMF` accepts: even, and half of
      it between 1 and `kMaxBandFrameLength` (both all-pass cascades read
      their first and last sample unguarded). */
  predicate AnalysisInput(n: int)
  {
    n % 2 == 0 && 2 <= n <= 2 * MaxBandFrameLength
  }

  /** `WebRtcSpl_AnalysisQMF`: odd samples in Q10 through coefficient set 1
      with state 1, even samples in Q10 through set 2 with state 2; the
      rounded half-sum is the low band and the rounded half-difference the
      high band. */
  function AnalysisQMFSpec(x: seq<Int16>, s1: seq<Int32>, s2: seq<Int32>): (r: Split)
    requires AnalysisInput(|x|) && |s1| == StateSize && |s2| == StateSize
    ensures |r.low| == |x| / 2 && |r.high| == |x| / 2
    ensures |r.state1| == StateSize && |r.state2| == StateSize
  {
    var f1 := AllPassQMFSpec(ToQ10(Odds(x)), AllPassFilter1, s1);
    var f2 := AllPassQMFSpec(ToQ10(Evens(x)), AllPassFilter2, s2);
    Split(LowBand(f1.output, f2.output), HighBand(f1.output, f2.output), f1.state, f2.state)
  }

  /** Branch independence: the new state 1 depends only on the old state 1
      and the odd input samples, and the new state 2 only on the old
      state 2 and the even input samples. */
  lemma AnalysisBranchIndependence(x: seq<Int16>, x': seq<Int16>, s1: seq<Int32>, s1': seq<Int32>,
                                   s2: seq<Int32>, s2': seq<Int32>)
    requires AnalysisInput(|x|) && AnalysisInput(|x'|)
    requires |s1| == |s1'| == StateSize && |s2| == |s2'| == StateSize
    ensures Odds(x) == Odds(x') && s1 == s1'
            ==> AnalysisQMFSpec(x, s1, s2).state1 == AnalysisQMFSpec(x', s1', s2').state1
    ensures Evens(x) == Evens(x') && s2 == s2'
            ==> AnalysisQMFSpec(x, s1, s2).state2 == AnalysisQMFSpec(x', s1', s2').state2
  {
  }

  /** After an analysis call, word 0 of state 1 is the last (odd) input
      sample in Q10 and word 0 of state 2 the last even one; the duplicated
      words of each cascade agree. */
  lemma AnalysisStateWords(x: seq<Int16>, s1: seq<Int32>, s2: seq<Int32>)
    requires AnalysisInput(|x|) && |s1| == StateSize && |s2| == StateSize
    ensures var r := AnalysisQMFSpec(x, s1, s2);
            && r.state1[0] == x[|x| - 1] as int * 1024 && r.state2[0] == x[|x| - 2] as int * 1024
            && r.state1[1] == r.state1[2] && r.state1[3] == r.state1[4]
            && r.state2[1] == r.state2[2] && r.state2[3] == r.state2[4]
  {
    LastPair(x);
    AllPassStateWords(ToQ10(Odds(x)), AllPassFilter1, s1);
    AllPassStateWords(ToQ10(Evens(x)), AllPassFilter2, s2);
  }

  /** Streaming continuity of the analysis filter: one call on x + y gives
      the bands of a call on x followed by the bands of a call on y that
      starts from the states the first call left, and the same final
      states. */
  lemma AnalysisStreaming(x: seq<Int16>, y: seq<Int16>, s1: seq<Int32>, s2: seq<Int32>)
    requires AnalysisInput(|x|) && AnalysisInput(|y|) && AnalysisInput(|x + y|)
    requires |s1| == StateSize && |s2| == StateSize
    ensures var first := AnalysisQMFSpec(x, s1, s2);
            var second := AnalysisQMFSpec(y, first.state1, first.state2);
            var whole := AnalysisQMFSpec(x + y, s1, s2);
            && whole.low == first.low + second.low
            && whole.high == first.high + second.high
            && whole.state1 == second.state1 && whole.state2 == second.state2
  {
    EvensOddsConcat(x, y);
    ToQ10Concat(Odds(x), Odds(y));
    ToQ10Concat(Evens(x), Evens(y));
    var f1x := AllPassQMFSpec(ToQ10(Odds(x)), AllPassFilter1, s1);
    var f2x := AllPassQMFSpec(ToQ10(Evens(x)), AllPassFilter2, s2);
    AllPassStreaming(ToQ10(Odds(x)), ToQ10(Odds(y)), AllPassFilter1, s1);
    AllPassStreaming(ToQ10(Evens(x)), ToQ10(Evens(y)), AllPassFilter2, s2);
    var f1y := AllPassQMFSpec(ToQ10(Odds(y)), AllPassFilter1, f1x.state);
    var f2y := AllPassQMFSpec(ToQ10(Evens(y)), AllPassFilter2, f2x.state);
    BandsConcat(f1x.output, f2x.output, f1y.output, f2y.output);
  }

  // ---------------------------------------------------------------------
  // Synthesis

  /** What one synthesis call produces: the full-band frame and both new
      states. */
  datatype Merge = Merge(output: seq<Int16>, state1: seq<Int32>, state2: seq<Int32>)

  /** The band lengths `WebRtcSpl_SynthesisQMF` accepts. */
  predicate SynthesisInput(n: int)
  {
    1 <= n <= MaxBandFrameLength
  }

  /** `WebRtcSpl_SynthesisQMF`: the sum channel through coefficient set 2
      with state 1, the difference channel through set 1 with state 2;
      the filtered difference gives the even output samples and the
      filtered sum the odd ones, each rounded from Q10 and saturated. */
  function SynthesisQMFSpec(low: seq<Int16>, high: seq<Int16>, s1: seq<Int32>, s2: seq<Int32>): (r: Merge)
    requires |low| == |high| && SynthesisInput(|low|)
    requires |s1| == StateSize && |s2| == StateSize
    ensures |r.output| == 2 * |low|
    ensures |r.state1| == StateSize && |r.state2| == StateSize
  {
    var f1 := AllPassQMFSpec(SumQ10(low, high), AllPassFilter2, s1);
    var f2 := AllPassQMFSpec(DiffQ10(low, high), AllPassFilter1, s2);
    Merge(Interleave(FromQ10(f2.output), FromQ10(f1.output)), f1.state, f2.state)
  }

  /** The even output samples come from the difference branch and the odd
      ones from the sum branch. */
  lemma SynthesisPhases(low: seq<Int16>, high: seq<Int16>, s1: seq<Int32>, s2: seq<Int32>)
    requires |low| == |high| && SynthesisInput(|low|)
    requires |s1| == StateSize && |s2| == StateSize
    ensures var r := SynthesisQMFSpec(low, high, s1, s2);
            && Evens(r.output) == FromQ10(AllPassQMFSpec(DiffQ10(low, high), AllPassFilter1, s2).output)
            && Odds(r.output) == FromQ10(AllPassQMFSpec(SumQ10(low, high), AllPassFilter2, s1).output)
  {
    var f1 := AllPassQMFSpec(SumQ10(low, high), AllPassFilter2, s1);
    var f2 := AllPassQMFSpec(DiffQ10(low, high), AllPassFilter1, s2);
    EvensOddsOfInterleave(FromQ10(f2.output), FromQ10(f1.output));
  }

  /** After a synthesis call, word 0 of state 1 is the last sum sample and
      word 0 of state 2 the last difference sample, both in Q10. */
  lemma SynthesisStateWords(low: seq<Int16>, high: seq<Int16>, s1: seq<Int32>, s2: seq<Int32>)
    requires |low| == |high| && SynthesisInput(|low|)
    requires |s1| == StateSize && |s2| == StateSize
    ensures var r := SynthesisQMFSpec(low, high, s1, s2);
            var n := |low| - 1;
            && r.state1[0] == (low[n] as int + high[n]) * 1024 && r.state2[0] == (low[n] as int - high[n]) * 1024
            && r.state1[1] == r.state1[2] && r.state1[3] == r.state1[4]
            && r.state2[1] == r.state2[2] && r.state2[3] == r.state2[4]
  {
    AllPassStateWords(SumQ10(low, high), AllPassFilter2, s1);
    AllPassStateWords(DiffQ10(low, high), AllPassFilter1, s2);
  }

  /** Streaming continuity of the synthesis filter. */
  lemma SynthesisStreaming(l1: seq<Int16>, h1: seq<Int16>, l2: seq<Int16>, h2: seq<Int16>,
                           s1: seq<Int32>, s2: seq<Int32>)
    requires |l1| == |h1| && |l2| == |h2|
    requires SynthesisInput(|l1|) && SynthesisInput(|l2|) && SynthesisInput(|l1| + |l2|)
    requires |s1| == StateSize && |s2| == StateSize
    ensures var first := SynthesisQMFSpec(l1, h1, s1, s2);
            var second := SynthesisQMFSpec(l2, h2, first.state1, first.state2);
            var whole := SynthesisQMFSpec(l1 + l2, h1 + h2, s1, s2);
            && whole.output == first.output + second.output
            && whole.state1 == second.state1 && whole.state2 == second.state2
  {
    SumDiffQ10Concat(l1, h1, l2, h2);
    var f1x := AllPassQMFSpec(SumQ10(l1, h1), AllPassFilter2, s1);
    var f2x := AllPassQMFSpec(DiffQ10(l1, h1), AllPassFilter1, s2);
    AllPassStreaming(SumQ10(l1, h1), SumQ10(l2, h2), AllPassFilter2, s1);
    AllPassStreaming(DiffQ10(l1, h1), DiffQ10(l2, h2), AllPassFilter1, s2);
    var f1y := AllPassQMFSpec(SumQ10(l2, h2), AllPassFilter2, f1x.state);
    var f2y := AllPassQMFSpec(DiffQ10(l2, h2), AllPassFilter1, f2x.state);
    FromQ10Concat(f1x.output, f1y.output);
    FromQ10Concat(f2x.output, f2y.output);
    InterleaveConcat(FromQ10(f2x.output), FromQ10(f1x.output), FromQ10(f2y.output), FromQ10(f1y.output));
  }

  /** The two branches of an analysis call, named. */
  lemma AnalysisAssemble(x: seq<Int16>, s1: seq<Int32>, s2: seq<Int32>, f1: Cascade, f2: Cascade)
    requires AnalysisInput(|x|) && |s1| == StateSize && |s2| == StateSize
    requires f1 == AllPassQMFSpec(ToQ10(Odds(x)), AllPassFilter1, s1)
    requires f2 == AllPassQMFSpec(ToQ10(Evens(x)), AllPassFilter2, s2)
    ensures AnalysisQMFSpec(x, s1, s2)
         == Split(LowBand(f1.output, f2.output), HighBand(f1.output, f2.output), f1.state, f2.state)
  {
  }

  /** The two branches of a synthesis call, named. */
  lemma SynthesisAssemble(low: seq<Int16>, high: seq<Int16>, s1: seq<Int32>, s2: seq<Int32>, f1: Cascade, f2: Cascade)
    requires |low| == |high| && SynthesisInput(|low|) && |s1| == StateSize && |s2| == StateSize
    requires f1 == AllPassQMFSpec(SumQ10(low, high), AllPassFilter2, s1)
    requires f2 == AllPassQMFSpec(DiffQ10(low, high), AllPassFilter1, s2)
    ensures SynthesisQMFSpec(low, high, s1, s2)
         == Merge(Interleave(FromQ10(f2.output), FromQ10(f1.output)), f1.state, f2.state)
  {
  }

  // ---------------------------------------------------------------------
  // The filters over arrays

  /** Analysis, first loop: even samples into half_in2 and odd samples into
      half_in1, both shifted to Q10. */
  method SplitToQ10(inData: array<Int16>, bandLength: nat, halfIn1: array<Int32>, halfIn2: array<Int32>,
                    ghost x: seq<Int16>)
    requires 2 * bandLength <= inData.Length && inData[..2 * bandLength] == x
    requires bandLength <= halfIn1.Length && bandLength <= halfIn2.Length && halfIn1 != halfIn2
    modifies halfIn1, halfIn2
    ensures halfIn1[..bandLength] == ToQ10(Odds(x)) && halfIn2[..bandLength] == ToQ10(Evens(x))
  {
    var i, k := 0, 0;
    while i < bandLength
      invariant 0 <= i <= bandLength && k == 2 * i
      invariant halfIn1[..i] == ToQ10(Odds(x))[..i] && halfIn2[..i] == ToQ10(Evens(x))[..i]
    {
      halfIn2[i] := inData[k] as int * 1024;
      halfIn1[i] := inData[k + 1] as int * 1024;
      assert halfIn1[..i + 1] == halfIn1[..i] + [halfIn1[i]] && halfIn2[..i + 1] == halfIn2[..i] + [halfIn2[i]];
      assert ToQ10(Odds(x))[i] == halfIn1[i] && ToQ10(Evens(x))[i] == halfIn2[i];
      i, k := i + 1, k + 2;
    }
  }

  /** Analysis, last loop: the rounded sum and difference of the two
      filtered branches. */
  method CombineToBands(filter1: array<Int32>, filter2: array<Int32>, bandLength: nat,
                        lowBand: array<Int16>, highBand: array<Int16>, ghost f1: seq<Int32>, ghost f2: seq<Int32>)
    requires bandLength <= filter1.Length && bandLength <= filter2.Length
    requires filter1[..bandLength] == f1 && filter2[..bandLength] == f2
    requires bandLength <= lowBand.Length && bandLength <= highBand.Length && lowBand != highBand
    modifies lowBand, highBand
    ensures lowBand[..bandLength] == LowBand(f1, f2) && highBand[..bandLength] == HighBand(f1, f2)
    ensures lowBand[bandLength..] == old(lowBand[bandLength..]) && highBand[bandLength..] == old(highBand[bandLength..])
  {
    ghost var low, high := LowBand(f1, f2), HighBand(f1, f2);
    var i := 0;
    while i < bandLength
      invariant 0 <= i <= bandLength
      invariant lowBand[..i] == low[..i] && highBand[..i] == high[..i]
      invariant lowBand[bandLength..] == old(lowBand[bandLength..]) && highBand[bandLength..] == old(highBand[bandLength..])
    {
      lowBand[i] := LowSample(filter1[i], filter2[i]);
      highBand[i] := HighSample(filter1[i], filter2[i]);
      assert low[i] == LowSample(f1[i], f2[i]) && high[i] == HighSample(f1[i], f2[i]);
      assert lowBand[..i + 1] == lowBand[..i] + [lowBand[i]] && highBand[..i + 1] == highBand[..i] + [highBand[i]];
      i := i + 1;
    }
    assert low[..bandLength] == low && high[..bandLength] == high;
  }

  /** Analysis, middle part: the odd branch through coefficient set 1 with
      state 1 and the even branch through set 2 with state 2. */
  method AnalysisBranches(halfIn1: array<Int32>, halfIn2: array<Int32>, bandLength: nat,
                          filter1: array<Int32>, filter2: array<Int32>,
                          filterState1: array<Int32>, filterState2: array<Int32>,
                          ghost odd: seq<Int32>, ghost even: seq<Int32>, ghost s1: seq<Int32>, ghost s2: seq<Int32>)
      returns (ghost f1: Cascade, ghost f2: Cascade)
    requires 1 <= bandLength <= halfIn1.Length && bandLength <= halfIn2.Length
    requires bandLength <= filter1.Length && bandLength <= filter2.Length
    requires filterState1.Length == StateSize && filterState2.Length == StateSize
    requires halfIn1[..bandLength] == odd && halfIn2[..bandLength] == even
    requires filterState1[..] == s1 && filterState2[..] == s2
    requires {halfIn1, filter1, filterState1} !! {halfIn2, filter2, filterState2}
    requires halfIn1 != filter1 && halfIn1 != filterState1 && filter1 != filterState1
    requires halfIn2 != filter2 && halfIn2 != filterState2 && filter2 != filterState2
    modifies halfIn1, halfIn2, filter1, filter2, filterState1, filterState2
    ensures f1 == AllPassQMFSpec(odd, AllPassFilter1, s1) && f2 == AllPassQMFSpec(even, AllPassFilter2, s2)
    ensures filter1[..bandLength] == f1.output && filter2[..bandLength] == f2.output
    ensures filterState1[..] == f1.state && filterState2[..] == f2.state
  {
    f1 := AllPassQMF(halfIn1, bandLength, filter1, AllPassFilter1, filterState1, odd, s1);
    f2 := AllPassQMF(halfIn2, bandLength, filter2, AllPassFilter2, filterState2, even, s2);
  }

  /** `WebRtcSpl_AnalysisQMF` over arrays, proved against `AnalysisQMFSpec`:
      writes band_length samples of each band and updates both states. */
  method AnalysisQMF(inData: array<Int16>, inDataLength: nat, lowBand: array<Int16>, highBand: array<Int16>,
                     filterState1: array<Int32>, filterState2: array<Int32>,
                     ghost x: seq<Int16>, ghost s1: seq<Int32>, ghost s2: seq<Int32>)
      returns (ghost r: Split)
    requires inDataLength <= inData.Length && AnalysisInput(inDataLength)
    requires inDataLength / 2 <= lowBand.Length && inDataLength / 2 <= highBand.Length && lowBand != highBand
    requires filterState1.Length == StateSize && filterState2.Length == StateSize && filterState1 != filterState2
    requires inData[..inDataLength] == x && filterState1[..] == s1 && filterState2[..] == s2
    modifies lowBand, highBand, filterState1, filterState2
    ensures r == AnalysisQMFSpec(x, s1, s2)
    ensures lowBand[..inDataLength / 2] == r.low && highBand[..inDataLength / 2] == r.high
    ensures filterState1[..] == r.state1 && filterState2[..] == r.state2
    ensures lowBand[inDataLength / 2..] == old(lowBand[inDataLength / 2..])
    ensures highBand[inDataLength / 2..] == old(highBand[inDataLength / 2..])
  {
    var bandLength := inDataLength / 2;
    HalfOfEven(inDataLength);
    var halfIn1 := new Int32[MaxBandFrameLength];
    var halfIn2 := new Int32[MaxBandFrameLength];
    var filter1 := new Int32[MaxBandFrameLength];
    var filter2 := new Int32[MaxBandFrameLength];
    // Split even and odd samples, shifted to Q10.
    SplitToQ10(inData, bandLength, halfIn1, halfIn2, x);
    // All-pass filter the two branches independently.
    ghost var f1, f2 := AnalysisBranches(halfIn1, halfIn2, bandLength, filter1, filter2, filterState1, filterState2,
                                         ToQ10(Odds(x)), ToQ10(Evens(x)), s1, s2);
    // Sum and difference give the low and the high band.
    CombineToBands(filter1, filter2, bandLength, lowBand, highBand, f1.output, f2.output);
    AnalysisAssemble(x, s1, s2, f1, f2);
    r := Split(LowBand(f1.output, f2.output), HighBand(f1.output, f2.output), f1.state, f2.state);
  }

  /** Synthesis, first loop: sum and difference channels in Q10. */
  method SumDiffToQ10(lowBand: array<Int16>, highBand: array<Int16>, bandLength: nat,
                      halfIn1: array<Int32>, halfIn2: array<Int32>, ghost low: seq<Int16>, ghost high: seq<Int16>)
    requires bandLength <= lowBand.Length && bandLength <= highBand.Length
    requires lowBand[..bandLength] == low && highBand[..bandLength] == high
    requires bandLength <= halfIn1.Length && bandLength <= halfIn2.Length && halfIn1 != halfIn2
    modifies halfIn1, halfIn2
    ensures halfIn1[..bandLength] == SumQ10(low, high) && halfIn2[..bandLength] == DiffQ10(low, high)
  {
    ghost var sum, diff := SumQ10(low, high), DiffQ10(low, high);
    var i := 0;
    while i < bandLength
      invariant 0 <= i <= bandLength
      invariant halfIn1[..i] == sum[..i] && halfIn2[..i] == diff[..i]
    {
      var tmp := lowBand[i] as int + highBand[i];
      halfIn1[i] := tmp * 1024;
      tmp := lowBand[i] as int - highBand[i];
      halfIn2[i] := tmp * 1024;
      assert halfIn1[..i + 1] == halfIn1[..i] + [halfIn1[i]] && halfIn2[..i + 1] == halfIn2[..i] + [halfIn2[i]];
      i := i + 1;
    }
    assert sum[..bandLength] == sum && diff[..bandLength] == diff;
  }

  /** Synthesis, last loop: the filtered difference to the even output
      samples and the filtered sum to the odd ones, back from Q10. */
  method InterleaveFromQ10(filter1: array<Int32>, filter2: array<Int32>, bandLength: nat, outData: array<Int16>,
                           ghost f1: seq<Int32>, ghost f2: seq<Int32>)
    requires bandLength <= filter1.Length && bandLength <= filter2.Length && 2 * bandLength <= outData.Length
    requires filter1[..bandLength] == f1 && filter2[..bandLength] == f2
    modifies outData
    ensures outData[..2 * bandLength] == Interleave(FromQ10(f2), FromQ10(f1))
    ensures outData[2 * bandLength..] == old(outData[2 * bandLength..])
  {
    ghost var e, o := FromQ10(f2), FromQ10(f1);
    var i, k := 0, 0;
    while i < bandLength
      invariant 0 <= i <= bandLength && k == 2 * i
      invariant outData[..k] == Interleave(e[..i], o[..i])
      invariant outData[2 * bandLength..] == old(outData[2 * bandLength..])
    {
      var tmp := RoundShift10(filter2[i]);
      outData[k] := SatW32ToW16(tmp);
      tmp := RoundShift10(filter1[i]);
      outData[k + 1] := SatW32ToW16(tmp);
      InterleaveConcat(e[..i], o[..i], [e[i]], [o[i]]);
      assert e[..i + 1] == e[..i] + [e[i]] && o[..i + 1] == o[..i] + [o[i]];
      assert outData[..k + 2] == outData[..k] + [outData[k], outData[k + 1]];
      i, k := i + 1, k + 2;
    }
    assert e[..bandLength] == e && o[..bandLength] == o;
  }

  /** Synthesis, middle part: the sum channel through coefficient set 2
      with state 1 and the difference channel through set 1 with state 2. */
  method SynthesisBranches(halfIn1: array<Int32>, halfIn2: array<Int32>, bandLength: nat,
                           filter1: array<Int32>, filter2: array<Int32>,
                           filterState1: array<Int32>, filterState2: array<Int32>,
                           ghost sum: seq<Int32>, ghost diff: seq<Int32>, ghost s1: seq<Int32>, ghost s2: seq<Int32>)
      returns (ghost f1: Cascade, ghost f2: Cascade)
    requires 1 <= bandLength <= halfIn1.Length && bandLength <= halfIn2.Length
    requires bandLength <= filter1.Length && bandLength <= filter2.Length
    requires filterState1.Length == StateSize && filterState2.Length == StateSize
    requires halfIn1[..bandLength] == sum && halfIn2[..bandLength] == diff
    requires filterState1[..] == s1 && filterState2[..] == s2
    requires {halfIn1, filter1, filterState1} !! {halfIn2, filter2, filterState2}
    requires halfIn1 != filter1 && halfIn1 != filterState1 && filter1 != filterState1
    requires halfIn2 != filter2 && halfIn2 != filterState2 && filter2 != filterState2
    modifies halfIn1, halfIn2, filter1, filter2, filterState1, filterState2
    ensures f1 == AllPassQMFSpec(sum, AllPassFilter2, s1) && f2 == AllPassQMFSpec(diff, AllPassFilter1, s2)
    ensures filter1[..bandLength] == f1.output && filter2[..bandLength] == f2.output
    ensures filterState1[..] == f1.state && filterState2[..] == f2.state
  {
    f1 := AllPassQMF(halfIn1, bandLength, filter1, AllPassFilter2, filterState1, sum, s1);
    f2 := AllPassQMF(halfIn2, bandLength, filter2, AllPassFilter1, filterState2, diff, s2);
  }

  /** `WebRtcSpl_SynthesisQMF` over arrays, proved against
      `SynthesisQMFSpec`: writes 2 * band_length output samples and
      updates both states. */
  method SynthesisQMF(lowBand: array<Int16>, highBand: array<Int16>, bandLength: nat, outData: array<Int16>,
                      filterState1: array<Int32>, filterState2: array<Int32>,
                      ghost low: seq<Int16>, ghost high: seq<Int16>, ghost s1: seq<Int32>, ghost s2: seq<Int32>)
      returns (ghost r: Merge)
    requires bandLength <= lowBand.Length && bandLength <= highBand.Length && SynthesisInput(bandLength)
    requires 2 * bandLength <= outData.Length && outData != lowBand && outData != highBand
    requires filterState1.Length == StateSize && filterState2.Length == StateSize && filterState1 != filterState2
    requires lowBand[..bandLength] == low && highBand[..bandLength] == high
    requires filterState1[..] == s1 && filterState2[..] == s2
    modifies outData, filterState1, filterState2
    ensures r == SynthesisQMFSpec(low, high, s1, s2)
    ensures outData[..2 * bandLength] == r.output && filterState1[..] == r.state1 && filterState2[..] == r.state2
    ensures outData[2 * bandLength..] == old(outData[2 * bandLength..])
  {
    var halfIn1 := new Int32[MaxBandFrameLength];
    var halfIn2 := new Int32[MaxBandFrameLength];
    var filter1 := new Int32[MaxBandFrameLength];
    var filter2 := new Int32[MaxBandFrameLength];
    // Sum and difference channels, shifted to Q10.
    SumDiffToQ10(lowBand, highBand, bandLength, halfIn1, halfIn2, low, high);
    // All-pass filter the sum and the difference.
    ghost var f1, f2 := SynthesisBranches(halfIn1, halfIn2, bandLength, filter1, filter2, filterState1, filterState2,
                                          SumQ10(low, high), DiffQ10(low, high), s1, s2);
    // Re-interleave, back to Q0 with saturation.
    InterleaveFromQ10(filter1, filter2, bandLength, outData, f1.output, f2.output);
    SynthesisAssemble(low, high, s1, s2, f1, f2);
    r := Merge(Interleave(FromQ10(f2.output), FromQ10(f1.output)), f1.state, f2.state);
  }
}
