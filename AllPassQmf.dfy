/** The three-stage first-order all-pass cascade `WebRtcSpl_AllPassQMF`.

    Each stage computes y[n] = x[n-1] + a * (x[n] - y[n-1]) in Q16 fixed
    point; x[-1] and y[-1] come from the two state words of the stage. The
    specification is the function `AllPassQMFSpec`; the method `AllPassQMF`
    runs the source's three loops over arrays and is proved against it. */
module AllPass {
  import opened FixedPoint

  /** `WebRtcSpl_kAllPassFilter1` and `WebRtcSpl_kAllPassFilter2`: the two
      coefficient sets, unsigned Q16. */
  const AllPassFilter1: seq<UInt16> := [6418, 36982, 57261]
  const AllPassFilter2: seq<UInt16> := [21333, 49062, 63010]

  /** Number of state words of one cascade: (x[-1], y[-1]) for each stage. */
  const StateSize: nat := 6

  /** The last element of s, or d when s is empty. */
  function LastOr<T>(s: seq<T>, d: T): T
  {
    if |s| == 0 then d else s[|s| - 1]
  }

  /** One sample of one stage: x[n-1] + a * (x[n] - y[n-1]) with the
      difference saturated. */
  function Step(a: UInt16, x: Int32, xPrev: Int32, yPrev: Int32): Int32
  {
    ScaleDiff32(a, SubSatW32(x, yPrev), xPrev)
  }

  /** The arithmetic of one sample: with d = x[n] - y[n-1] saturated to 32
      bits, y[n] is x[n-1] + floor(a * d / 2^16), exact when that fits in
      32 bits and wrapped by 2^32 otherwise. */
  lemma StepValue(a: UInt16, x: Int32, xPrev: Int32, yPrev: Int32)
    ensures var d := SubSatW32(x, yPrev);
            var v := xPrev + a * d / 0x1_0000;
            && (Int32Min <= x - yPrev <= Int32Max ==> d == x - yPrev)
            && (Int32Min <= v <= Int32Max ==> Step(a, x, xPrev, yPrev) == v)
            && (Int32Max < v ==> Step(a, x, xPrev, yPrev) == v - TwoTo32)
            && (v < Int32Min ==> Step(a, x, xPrev, yPrev) == v + TwoTo32)
  {
    ScaleDiff32Value(a, SubSatW32(x, yPrev), xPrev);
  }

  /** One all-pass stage over a whole buffer, started from the saved sample
      pair (xPrev, yPrev) = (x[-1], y[-1]). */
  function Section(x: seq<Int32>, a: UInt16, xPrev: Int32, yPrev: Int32): (y: seq<Int32>)
    ensures |y| == |x|
    decreases |x|
  {
    if |x| == 0 then []
    else
      var front := x[..|x| - 1];
      var yFront := Section(front, a, xPrev, yPrev);
      yFront + [Step(a, x[|x| - 1], LastOr(front, xPrev), LastOr(yFront, yPrev))]
  }

  /** The stage output satisfies the source's recurrence at every position:
      y[n] = x[n-1] + a * (x[n] - y[n-1]), with x[-1] = xPrev and
      y[-1] = yPrev. */
  lemma {:induction false} SectionAt(x: seq<Int32>, a: UInt16, xPrev: Int32, yPrev: Int32, n: nat)
    requires n < |x|
    ensures var y := Section(x, a, xPrev, yPrev);
            y[n] == Step(a, x[n], if n == 0 then xPrev else x[n - 1], if n == 0 then yPrev else y[n - 1])
    decreases |x|
  {
    var front := x[..|x| - 1];
    var y := Section(x, a, xPrev, yPrev);
    var yFront := Section(front, a, xPrev, yPrev);
    assert y == yFront + [Step(a, x[|x| - 1], LastOr(front, xPrev), LastOr(yFront, yPrev))];
    if n < |x| - 1 {
      SectionAt(front, a, xPrev, yPrev, n);
      assert y[n] == yFront[n] && x[n] == front[n];
      if n > 0 {
        assert y[n - 1] == yFront[n - 1] && x[n - 1] == front[n - 1];
      }
    }
  }

  /** What one call of the cascade produces: the final output (stage 3),
      the stage-2 output the source leaves in `in_data`, and the six state
      words it leaves behind. */
  datatype Cascade = Cascade(output: seq<Int32>, stage2: seq<Int32>, state: seq<Int32>)

  /** The three stages in series, stage i using coefficient c[i] and state
      words 2i and 2i+1. */
  function AllPassQMFSpec(x: seq<Int32>, c: seq<UInt16>, s: seq<Int32>): (r: Cascade)
    requires |x| >= 1 && |c| == 3 && |s| == StateSize
    ensures |r.output| == |x| && |r.stage2| == |x| && |r.state| == StateSize
  {
    var y1 := Section(x, c[0], s[0], s[1]);
    var y2 := Section(y1, c[1], s[2], s[3]);
    var y3 := Section(y2, c[2], s[4], s[5]);
    var n := |x| - 1;
    Cascade(y3, y2, [x[n], y1[n], y1[n], y2[n], y2[n], y3[n]])
  }

  /** Which state word holds which sample after a call: word 0 is the last
      input, word 5 the last output, words 1 and 2 both the last stage-1
      output and words 3 and 4 both the last stage-2 output (the last
      element of the buffer the source leaves in `in_data`). */
  lemma AllPassStateWords(x: seq<Int32>, c: seq<UInt16>, s: seq<Int32>)
    requires |x| >= 1 && |c| == 3 && |s| == StateSize
    ensures var r := AllPassQMFSpec(x, c, s);
            && r.state[0] == x[|x| - 1]
            && r.state[5] == r.output[|x| - 1]
            && r.state[1] == r.state[2]
            && r.state[3] == r.state[4] == r.stage2[|x| - 1]
  {
  }

  /** `AllPassQMFSpec` in terms of its three cascades: the output is the
      third, and the saved state is the last input and the last output of
      each stage. */
  lemma AllPassQMFSpecParts(x: seq<Int32>, c: seq<UInt16>, s: seq<Int32>,
                             y1: seq<Int32>, y2: seq<Int32>, y3: seq<Int32>)
    requires |x| >= 1 && |c| == 3 && |s| == StateSize
    requires y1 == Section(x, c[0], s[0], s[1])
    requires y2 == Section(y1, c[1], s[2], s[3])
    requires y3 == Section(y2, c[2], s[4], s[5])
    ensures AllPassQMFSpec(x, c, s)
         == Cascade(y3, y2, [x[|x| - 1], y1[|x| - 1], y1[|x| - 1], y2[|x| - 1], y2[|x| - 1], y3[|x| - 1]])
  {
  }

  /** The three cascades one after another, each starting from the state
      words the source keeps for it and updating its own two: together they
      give `AllPassQMFSpec`. */
  lemma AllPassAssemble(x: seq<Int32>, c: seq<UInt16>, s: seq<Int32>,
                        y1: seq<Int32>, t1: seq<Int32>, y2: seq<Int32>, t2: seq<Int32>,
                        y3: seq<Int32>, t3: seq<Int32>)
    requires |x| >= 1 && |c| == 3 && |s| == StateSize
    requires y1 == Section(x, c[0], s[0], s[1]) && t1 == s[0 := x[|x| - 1]][1 := y1[|x| - 1]]
    requires y2 == Section(y1, c[1], t1[2], t1[3]) && t2 == t1[2 := y1[|x| - 1]][3 := y2[|x| - 1]]
    requires y3 == Section(y2, c[2], t2[4], t2[5]) && t3 == t2[4 := y2[|x| - 1]][5 := y3[|x| - 1]]
    ensures AllPassQMFSpec(x, c, s) == Cascade(y3, y2, t3)
  {
    var n := |x| - 1;
    StateUpdates(s, t1, t2, t3, x[n], y1[n], y2[n], y3[n]);
    AllPassQMFSpecParts(x, c, s, y1, y2, y3);
  }

  /** The state words after the three cascades have each saved their pair. */
  lemma StateUpdates(s: seq<Int32>, t1: seq<Int32>, t2: seq<Int32>, t3: seq<Int32>,
                     x: Int32, y1: Int32, y2: Int32, y3: Int32)
    requires |s| == StateSize
    requires t1 == s[0 := x][1 := y1] && t2 == t1[2 := y1][3 := y2] && t3 == t2[4 := y2][5 := y3]
    ensures t1[2] == s[2] && t1[3] == s[3] && t2[4] == s[4] && t2[5] == s[5]
    ensures t3 == [x, y1, y1, y2, y2, y3]
  {
    var w := [x, y1, y1, y2, y2, y3];
    assert t3[0] == w[0] && t3[1] == w[1] && t3[2] == w[2];
    assert t3[3] == w[3] && t3[4] == w[4] && t3[5] == w[5];
  }

  lemma LastOrConcat<T>(a: seq<T>, b: seq<T>, d: T)
    ensures LastOr(a + b, d) == LastOr(b, LastOr(a, d))
  {
  }

  /** Extending the input by one sample extends the stage output by the one
      sample the recurrence gives. */
  lemma SectionSnoc(x: seq<Int32>, k: nat, a: UInt16, xPrev: Int32, yPrev: Int32)
    requires k < |x|
    ensures Section(x[..k + 1], a, xPrev, yPrev)
         == Section(x[..k], a, xPrev, yPrev)
            + [Step(a, x[k], LastOr(x[..k], xPrev), LastOr(Section(x[..k], a, xPrev, yPrev), yPrev))]
  {
    assert x[..k + 1][..k] == x[..k];
  }

  /** Streaming continuity of one stage: filtering x + y in one go equals
      filtering x and then y from the pair (last input, last output) that the
      first part left behind. */
  lemma {:induction false} SectionStreaming(x: seq<Int32>, y: seq<Int32>, a: UInt16, xPrev: Int32, yPrev: Int32)
    ensures Section(x + y, a, xPrev, yPrev)
         == Section(x, a, xPrev, yPrev)
            + Section(y, a, LastOr(x, xPrev), LastOr(Section(x, a, xPrev, yPrev), yPrev))
    decreases |y|
  {
    var sx := Section(x, a, xPrev, yPrev);
    if |y| == 0 {
      assert x + y == x;
    } else {
      var y' := y[..|y| - 1];
      var e := y[|y| - 1];
      assert (x + y)[..|x + y| - 1] == x + y';
      assert (x + y)[|x + y| - 1] == e;
      SectionStreaming(x, y', a, xPrev, yPrev);
      var sy' := Section(y', a, LastOr(x, xPrev), LastOr(sx, yPrev));
      LastOrConcat(x, y', xPrev);
      LastOrConcat(sx, sy', yPrev);
      assert Section(x + y, a, xPrev, yPrev)
          == (sx + sy') + [Step(a, e, LastOr(y', LastOr(x, xPrev)), LastOr(sy', LastOr(sx, yPrev)))];
    }
  }

  /** Streaming continuity of the whole cascade ("becomes x[-1] next time"):
      one call on x + y gives the same output, the same stage-2 buffer and
      the same final state as a call on x followed by a call on y that starts
      from the state the first call left. */
  lemma AllPassStreaming(x: seq<Int32>, y: seq<Int32>, c: seq<UInt16>, s: seq<Int32>)
    requires |x| >= 1 && |y| >= 1 && |c| == 3 && |s| == StateSize
    ensures var first := AllPassQMFSpec(x, c, s);
            var second := AllPassQMFSpec(y, c, first.state);
            var whole := AllPassQMFSpec(x + y, c, s);
            && whole.output == first.output + second.output
            && whole.stage2 == first.stage2 + second.stage2
            && whole.state == second.state
  {
    var first := AllPassQMFSpec(x, c, s);
    var t := first.state;
    var n := |x| - 1;
    var y1x := Section(x, c[0], s[0], s[1]);
    var y2x := Section(y1x, c[1], s[2], s[3]);
    var y3x := Section(y2x, c[2], s[4], s[5]);
    assert t == [x[n], y1x[n], y1x[n], y2x[n], y2x[n], y3x[n]];
    var y1y := Section(y, c[0], t[0], t[1]);
    var y2y := Section(y1y, c[1], t[2], t[3]);
    var y3y := Section(y2y, c[2], t[4], t[5]);
    SectionStreaming(x, y, c[0], s[0], s[1]);
    var y1 := Section(x + y, c[0], s[0], s[1]);
    assert y1 == y1x + y1y;
    SectionStreaming(y1x, y1y, c[1], s[2], s[3]);
    var y2 := Section(y1, c[1], s[2], s[3]);
    assert y2 == y2x + y2y;
    SectionStreaming(y2x, y2y, c[2], s[4], s[5]);
    var y3 := Section(y2, c[2], s[4], s[5]);
    assert y3 == y3x + y3y;
  }

  /** The loop of one cascade of `WebRtcSpl_AllPassQMF`: stage a over
      src[0..n) into dst[0..n), the first sample from the saved pair
      (x[-1], y[-1]) = (xPrev, yPrev) and every later one from the buffers
      themselves. */
  method SectionRun(src: array<Int32>, dst: array<Int32>, n: nat, a: UInt16,
                    xPrev: Int32, yPrev: Int32, ghost x: seq<Int32>)
    requires 1 <= n <= src.Length && n <= dst.Length && src != dst && src[..n] == x
    modifies dst
    ensures dst[..n] == Section(x, a, xPrev, yPrev)
    ensures dst[n..] == old(dst[n..])
  {
    // diff = x[0] - y[-1]; y[0] = x[-1] + a * diff
    var diff := SubSatW32(src[0], yPrev);
    dst[0] := ScaleDiff32(a, diff, xPrev);
    SectionSnoc(x, 0, a, xPrev, yPrev);
    var k := 1;
    while k < n
      invariant 1 <= k <= n
      invariant dst[..k] == Section(x[..k], a, xPrev, yPrev)
      invariant dst[n..] == old(dst[n..])
    {
      SectionSnoc(x, k, a, xPrev, yPrev);
      // diff = x[k] - y[k-1]; y[k] = x[k-1] + a * diff
      diff := SubSatW32(src[k], dst[k - 1]);
      dst[k] := ScaleDiff32(a, diff, src[k - 1]);
      assert dst[..k + 1] == dst[..k] + [dst[k]];
      k := k + 1;
    }
    assert x[..n] == x;
  }

  /** One of the three cascades of `WebRtcSpl_AllPassQMF`: runs stage j from
      the pair saved in state words 2j and 2j+1, then saves the stage's last
      input and last output in those two words ("becomes x[-1] next time").
      The ghost results name the stage output and the new state. */
  method CascadeStage(src: array<Int32>, dst: array<Int32>, n: nat, a: UInt16,
                      filterState: array<Int32>, j: nat, ghost x: seq<Int32>, ghost s: seq<Int32>)
      returns (ghost y: seq<Int32>, ghost t: seq<Int32>)
    requires 1 <= n <= src.Length && n <= dst.Length && src != dst
    requires j < 3 && filterState.Length == StateSize && filterState != src && filterState != dst
    requires src[..n] == x && filterState[..] == s
    modifies dst, filterState
    ensures y == Section(x, a, s[2 * j], s[2 * j + 1]) && t == s[2 * j := x[n - 1]][2 * j + 1 := y[n - 1]]
    ensures src[..n] == x && dst[..n] == y && filterState[..] == t
    ensures dst[n..] == old(dst[n..])
  {
    SectionRun(src, dst, n, a, filterState[2 * j], filterState[2 * j + 1], x);
    filterState[2 * j] := src[n - 1];
    filterState[2 * j + 1] := dst[n - 1];
    y, t := dst[..n], filterState[..];
  }

  /** `WebRtcSpl_AllPassQMF`: filters in_data[0..n) into out_data[0..n),
      using in_data as scratch for the stage-2 output, and updates the six
      state words in place. The source reads in_data[0] and in_data[n-1]
      unguarded, so n must be at least 1. */
  method AllPassQMF(inData: array<Int32>, dataLength: nat, outData: array<Int32>,
                    coefficients: seq<UInt16>, filterState: array<Int32>,
                    ghost x: seq<Int32>, ghost s: seq<Int32>)
      returns (ghost r: Cascade)
    requires 1 <= dataLength <= inData.Length && dataLength <= outData.Length
    requires |coefficients| == 3 && filterState.Length == StateSize
    requires inData != outData && filterState != inData && filterState != outData
    requires inData[..dataLength] == x && filterState[..] == s
    modifies inData, outData, filterState
    ensures r == AllPassQMFSpec(x, coefficients, s)
    ensures outData[..dataLength] == r.output && inData[..dataLength] == r.stage2 && filterState[..] == r.state
    ensures outData[dataLength..] == old(outData[dataLength..])
    ensures inData[dataLength..] == old(inData[dataLength..])
  {
    var n := dataLength;
    // First cascade: in_data -> out_data, state words 0 and 1.
    ghost var y1, t1 := CascadeStage(inData, outData, n, coefficients[0], filterState, 0, x, s);
    // Second cascade: out_data -> in_data, state words 2 and 3.
    ghost var y2, t2 := CascadeStage(outData, inData, n, coefficients[1], filterState, 1, y1, t1);
    // Third cascade: in_data -> out_data, state words 4 and 5.
    ghost var y3, t3 := CascadeStage(inData, outData, n, coefficients[2], filterState, 2, y2, t2);
    AllPassAssemble(x, coefficients, s, y1, t1, y2, t2, y3, t3);
    r := Cascade(y3, y2, t3);
  }
}
