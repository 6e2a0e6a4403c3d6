/** `SplittingFilter`: splits every channel of a frame into frequency bands
    and merges them back. With two bands each channel runs the QMF bank
    with its own four six-word states; with three bands it hands the
    channel to a `ThreeBandFilterBank`, whose transform is not part of this
    model. Buffers hold int16 samples: the float/int16 conversions around
    the QMF calls are the identity here. */
module Splitting {
  import opened FixedPoint
  import opened AllPass
  import opened Qmf

  /** `kSamplesPerBand` and `kTwoBandFilterSamplesPerFrame`. */
  const SamplesPerBand: nat := 160
  const TwoBandFilterSamplesPerFrame: nat := 320

  /** `ThreeBandFilterBank::kFullBandSize`, `kNumBands` and `kSplitBandSize`
      (declared in the three-band filter bank's header). */
  const ThreeBandFullBandSize: nat := 480
  const ThreeBandNumBands: nat := 3
  const ThreeBandSplitBandSize: nat := 160

  /** `ChannelBuffer`: numFrames samples per channel, laid out channel after
      channel; band b of a channel is its samples
      [b * framesPerBand, (b + 1) * framesPerBand). */
  datatype ChannelBuffer = ChannelBuffer(numFrames: nat, numBands: nat, channels: seq<seq<Int16>>)
  {
    predicate Valid()
    {
      numBands >= 1 && numFrames % numBands == 0
      && forall c | 0 <= c < |channels| :: |channels[c]| == numFrames
    }

    function NumChannels(): nat
    {
      |channels|
    }

    function NumFramesPerBand(): nat
      requires numBands >= 1
    {
      numFrames / numBands
    }
  }

  /** The per-channel state of the two-band path: two cascades for analysis
      and two for synthesis. */
  datatype TwoBandsStates = TwoBandsStates(analysisState1: seq<Int32>, analysisState2: seq<Int32>,
                                           synthesisState1: seq<Int32>, synthesisState2: seq<Int32>)
  {
    predicate Valid()
    {
      |analysisState1| == StateSize && |analysisState2| == StateSize
      && |synthesisState1| == StateSize && |synthesisState2| == StateSize
    }
  }

  /** A fresh channel state: every word zero. */
  function InitialStates(): (st: TwoBandsStates)
    ensures st.Valid()
  {
    var zero := seq(StateSize, _ => 0);
    TwoBandsStates(zero, zero, zero, zero)
  }

  predicate AllValid(states: seq<TwoBandsStates>)
  {
    forall i | 0 <= i < |states| :: states[i].Valid()
  }

  /** What processing one channel produces: its new state and its new
      samples (both bands for analysis, the full band for synthesis). */
  datatype ChannelResult = ChannelResult(states: TwoBandsStates, samples: seq<Int16>)

  /** Two-band analysis of one 320-sample channel: the QMF analysis with the
      channel's analysis states; the low band fills band 0 and the high band
      band 1. The synthesis states are left as they were. */
  function AnalyzeChannel(st: TwoBandsStates, x: seq<Int16>): (r: ChannelResult)
    requires st.Valid() && |x| == TwoBandFilterSamplesPerFrame
    ensures r.states.Valid() && |r.samples| == TwoBandFilterSamplesPerFrame
  {
    var q := AnalysisQMFSpec(x, st.analysisState1, st.analysisState2);
    ChannelResult(st.(analysisState1 := q.state1, analysisState2 := q.state2), q.low + q.high)
  }

  /** Two-band synthesis of one channel from its two 160-sample bands, with
      the channel's synthesis states. The analysis states are left as they
      were. */
  function SynthesizeChannel(st: TwoBandsStates, b: seq<Int16>): (r: ChannelResult)
    requires st.Valid() && |b| == TwoBandFilterSamplesPerFrame
    ensures r.states.Valid() && |r.samples| == TwoBandFilterSamplesPerFrame
  {
    var q := SynthesisQMFSpec(b[..SamplesPerBand], b[SamplesPerBand..], st.synthesisState1, st.synthesisState2);
    ChannelResult(st.(synthesisState1 := q.state1, synthesisState2 := q.state2), q.output)
  }

  /** Analysis touches only the analysis states and synthesis only the
      synthesis states, so the two directions commute on a channel's state. */
  lemma AnalysisSynthesisDisjoint(st: TwoBandsStates, x: seq<Int16>, b: seq<Int16>)
    requires st.Valid() && |x| == TwoBandFilterSamplesPerFrame && |b| == TwoBandFilterSamplesPerFrame
    ensures AnalyzeChannel(st, x).states.synthesisState1 == st.synthesisState1
    ensures AnalyzeChannel(st, x).states.synthesisState2 == st.synthesisState2
    ensures SynthesizeChannel(st, b).states.analysisState1 == st.analysisState1
    ensures SynthesizeChannel(st, b).states.analysisState2 == st.analysisState2
    ensures SynthesizeChannel(AnalyzeChannel(st, x).states, b).states
         == AnalyzeChannel(SynthesizeChannel(st, b).states, x).states
  {
  }

  /** The bands of an analysed channel are the QMF low band followed by the
      QMF high band, each 160 samples long. */
  lemma AnalyzeChannelBands(st: TwoBandsStates, x: seq<Int16>)
    requires st.Valid() && |x| == TwoBandFilterSamplesPerFrame
    ensures var r := AnalyzeChannel(st, x);
            var q := AnalysisQMFSpec(x, st.analysisState1, st.analysisState2);
            && r.samples[..SamplesPerBand] == q.low && r.samples[SamplesPerBand..] == q.high
  {
    var q := AnalysisQMFSpec(x, st.analysisState1, st.analysisState2);
    assert (q.low + q.high)[..SamplesPerBand] == q.low;
    assert (q.low + q.high)[SamplesPerBand..] == q.high;
  }

  /** Two-band analysis of one channel over arrays, as `TwoBandsAnalysis`
      does for channel i: copy in, `WebRtcSpl_AnalysisQMF` with fresh
      copies of the channel's analysis states, copy both bands out. */
  method AnalysisOfChannel(st: TwoBandsStates, x: seq<Int16>) returns (r: ChannelResult)
    requires st.Valid() && |x| == TwoBandFilterSamplesPerFrame
    ensures r == AnalyzeChannel(st, x)
  {
    var fullBand16 := new Int16[TwoBandFilterSamplesPerFrame](i requires 0 <= i < TwoBandFilterSamplesPerFrame => x[i]);
    var state1 := new Int32[StateSize](i requires 0 <= i < StateSize => st.analysisState1[i]);
    var state2 := new Int32[StateSize](i requires 0 <= i < StateSize => st.analysisState2[i]);
    var low := new Int16[SamplesPerBand];
    var high := new Int16[SamplesPerBand];
    assert fullBand16[..] == x && state1[..] == st.analysisState1 && state2[..] == st.analysisState2;
    ghost var q := AnalysisQMF(fullBand16, TwoBandFilterSamplesPerFrame, low, high, state1, state2,
                               x, st.analysisState1, st.analysisState2);
    assert low[..] == q.low && high[..] == q.high;
    r := ChannelResult(st.(analysisState1 := state1[..], analysisState2 := state2[..]), low[..] + high[..]);
  }

  /** Two-band synthesis of one channel over arrays, as `TwoBandsSynthesis`
      does for channel i. */
  method SynthesisOfChannel(st: TwoBandsStates, b: seq<Int16>) returns (r: ChannelResult)
    requires st.Valid() && |b| == TwoBandFilterSamplesPerFrame
    ensures r == SynthesizeChannel(st, b)
  {
    var low := new Int16[SamplesPerBand](i requires 0 <= i < SamplesPerBand => b[i]);
    var high := new Int16[SamplesPerBand](i requires 0 <= i < SamplesPerBand => b[SamplesPerBand + i]);
    var state1 := new Int32[StateSize](i requires 0 <= i < StateSize => st.synthesisState1[i]);
    var state2 := new Int32[StateSize](i requires 0 <= i < StateSize => st.synthesisState2[i]);
    var fullBand16 := new Int16[TwoBandFilterSamplesPerFrame];
    assert low[..] == b[..SamplesPerBand] && high[..] == b[SamplesPerBand..];
    assert state1[..] == st.synthesisState1 && state2[..] == st.synthesisState2;
    ghost var q := SynthesisQMF(low, high, SamplesPerBand, fullBand16, state1, state2,
                                b[..SamplesPerBand], b[SamplesPerBand..], st.synthesisState1, st.synthesisState2);
    assert fullBand16[..] == q.output;
    r := ChannelResult(st.(synthesisState1 := state1[..], synthesisState2 := state2[..]), fullBand16[..]);
  }

  /** Every channel of the input is one 320-sample frame. */
  predicate FramesOf(chans: seq<seq<Int16>>)
  {
    forall c | 0 <= c < |chans| :: |chans[c]| == TwoBandFilterSamplesPerFrame
  }

  /** A per-channel transform f applied to every channel in turn, channel c
      with state c. */
  function MapChannels(f: (TwoBandsStates, seq<Int16>) --> ChannelResult,
                       states: seq<TwoBandsStates>, chans: seq<seq<Int16>>): (r: seq<ChannelResult>)
    requires |states| == |chans| && forall c | 0 <= c < |states| :: f.requires(states[c], chans[c])
    ensures |r| == |states|
    decreases |states|
  {
    if |states| == 0 then []
    else
      var n := |states| - 1;
      MapChannels(f, states[..n], chans[..n]) + [f(states[n], chans[n])]
  }

  /** Channel isolation: channel i of the result is f of the state and the
      samples of channel i alone. */
  lemma {:induction false} MapChannelsAt(f: (TwoBandsStates, seq<Int16>) --> ChannelResult,
                                         states: seq<TwoBandsStates>, chans: seq<seq<Int16>>, i: nat)
    requires |states| == |chans| && forall c | 0 <= c < |states| :: f.requires(states[c], chans[c])
    requires i < |states|
    ensures MapChannels(f, states, chans)[i] == f(states[i], chans[i])
    decreases |states|
  {
    var n := |states| - 1;
    if i < n {
      MapChannelsAt(f, states[..n], chans[..n], i);
    }
  }

  /** One more channel extends the mapped prefix by one result. */
  lemma MapChannelsPrefix(f: (TwoBandsStates, seq<Int16>) --> ChannelResult,
                          states: seq<TwoBandsStates>, chans: seq<seq<Int16>>, i: nat)
    requires |states| == |chans| && forall c | 0 <= c < |states| :: f.requires(states[c], chans[c])
    requires i < |states|
    ensures MapChannels(f, states[..i + 1], chans[..i + 1])
         == MapChannels(f, states[..i], chans[..i]) + [f(states[i], chans[i])]
  {
    assert states[..i + 1][..i] == states[..i] && chans[..i + 1][..i] == chans[..i];
  }

  function StatesOf(rs: seq<ChannelResult>): (r: seq<TwoBandsStates>)
    ensures |r| == |rs| && forall i | 0 <= i < |rs| :: r[i] == rs[i].states
  {
    seq(|rs|, i requires 0 <= i < |rs| => rs[i].states)
  }

  function SamplesOf(rs: seq<ChannelResult>): (r: seq<seq<Int16>>)
    ensures |r| == |rs| && forall i | 0 <= i < |rs| :: r[i] == rs[i].samples
  {
    seq(|rs|, i requires 0 <= i < |rs| => rs[i].samples)
  }

  /** Every analysed channel has a valid state and a full frame of band
      samples. */
  lemma AnalyzeAllShape(states: seq<TwoBandsStates>, chans: seq<seq<Int16>>)
    requires |states| == |chans| && AllValid(states) && FramesOf(chans)
    ensures var rs := MapChannels(AnalyzeChannel, states, chans);
            AllValid(StatesOf(rs)) && FramesOf(SamplesOf(rs))
  {
    var rs := MapChannels(AnalyzeChannel, states, chans);
    forall i | 0 <= i < |rs|
      ensures rs[i].states.Valid() && |rs[i].samples| == TwoBandFilterSamplesPerFrame
    {
      MapChannelsAt(AnalyzeChannel, states, chans, i);
    }
  }

  /** Every synthesised channel has a valid state and a full frame of
      samples. */
  lemma SynthesizeAllShape(states: seq<TwoBandsStates>, chans: seq<seq<Int16>>)
    requires |states| == |chans| && AllValid(states) && FramesOf(chans)
    ensures var rs := MapChannels(SynthesizeChannel, states, chans);
            AllValid(StatesOf(rs)) && FramesOf(SamplesOf(rs))
  {
    var rs := MapChannels(SynthesizeChannel, states, chans);
    forall i | 0 <= i < |rs|
      ensures rs[i].states.Valid() && |rs[i].samples| == TwoBandFilterSamplesPerFrame
    {
      MapChannelsAt(SynthesizeChannel, states, chans, i);
    }
  }

  /** Channel i of a two-band analysis is computed from the state and the
      samples of channel i alone, and leaves that channel's synthesis
      states as they were. */
  lemma AnalysisIsolation(states: seq<TwoBandsStates>, chans: seq<seq<Int16>>, i: nat)
    requires |states| == |chans| && AllValid(states) && FramesOf(chans) && i < |states|
    ensures var r := MapChannels(AnalyzeChannel, states, chans)[i];
            && r == AnalyzeChannel(states[i], chans[i])
            && r.states.synthesisState1 == states[i].synthesisState1
            && r.states.synthesisState2 == states[i].synthesisState2
  {
    MapChannelsAt(AnalyzeChannel, states, chans, i);
  }

  /** Channel i of a two-band synthesis is computed from the state and the
      bands of channel i alone, and leaves that channel's analysis states as
      they were. */
  lemma SynthesisIsolation(states: seq<TwoBandsStates>, chans: seq<seq<Int16>>, i: nat)
    requires |states| == |chans| && AllValid(states) && FramesOf(chans) && i < |states|
    ensures var r := MapChannels(SynthesizeChannel, states, chans)[i];
            && r == SynthesizeChannel(states[i], chans[i])
            && r.states.analysisState1 == states[i].analysisState1
            && r.states.analysisState2 == states[i].analysisState2
  {
    MapChannelsAt(SynthesizeChannel, states, chans, i);
  }

  /** One channel of the loop of `TwoBandsAnalysis`. */
  method AnalyzeNextChannel(states: seq<TwoBandsStates>, chans: seq<seq<Int16>>, i: nat, rs: seq<ChannelResult>)
    returns (rs': seq<ChannelResult>)
    requires |states| == |chans| && AllValid(states) && FramesOf(chans) && i < |states|
    requires rs == MapChannels(AnalyzeChannel, states[..i], chans[..i])
    ensures rs' == MapChannels(AnalyzeChannel, states[..i + 1], chans[..i + 1])
  {
    var r := AnalysisOfChannel(states[i], chans[i]);
    MapChannelsPrefix(AnalyzeChannel, states, chans, i);
    rs' := rs + [r];
  }

  /** The loop of `TwoBandsAnalysis` over the channels. */
  method AnalyzeChannels(states: seq<TwoBandsStates>, chans: seq<seq<Int16>>) returns (rs: seq<ChannelResult>)
    requires |states| == |chans| && AllValid(states) && FramesOf(chans)
    ensures rs == MapChannels(AnalyzeChannel, states, chans)
  {
    rs := [];
    for i := 0 to |states|
      invariant rs == MapChannels(AnalyzeChannel, states[..i], chans[..i])
    {
      rs := AnalyzeNextChannel(states, chans, i, rs);
    }
    assert states[..|states|] == states && chans[..|states|] == chans;
  }

  /** One channel of the loop of `TwoBandsSynthesis`. */
  method SynthesizeNextChannel(states: seq<TwoBandsStates>, chans: seq<seq<Int16>>, i: nat, rs: seq<ChannelResult>)
    returns (rs': seq<ChannelResult>)
    requires |states| == |chans| && AllValid(states) && FramesOf(chans) && i < |states|
    requires rs == MapChannels(SynthesizeChannel, states[..i], chans[..i])
    ensures rs' == MapChannels(SynthesizeChannel, states[..i + 1], chans[..i + 1])
  {
    var r := SynthesisOfChannel(states[i], chans[i]);
    MapChannelsPrefix(SynthesizeChannel, states, chans, i);
    rs' := rs + [r];
  }

  /** The loop of `TwoBandsSynthesis` over the channels. */
  method SynthesizeChannels(states: seq<TwoBandsStates>, chans: seq<seq<Int16>>) returns (rs: seq<ChannelResult>)
    requires |states| == |chans| && AllValid(states) && FramesOf(chans)
    ensures rs == MapChannels(SynthesizeChannel, states, chans)
  {
    rs := [];
    for i := 0 to |states|
      invariant rs == MapChannels(SynthesizeChannel, states[..i], chans[..i])
    {
      rs := SynthesizeNextChannel(states, chans, i, rs);
    }
    assert states[..|states|] == states && chans[..|states|] == chans;
  }

  /** The shape checks `Analysis` and `Synthesis` share: the filter's band
      count matches the band buffer, the channel counts match and the full
      band is as long as all bands together. */
  predicate ShapesMatch(numBands: nat, full: ChannelBuffer, bands: ChannelBuffer)
  {
    full.Valid() && bands.Valid()
    && numBands == bands.numBands
    && full.NumChannels() == bands.NumChannels()
    && full.numFrames == bands.NumFramesPerBand() * bands.numBands
  }

  /** The shape checks of the three-band path: 480 full-band samples in
      three bands of 160. */
  predicate ThreeBandShapes(full: ChannelBuffer, bands: ChannelBuffer)
    requires bands.numBands >= 1
  {
    full.numFrames == ThreeBandFullBandSize && bands.numFrames == ThreeBandFullBandSize
    && bands.numBands == ThreeBandNumBands && bands.NumFramesPerBand() == ThreeBandSplitBandSize
  }

  /** With two bands and a 320-sample full band, the band buffer is 320
      samples per channel too. */
  lemma TwoBandShapes(full: ChannelBuffer, bands: ChannelBuffer)
    requires ShapesMatch(2, full, bands) && full.numFrames == TwoBandFilterSamplesPerFrame
    ensures bands.numFrames == TwoBandFilterSamplesPerFrame
    ensures FramesOf(full.channels) && FramesOf(bands.channels)
  {
  }

  class SplittingFilter {
    var numBands: nat
    var twoBandsStates: seq<TwoBandsStates>
    /** Number of `ThreeBandFilterBank`s; their state is not modelled. */
    var threeBandFilterBanks: nat

    ghost predicate Valid()
      reads this
    {
      (numBands == 2 || numBands == 3)
      && (numBands != 2 ==> |twoBandsStates| == 0)
      && (numBands != 3 ==> threeBandFilterBanks == 0)
      && AllValid(twoBandsStates)
    }

    /** Two-band states for every channel when there are two bands, a
        three-band bank for every channel when there are three; any other
        band count fails the check. `numFrames` is not used. */
    constructor (numChannels: nat, numBands: nat, numFrames: nat)
      requires numBands == 2 || numBands == 3
      ensures Valid() && this.numBands == numBands
      ensures twoBandsStates == if numBands == 2 then seq(numChannels, _ => InitialStates()) else []
      ensures threeBandFilterBanks == if numBands == 3 then numChannels else 0
    {
      this.numBands := numBands;
      twoBandsStates := if numBands == 2 then seq(numChannels, _ => InitialStates()) else [];
      threeBandFilterBanks := if numBands == 3 then numChannels else 0;
    }

    /** `TwoBandsAnalysis`: each channel is analysed with its own analysis
        states (see `AnalysisIsolation`); its bands replace that channel of the
        band buffer. */
    method TwoBandsAnalysis(data: ChannelBuffer, bands: ChannelBuffer) returns (out: ChannelBuffer)
      requires Valid() && FramesOf(data.channels) && bands.Valid()
      requires |twoBandsStates| == data.NumChannels() && data.numFrames == TwoBandFilterSamplesPerFrame
      requires bands.numFrames == TwoBandFilterSamplesPerFrame && bands.NumChannels() == data.NumChannels()
      modifies this
      ensures Valid() && numBands == old(numBands) && threeBandFilterBanks == old(threeBandFilterBanks)
      ensures out.Valid()
      ensures twoBandsStates == StatesOf(MapChannels(AnalyzeChannel, old(twoBandsStates), data.channels))
      ensures out == bands.(channels := SamplesOf(MapChannels(AnalyzeChannel, old(twoBandsStates), data.channels)))
    {
      var rs := AnalyzeChannels(twoBandsStates, data.channels);
      AnalyzeAllShape(twoBandsStates, data.channels);
      twoBandsStates := StatesOf(rs);
      out := bands.(channels := SamplesOf(rs));
    }

    /** `TwoBandsSynthesis`: each channel of the output buffer is
        synthesised from the same channel of the band buffer with its own
        synthesis states (see `SynthesisIsolation`); the states of channels
        beyond the output's count stay as they were. */
    method TwoBandsSynthesis(bands: ChannelBuffer, data: ChannelBuffer) returns (out: ChannelBuffer)
      requires Valid() && FramesOf(bands.channels) && data.Valid()
      requires data.NumChannels() <= |twoBandsStates| && data.numFrames == TwoBandFilterSamplesPerFrame
      requires bands.numFrames == TwoBandFilterSamplesPerFrame && data.NumChannels() <= bands.NumChannels()
      modifies this
      ensures Valid() && numBands == old(numBands) && threeBandFilterBanks == old(threeBandFilterBanks)
      ensures out.Valid()
      ensures var n := data.NumChannels();
              twoBandsStates == StatesOf(MapChannels(SynthesizeChannel, old(twoBandsStates)[..n], bands.channels[..n])) + old(twoBandsStates)[n..]
      ensures var n := data.NumChannels();
              out == data.(channels := SamplesOf(MapChannels(SynthesizeChannel, old(twoBandsStates)[..n], bands.channels[..n])))
    {
      var n := data.NumChannels();
      var rs := SynthesizeChannels(twoBandsStates[..n], bands.channels[..n]);
      SynthesizeAllShape(twoBandsStates[..n], bands.channels[..n]);
      twoBandsStates := StatesOf(rs) + twoBandsStates[n..];
      out := data.(channels := SamplesOf(rs));
    }

    /** `Analysis`: checks the shapes and dispatches on the band count. The
        three-band path yields some band buffer of the same shape and keeps
        every two-band state (there are none). */
    method Analysis(data: ChannelBuffer, bands: ChannelBuffer) returns (out: ChannelBuffer)
      requires Valid() && ShapesMatch(numBands, data, bands)
      requires bands.numBands == 2 ==> |twoBandsStates| == data.NumChannels() && data.numFrames == TwoBandFilterSamplesPerFrame
      requires bands.numBands == 3 ==> threeBandFilterBanks == data.NumChannels() && ThreeBandShapes(data, bands)
      modifies this
      ensures Valid() && numBands == old(numBands) && threeBandFilterBanks == old(threeBandFilterBanks)
      ensures out.Valid() && out.numFrames == bands.numFrames && out.numBands == bands.numBands
      ensures |out.channels| == |bands.channels|
      ensures bands.numBands == 2 ==>
                && twoBandsStates == StatesOf(MapChannels(AnalyzeChannel, old(twoBandsStates), data.channels))
                && out.channels == SamplesOf(MapChannels(AnalyzeChannel, old(twoBandsStates), data.channels))
      ensures bands.numBands == 3 ==> twoBandsStates == old(twoBandsStates)
    {
      if bands.numBands == 2 {
        TwoBandShapes(data, bands);
        out := TwoBandsAnalysis(data, bands);
      } else {
        out := ThreeBandsAnalysis(data, bands);
      }
    }

    /** `Synthesis`: checks the shapes and dispatches on the band count. */
    method Synthesis(bands: ChannelBuffer, data: ChannelBuffer) returns (out: ChannelBuffer)
      requires Valid() && ShapesMatch(numBands, data, bands)
      requires bands.numBands == 2 ==> data.NumChannels() <= |twoBandsStates| && data.numFrames == TwoBandFilterSamplesPerFrame
      requires bands.numBands == 3 ==> data.NumChannels() <= threeBandFilterBanks && ThreeBandShapes(data, bands)
      modifies this
      ensures Valid() && numBands == old(numBands) && threeBandFilterBanks == old(threeBandFilterBanks)
      ensures out.Valid() && out.numFrames == data.numFrames && out.numBands == data.numBands
      ensures |out.channels| == |data.channels|
      ensures bands.numBands == 2 ==>
                var n := data.NumChannels();
                && twoBandsStates == StatesOf(MapChannels(SynthesizeChannel, old(twoBandsStates)[..n], bands.channels[..n])) + old(twoBandsStates)[n..]
                && out.channels == SamplesOf(MapChannels(SynthesizeChannel, old(twoBandsStates)[..n], bands.channels[..n]))
      ensures bands.numBands == 3 ==> twoBandsStates == old(twoBandsStates)
    {
      if bands.numBands == 2 {
        TwoBandShapes(data, bands);
        out := TwoBandsSynthesis(bands, data);
      } else {
        out := ThreeBandsSynthesis(bands, data);
      }
    }

    /** `ThreeBandsAnalysis`: only the shape checks are modelled; each bank
        writes some samples into the bands of its channel. */
    method ThreeBandsAnalysis(data: ChannelBuffer, bands: ChannelBuffer) returns (out: ChannelBuffer)
      requires Valid() && data.Valid() && bands.Valid()
      requires threeBandFilterBanks == data.NumChannels() && data.NumChannels() <= bands.NumChannels()
      requires ThreeBandShapes(data, bands)
      ensures out.Valid() && out.numFrames == bands.numFrames && out.numBands == bands.numBands
      ensures |out.channels| == |bands.channels|
    {
      out :| out.Valid() && out.numFrames == bands.numFrames && out.numBands == bands.numBands
             && |out.channels| == |bands.channels|;
    }

    /** `ThreeBandsSynthesis`: only the shape checks are modelled. */
    method ThreeBandsSynthesis(bands: ChannelBuffer, data: ChannelBuffer) returns (out: ChannelBuffer)
      requires Valid() && data.Valid() && bands.Valid()
      requires data.NumChannels() <= threeBandFilterBanks && data.NumChannels() <= bands.NumChannels()
      requires ThreeBandShapes(data, bands)
      ensures out.Valid() && out.numFrames == data.numFrames && out.numBands == data.numBands
      ensures |out.channels| == |data.channels|
    {
      out :| out.Valid() && out.numFrames == data.numFrames && out.numBands == data.numBands
             && |out.channels| == |data.channels|;
    }
  }
}
