# Two-band QMF splitting filter and WAV file I/O

This project models two parts of an acoustic echo cancellation demo in Dafny:

- **The band-splitting filter** (`modules/audio_processing/splitting_filter.cc`).
  It covers the fixed-point all-pass cascade `WebRtcSpl_AllPassQMF` and the
  two-band QMF analysis and synthesis (`WebRtcSpl_AnalysisQMF`,
  `WebRtcSpl_SynthesisQMF`). It also covers the `SplittingFilter` class: its
  per-channel filter states and the two-band and three-band dispatch.
- **The WAV file code** (`AEC3Lib/wave_file.cpp`). It covers the byte
  encoders, the 44-byte canonical header, the `WavWriter` class (open, append
  samples, patch the header on close) and the `WavReader` class (open and
  parse a header, search for the `data` chunk, primitive reads).

The files:

| file | module | contents |
|---|---|---|
| `FixedPoint.dfy` | `FixedPoint` | `int16`/`int32` ranges, saturating subtraction and narrowing, 32-bit wrap-around, rounding shifts |
| `AllPassQmf.dfy` | `AllPass` | one all-pass stage as a recurrence, the three-stage cascade as a specification function, the array method proved against it, streaming lemmas |
| `TwoBandQmf.dfy` | `Qmf` | even/odd split and interleave, analysis and synthesis as functions, array methods proved against them, the state and streaming lemmas |
| `SplittingFilter.dfy` | `Splitting` | channel buffers, per-channel states, the channel loops and the `SplittingFilter` class |
| `WaveFormat.dfy` | `WaveFormat` | integer conversions of C, four-character codes, little-endian encoders, the header layout, the parse of `WavReader::Open` as a function, header round trips, the finding below |
| `WaveFile.dfy` | `WaveFile` | the classes `WavWriter` and `WavReader`, and the lemmas that whole files written by the writer read back |

Modelling choices:

- Integers are unbounded in Dafny. The C types are range-restricted subset
  types (`Int16`, `Int32`, `UInt16`, `UInt32`, `Byte`). The conversions
  between them are explicit functions: `AsUInt16`, `AsUInt32`, `AsInt16`,
  `AsInt32` and `Wrap32`. `int32_t` sums that can leave the 32-bit range in
  the filter wrap modulo 2^32 through `Wrap32`. So does the result of
  `WEBRTC_SPL_SCALEDIFF32`. The other C arithmetic is modelled on unbounded
  integers; the lines under "## Left out" say where that differs from C.
- C's `/` truncates toward zero. It is modelled by `TruncDiv`.
- A file is a byte sequence, and the reader's `FILE*` cursor is a `pos`
  field.
- Whether `fopen` succeeds is a parameter of each `Open`. For the writer it
  is a flag. For the reader it is either nothing or the file's bytes.
- The all-pass cascade keeps the source's in-place use of its buffers. The
  input array is overwritten with the second stage's output, and the method's
  contract states that.

## Model

| member | source | states |
|---|---|---|
| `FixedPoint.SubSatW32` | modules/audio_processing/splitting_filter.cc:66 | the difference is exact when it fits in 32 bits; otherwise it saturates at the int32 bound on the overflowing side |
| `FixedPoint.SatW32ToW16` | modules/audio_processing/splitting_filter.cc:147 | the value is kept when it fits in 16 bits; otherwise it is clamped to -32768 or 32767 |
| `FixedPoint.RoundShift11` | modules/audio_processing/splitting_filter.cc:146 | `(v + 1024) >> 11` on an `int32_t` sum: when v + 1024 fits in 32 bits, r is v / 2048 rounded to nearest with halves up (2048r - 1024 <= v < 2048r + 1024); when it wraps in either direction, the same holds for v - 2^32 (upward) or v + 2^32 (downward); r always lies in [-2^20, 2^20) |
| `FixedPoint.RoundShift10` | modules/audio_processing/splitting_filter.cc:188 | `(v + 512) >> 10` on an `int32_t` sum: v / 1024 rounded to nearest (1024r - 512 <= v < 1024r + 512) when v + 512 fits, the same for v - 2^32 when it overflows; r lies in [-2^21, 2^21) |
| `FixedPoint.ProductIsMul` | modules/audio_processing/splitting_filter.cc:68 | the repeated addition used for the macro's product is a * diff |
| `FixedPoint.ScaleDiff32Value` | modules/audio_processing/splitting_filter.cc:68 | `WEBRTC_SPL_SCALEDIFF32(a, diff, prev)` is prev + floor(a * diff / 2^16) when that fits in 32 bits, and that value less or plus 2^32 when it overflows upward or downward; the quotient itself always fits |
| `AllPass.SectionAt` | modules/audio_processing/splitting_filter.cc:63-77 | every output sample of one all-pass stage follows the recurrence y[n] = x[n-1] + a(x[n] - y[n-1]), with saturating difference, where n = 0 takes x[-1] and y[-1] from the state |
| `AllPass.StepValue` | modules/audio_processing/splitting_filter.cc:73-76 | one step y = x[n-1] + a(x[n] - y[n-1]): the difference is exact when it fits in 32 bits, and y is x[n-1] + floor(a * diff / 2^16), exact or wrapped by 2^32 |
| `AllPass.Section` | modules/audio_processing/splitting_filter.cc:63-77 | one all-pass stage over a whole buffer yields one output per input; `AllPass.SectionAt` gives each output's recurrence and `AllPass.SectionStreaming` its streaming |
| `AllPass.AllPassQMFSpec` | modules/audio_processing/splitting_filter.cc:32-113 | the three stages in series yield one output and one stage-2 sample per input and a six-word state; `AllPass.AllPassStateWords` and `AllPass.AllPassStreaming` state what those are |
| `AllPass.AllPassStateWords` | modules/audio_processing/splitting_filter.cc:79-112 | after the cascade, state word 0 is the last input, words 1 and 2 agree (the last first-stage output, saved twice), words 3 and 4 are the last second-stage output and word 5 is the last output |
| `AllPass.SectionStreaming` | modules/audio_processing/splitting_filter.cc:63-81 | filtering x then y, with the state saved between the calls, gives the same outputs as filtering x + y in one call |
| `AllPass.AllPassStreaming` | modules/audio_processing/splitting_filter.cc:32-113 | the whole cascade streams: outputs, intermediate buffer and final state of one call on x + y equal those of two calls on x and y |
| `AllPass.SectionRun` | modules/audio_processing/splitting_filter.cc:71-77 | the loop leaves the destination's first N words equal to the stage function and every other word unchanged |
| `AllPass.CascadeStage` | modules/audio_processing/splitting_filter.cc:83-97 | one stage with its first sample from the state, its loop and the two state words it saves; the rest of the state is unchanged |
| `AllPass.AllPassQMF` | modules/audio_processing/splitting_filter.cc:32-113 | out_data[..N] is the third stage's output, in_data[..N] is overwritten with the second stage's output, the state is the cascade's new state, and words beyond N are unchanged |
| `Qmf.InterleaveAt` | modules/audio_processing/splitting_filter.cc:186-193 | in the interleaving of a and b, position 2i holds a[i] and position 2i+1 holds b[i] |
| `Qmf.EvensOddsOfInterleave` | modules/audio_processing/splitting_filter.cc:130-134 | splitting an interleaving into even and odd positions gives back its two halves |
| `Qmf.InterleaveOfEvensOdds` | modules/audio_processing/splitting_filter.cc:130-134 | interleaving the even and odd samples of an even-length signal gives back the signal |
| `Qmf.ZipConcat` | modules/audio_processing/splitting_filter.cc:144-151 | combining two branch blocks sample by sample and concatenating gives the combination of the concatenated blocks |
| `Qmf.LowSample` | modules/audio_processing/splitting_filter.cc:146-147 | one low-band sample is (f1 + f2) / 2048 rounded to nearest, halves up, and clamped to int16; where the `int32_t` sum wraps, upward or downward, the same holds for the sum moved by 2^32 |
| `Qmf.HighSample` | modules/audio_processing/splitting_filter.cc:149-150 | one high-band sample is (f1 - f2) / 2048 rounded and clamped the same way, with the same rule for a wrapped difference |
| `Qmf.LowBandWrapsAround` | modules/audio_processing/splitting_filter.cc:146-150 | the band sums are `int32_t`: two filtered samples of 2^30 wrap to a negative sum, so the low band saturates at -32768, not 32767, and the high band is 0 |
| `Qmf.AnalysisBranchIndependence` | modules/audio_processing/splitting_filter.cc:136-140 | the first analysis state depends only on the odd samples and the second only on the even ones |
| `Qmf.AnalysisStateWords` | modules/audio_processing/splitting_filter.cc:129-140 | after analysis, word 0 of state1 is the last odd input sample in Q10 and word 0 of state2 the last even one; the duplicated words of each state agree |
| `Qmf.AnalysisStreaming` | modules/audio_processing/splitting_filter.cc:114-152 | analysing x then y with the saved states gives the low and high bands and the states of analysing x + y |
| `Qmf.AnalysisQMFSpec` | modules/audio_processing/splitting_filter.cc:114-152 | analysis of an even-length block gives a low and a high band of half its length and two six-word states; `Qmf.AnalysisStateWords`, `Qmf.AnalysisBranchIndependence` and `Qmf.AnalysisStreaming` state what they hold |
| `Qmf.SynthesisPhases` | modules/audio_processing/splitting_filter.cc:183-193 | even output samples come from the difference branch (second state) and odd ones from the sum branch (first state) |
| `Qmf.SynthesisStateWords` | modules/audio_processing/splitting_filter.cc:167-181 | after synthesis, word 0 of state1 is the last low+high sum in Q10 and word 0 of state2 the last low-high difference; the duplicated words of each state agree |
| `Qmf.SynthesisStreaming` | modules/audio_processing/splitting_filter.cc:154-195 | synthesising two band blocks one after the other with the saved states equals synthesising their concatenation |
| `Qmf.SynthesisQMFSpec` | modules/audio_processing/splitting_filter.cc:154-195 | synthesis of two equal bands gives an output of twice their length and two six-word states; `Qmf.SynthesisPhases`, `Qmf.SynthesisStateWords` and `Qmf.SynthesisStreaming` state what they hold |
| `Qmf.SumQ10` | modules/audio_processing/splitting_filter.cc:167-175 | the sum channel has one Q10 sample per band sample; `Qmf.Q10RoundTrip` shows the output rounding gives back the saturated low + high |
| `Qmf.DiffQ10` | modules/audio_processing/splitting_filter.cc:167-175 | the difference channel has one Q10 sample per band sample; `Qmf.Q10RoundTrip` shows the output rounding gives back the saturated low - high |
| `Qmf.RoundShift10OfQ10` | modules/audio_processing/splitting_filter.cc:171-188 | `(x * 1024 + 512) >> 10` is x for every sum or difference of two int16 samples |
| `Qmf.Q10RoundTrip` | modules/audio_processing/splitting_filter.cc:167-193 | without filtering, the Q10 sum and difference channels come back through the output rounding as the int16-saturated sum and difference |
| `Qmf.SplitToQ10` | modules/audio_processing/splitting_filter.cc:129-134 | the loop fills the two half buffers with the odd and the even samples scaled to Q10 |
| `Qmf.CombineToBands` | modules/audio_processing/splitting_filter.cc:142-151 | the loop writes the rounded, saturated sum and difference of the filtered branches into the low and high bands |
| `Qmf.AnalysisBranches` | modules/audio_processing/splitting_filter.cc:136-140 | the odd samples run through the cascade with the first coefficients and state1, the even ones with the second coefficients and state2; each filter buffer and state is that cascade's result |
| `Qmf.AnalysisQMF` | modules/audio_processing/splitting_filter.cc:114-152 | the low band, the high band and both states are those of the analysis specification, which the lemmas above describe |
| `Qmf.SumDiffToQ10` | modules/audio_processing/splitting_filter.cc:167-175 | the loop fills the two half buffers with low+high and low-high in Q10 |
| `Qmf.InterleaveFromQ10` | modules/audio_processing/splitting_filter.cc:183-193 | the loop writes the rounded, saturated branch outputs alternately into the output, difference branch first |
| `Qmf.SynthesisBranches` | modules/audio_processing/splitting_filter.cc:177-181 | the sums run through the cascade with the second coefficients and state1, the differences with the first coefficients and state2; each filter buffer and state is that cascade's result |
| `Qmf.SynthesisQMF` | modules/audio_processing/splitting_filter.cc:154-195 | the output and both states are those of the synthesis specification |
| `Splitting.AnalysisSynthesisDisjoint` | modules/audio_processing/splitting_filter.cc:237-270 | analysis keeps a channel's synthesis states, synthesis keeps its analysis states, and the two commute on the channel's state |
| `Splitting.AnalyzeChannel` | modules/audio_processing/splitting_filter.cc:243-251 | one channel's analysis keeps valid states and 320 samples; `Splitting.AnalyzeChannelBands` and `Splitting.AnalysisSynthesisDisjoint` say where the bands go and which states change |
| `Splitting.SynthesizeChannel` | modules/audio_processing/splitting_filter.cc:260-268 | one channel's synthesis keeps valid states and 320 samples; `Splitting.AnalysisSynthesisDisjoint` says which states change |
| `Splitting.AnalyzeChannelBands` | modules/audio_processing/splitting_filter.cc:243-251 | an analysed channel holds the QMF low band in its first 160 samples and the high band in the next 160 |
| `Splitting.AnalysisOfChannel` | modules/audio_processing/splitting_filter.cc:243-251 | the array code for one channel (copy in, QMF analysis, copy out) computes that channel's analysis |
| `Splitting.SynthesisOfChannel` | modules/audio_processing/splitting_filter.cc:260-268 | the array code for one channel computes that channel's synthesis |
| `Splitting.MapChannelsAt` | modules/audio_processing/splitting_filter.cc:242-252 | result i of the channel loop is the per-channel operation on state i and channel i |
| `Splitting.AnalysisIsolation` | modules/audio_processing/splitting_filter.cc:242-252 | channel i of a two-band analysis depends only on channel i's samples and state, and keeps its synthesis states |
| `Splitting.SynthesisIsolation` | modules/audio_processing/splitting_filter.cc:259-269 | channel i of a two-band synthesis depends only on channel i's bands and state, and keeps its analysis states |
| `Splitting.AnalyzeChannels` | modules/audio_processing/splitting_filter.cc:242-252 | the loop over the channels yields every channel's analysis in order |
| `Splitting.SynthesizeChannels` | modules/audio_processing/splitting_filter.cc:259-269 | the loop over the channels yields every channel's synthesis in order |
| `Splitting.TwoBandShapes` | modules/audio_processing/splitting_filter.cc:211-214 | with two bands and a 320-sample full band, the shape checks force 320 band samples per channel |
| `Splitting.SplittingFilter.constructor` | modules/audio_processing/splitting_filter.cc:198-205 | two bands get one zeroed state set per channel; three bands get one filter bank per channel; other band counts are refused |
| `Splitting.SplittingFilter.TwoBandsAnalysis` | modules/audio_processing/splitting_filter.cc:237-253 | each channel's bands and new states are that channel's analysis |
| `Splitting.SplittingFilter.TwoBandsSynthesis` | modules/audio_processing/splitting_filter.cc:255-270 | the first n channels are synthesised, n being the output's channel count; the states of later channels are unchanged |
| `Splitting.SplittingFilter.Analysis` | modules/audio_processing/splitting_filter.cc:209-221 | after the shape checks it dispatches on the band count; the two-band result is the per-channel analysis |
| `Splitting.SplittingFilter.Synthesis` | modules/audio_processing/splitting_filter.cc:223-235 | after the shape checks it dispatches on the band count; the two-band result is the per-channel synthesis |
| `Splitting.SplittingFilter.ThreeBandsAnalysis` | modules/audio_processing/splitting_filter.cc:272-292 | the preconditions are the 480/3/160 shape checks; the output keeps the band buffer's shape |
| `Splitting.SplittingFilter.ThreeBandsSynthesis` | modules/audio_processing/splitting_filter.cc:294-314 | the preconditions are the 480/3/160 shape checks; the output keeps the full-band buffer's shape |
| `WaveFormat.AsInt16` | AEC3Lib/wave_file.cpp:134-139 | reading a 16-bit word as `short` and widening it back gives the same bits |
| `WaveFormat.AsInt32` | AEC3Lib/wave_file.cpp:127-132 | reading a 32-bit word as `int` and widening it back gives the same bits |
| `WaveFormat.TruncDiv` | AEC3Lib/wave_file.cpp:79 | C division: rounds toward zero, so the quotient is never larger in magnitude than the exact one |
| `WaveFormat.MakeFourCc` | AEC3Lib/wave_file.cpp:5-8 | the first character is the most significant byte and the fourth the least significant |
| `WaveFormat.WriteString` | AEC3Lib/wave_file.cpp:213-219 | a string writes exactly four bytes; `WaveFormat.FourCcAgreement` says which |
| `WaveFormat.WriteInt32` | AEC3Lib/wave_file.cpp:221-227 | an int writes exactly four bytes; `WaveFormat.WriteInt32LittleEndian` says which |
| `WaveFormat.WriteInt16` | AEC3Lib/wave_file.cpp:229-233 | a 16-bit field writes exactly two bytes; `WaveFormat.WriteInt16LittleEndian` says which |
| `WaveFormat.WriteInt32LittleEndian` | AEC3Lib/wave_file.cpp:221-227 | the four bytes written, read little-endian, give the value modulo 2^32 |
| `WaveFormat.WriteInt16LittleEndian` | AEC3Lib/wave_file.cpp:229-233 | the two bytes written, read little-endian, give the value modulo 2^16 |
| `WaveFormat.FourCcAgreement` | AEC3Lib/wave_file.cpp:213-219 | the four characters a string writes, read as a big-endian word, give its four-character code |
| `WaveFormat.HeaderBytes` | AEC3Lib/wave_file.cpp:235-255 | the header is 44 bytes; `WaveFormat.HeaderLayout` and `WaveFormat.FmtFieldsLayout` give its fields |
| `WaveFormat.HeaderLayout` | AEC3Lib/wave_file.cpp:235-255 | the header is 44 bytes: RIFF at 0, 36 + data length at 4, WAVE at 8, the fmt chunk at 12-36, data at 36 and the data length at 40 |
| `WaveFormat.FmtFieldsLayout` | AEC3Lib/wave_file.cpp:244-251 | the six fmt fields at their offsets, with block align bits/8 * channels and byte rate block align * rate |
| `WaveFormat.BytesPerFrame` | AEC3Lib/wave_file.cpp:244 | `m_nBitsPerSamples / 8 * m_nChannels`: bits / 8 times channels for a non-negative bit count, and always within 2^27, so the C `int` product cannot overflow |
| `WaveFormat.RiffHeader` | AEC3Lib/wave_file.cpp:237-239 | the RIFF chunk header is 12 bytes; `WaveFormat.HeaderLayout` gives its three fields |
| `WaveFormat.FmtChunk` | AEC3Lib/wave_file.cpp:241-251 | the fmt chunk is 24 bytes; `WaveFormat.HeaderLayout` and `WaveFormat.FmtFieldsLayout` give its fields |
| `WaveFormat.DataHeader` | AEC3Lib/wave_file.cpp:253-254 | the data chunk header is 8 bytes; `WaveFormat.HeaderLayout` gives its tag and length |
| `WaveFormat.BytesAt` | AEC3Lib/wave_file.cpp:127-139 | fread gets the n bytes at the cursor while the file lasts, the tail that is left at its end, and nothing past it |
| `WaveFormat.ReadString` | AEC3Lib/wave_file.cpp:120-125 | a word is read exactly when four bytes remain; it is their big-endian value and the cursor moves 4 on; on a short read the cursor moves to the end of the file, or stays where it is if already past it |
| `WaveFormat.ReadInt32` | AEC3Lib/wave_file.cpp:127-132 | with four bytes left, the signed little-endian word and the cursor 4 on; on a short read the cursor moves to the end of the file, or stays where it is if already past it, and with nothing left the value is 0 |
| `WaveFormat.ReadInt16` | AEC3Lib/wave_file.cpp:134-139 | with two bytes left, the signed little-endian half-word and the cursor 2 on; on a short read the cursor moves to the end of the file, or stays where it is if already past it, and with nothing left the value is 0 |
| `WaveFormat.ReadFormat` | AEC3Lib/wave_file.cpp:55-61 | the fmt parse consumes 20 bytes when they are there; `WaveFormat.ReadWrittenFormat` gives the fields it reads from a written header |
| `WaveFormat.ReadWrittenFormat` | AEC3Lib/wave_file.cpp:55-61 | fmt fields as the writer wrote them read back as the written values at field width, with the cursor at 36 |
| `WaveFormat.SearchFoundIsData` | AEC3Lib/wave_file.cpp:64-78 | a search that reports `data` leaves the cursor just past four bytes spelling `data` |
| `WaveFormat.SearchSkips` | AEC3Lib/wave_file.cpp:64-77 | each failed try steps the cursor one byte forward (read four, seek back three) |
| `WaveFormat.SearchFindsFirst` | AEC3Lib/wave_file.cpp:64-78 | the search stops after the first `data` tag at or after its start |
| `WaveFormat.SearchGivesUp` | AEC3Lib/wave_file.cpp:64-78 | with no `data` tag at the offsets it tries, the search ends when the tries run out, with the cursor one byte on per try |
| `WaveFormat.ChunkSizesIgnored` | AEC3Lib/wave_file.cpp:37-62 | for two files of the same length, at least 23 bytes, the result of Open does not depend on the RIFF size word (bytes 4-8) or the fmt size word (bytes 16-20) |
| `WaveFormat.ParseHeader` | AEC3Lib/wave_file.cpp:28-78 | a parse that reaches the length word has seen RIFF at 0 and WAVE at 8; a parse that stops early has a tag mismatch or a failed seek back; `WaveFormat.ParseWrittenHeader` gives its result on a written header |
| `WaveFormat.DataChunk` | AEC3Lib/wave_file.cpp:63-80 | the data part of the parse ends early exactly when the search fails a seek back, with the fmt fields read; otherwise it reads the length word where the search left the cursor |
| `WaveFormat.Conclude` | AEC3Lib/wave_file.cpp:79-80 | an early end is the result; past the length word, Open succeeds exactly when the sample width is nonzero, with Length a non-negative data length divided by it and Start the cursor; a zero width is reported as such |
| `WaveFormat.ParseWrittenHeader` | AEC3Lib/wave_file.cpp:28-78 | on a written header, the tags match, the fmt fields are the written ones, and the data tag and length are found at 36 and 40 |
| `WaveFormat.HeaderRoundTrip` | AEC3Lib/wave_file.cpp:235-255 | opening a written header succeeds exactly when bits/8 is nonzero; then Length is data length / (bits/8) and Start is 44, otherwise no sample width |
| `WaveFormat.OpenAtLength` | AEC3Lib/wave_file.cpp:79-80 | after a non-negative data length word, Open succeeds exactly when the sample width is nonzero, with Length the quotient |
| `WaveFormat.HeaderRoundTripExact` | AEC3Lib/wave_file.cpp:28-82 | with at least 8 bits per sample, format tag, channels, sample rate and bits read back exactly |
| `WaveFormat.OpenAsWritten` | AEC3Lib/wave_file.cpp:79 | Open as written can only be evaluated where the sample width is nonzero, and then never reports a missing sample width |
| `WaveFormat.ImaAdpcmHeaderHasNoSampleWidth` | AEC3Lib/wave_file.cpp:79 | a 4-bit IMA ADPCM header as the writer writes it reaches the length division with divisor zero |
| `WaveFormat.OpenSpec` | AEC3Lib/wave_file.cpp:28-82 | corrected Open: a successful parse always has a nonzero sample width |
| `WaveFormat.OpenSpecAgrees` | AEC3Lib/wave_file.cpp:79 | wherever the source's division is defined, the corrected Open gives the source's result |
| `WaveFile.Int16BytesAfter` | AEC3Lib/wave_file.cpp:191-200 | sample i of a written block lies at bytes 2i..2i+2 after the header, little-endian |
| `WaveFile.WordBytesAfter` | AEC3Lib/wave_file.cpp:202-211 | float word i of a written block lies at bytes 4i..4i+4 after the header |
| `WaveFile.Int16Bytes` | AEC3Lib/wave_file.cpp:198 | `fwrite` of n samples writes 2n bytes; `WaveFile.Int16BytesAfter` says which |
| `WaveFile.WordBytes` | AEC3Lib/wave_file.cpp:209 | `fwrite` of n float words writes 4n bytes; `WaveFile.WordBytesAfter` says which |
| `WaveFile.WavWriter.constructor` | AEC3Lib/wave_file.cpp:141-149 | closed, no data, 16 bits, PCM, zero rate and channels |
| `WaveFile.WavWriter.Open` | AEC3Lib/wave_file.cpp:156-173 | on success the parameters are stored, the data length is zero and the file holds a header for zero data; a failed open leaves it closed with its parameters |
| `WaveFile.WavWriter.Close` | AEC3Lib/wave_file.cpp:175-185 | an open file gets its header rewritten with the final data length over the first 44 bytes and is closed; the samples stay |
| `WaveFile.WavWriter.WriteInt16Samples` | AEC3Lib/wave_file.cpp:191-200 | 16-bit PCM only: the samples' little-endian bytes are appended and the data length grows by 2 per sample; a closed writer ignores the call |
| `WaveFile.WavWriter.WriteFloatSamples` | AEC3Lib/wave_file.cpp:202-211 | 32-bit IEEE float only: the words' bytes are appended and the data length grows by 4 per sample |
| `WaveFile.PcmFileRoundTrip` | AEC3Lib/wave_file.cpp:156-200 | a closed 16-bit file opens with the written format, Length = number of samples, Start 44, and sample i reads back at 44 + 2i |
| `WaveFile.FloatFileRoundTrip` | AEC3Lib/wave_file.cpp:202-211 | a closed 32-bit float file opens with Length = number of words, and word i reads back at 44 + 4i |
| `WaveFile.WavReader.constructor` | AEC3Lib/wave_file.cpp:10-21 | closed, with every field zero |
| `WaveFile.WavReader.Close` | AEC3Lib/wave_file.cpp:84-91 | the file is closed and every other field is kept |
| `WaveFile.WavReader.ReadString` | AEC3Lib/wave_file.cpp:120-125 | returns the four-character code at the cursor and its new position, both as the parse specification says |
| `WaveFile.WavReader.ReadInt32` | AEC3Lib/wave_file.cpp:127-132 | returns the 32-bit word at the cursor and moves the cursor, both as the parse specification says |
| `WaveFile.WavReader.ReadInt16` | AEC3Lib/wave_file.cpp:134-139 | returns the 16-bit word at the cursor and moves the cursor, both as the parse specification says |
| `WaveFile.WavReader.ReadFormatFields` | AEC3Lib/wave_file.cpp:55-61 | the stored fmt fields and the cursor are those of the fmt parse from offset 16 |
| `WaveFile.WavReader.FindData` | AEC3Lib/wave_file.cpp:63-78 | the loop ends as the search function says, with the cursor where the search left it |
| `WaveFile.WavReader.OpenAtLength` | AEC3Lib/wave_file.cpp:79-81 | a zero sample width closes the file and fails; otherwise Length and Start are set as the corrected Open says |
| `WaveFile.WavReader.OpenAtFormat` | AEC3Lib/wave_file.cpp:63-81 | from the fmt fields onward, the outcome and the new fields are those of the corrected Open |
| `WaveFile.WavReader.OpenFromFormat` | AEC3Lib/wave_file.cpp:48-81 | from offset 16 onward, the outcome and the new fields are those of the corrected Open |
| `WaveFile.WavReader.Open` | AEC3Lib/wave_file.cpp:28-82 | a failed fopen leaves the reader closed and unchanged; otherwise the outcome matches the corrected Open of the file's bytes: stays open after a tag mismatch, closes on a failed seek back in the search or a zero sample width (a search that uses up its tries still reads a length word and opens), and on success sets Length, Start and the fmt fields |

## Left out

- `WavReader::IsOpen`, `Reset`, `Read(short*)`, `Read(float*)`, `WavWriter::IsOpen` and the getters in `AEC3Lib/wave_file.h` are not modelled: they are one-line field reads or freads. `WaveFile.PcmFileRoundTrip` states instead that the samples after `Start` read back with `readInt16`, and `WaveFile.FloatFileRoundTrip` that the float words read back.
- Destructors are not modelled. They only call `Close`.
- File I/O (`fopen`, `fseek`, `ftell`, `fread`, `fwrite`, `fclose`) is replaced by a byte sequence, a cursor and a success flag.
  - `fseek(16)` at wave_file.cpp:48 is taken to succeed, since seeking forward on an open file always does.
  - `nTotal` is the file size that `ftell` reports.
  - A short `fread` into `readInt32`/`readInt16` keeps the bytes it got and zero-fills the rest, as on a little-endian host.
  - A short `readString` returns an indeterminate word in the source. It is modelled as "no word", which never matches a tag.
- Re-opening an open writer or reader leaks the old `FILE*`. The handle is not modelled: the new file simply replaces the old one.
- `WaveFile.WavReader.Open`: the source asserts a non-empty file at wave_file.cpp:34 and does not handle an empty one. The model requires a non-empty file.
- `WaveFile.WavWriter.WriteInt16Samples`: the precondition is the asserts on 16 bits and PCM (wave_file.cpp:194-195). The assert on an open file (wave_file.cpp:193) is not a precondition: the model takes the path of a build without asserts, where a closed writer ignores the call (wave_file.cpp:197). A negative `inLen` cannot be expressed, since the samples are a sequence. The same holds for `WaveFile.WavWriter.WriteFloatSamples` with 32 bits and IEEE float (wave_file.cpp:204-208).
- `WaveFile.WavWriter.Open`: bits per sample and the format tag are explicit parameters. The default arguments of the C++ declaration in `AEC3Lib/wave_file.h` (16 bits, PCM) are not modelled; a caller passes them.
- `WaveFile.WavWriter.Close`: `m_nDataLen` is a C `int`. Its overflow past 2^31 - 1 bytes of samples is not modelled. The header stores the data length modulo 2^32, as `writeInt32` does.
- Floating point is not modelled. `Write(float*)` takes the IEEE bit patterns of the floats as 32-bit words. The float/int16 conversions around the filter (`FloatS16ToS16`, `S16ToFloatS16`) are not modelled: the channel buffers hold int16 samples.
- `ThreeBandFilterBank` is not part of this model. `Splitting.SplittingFilter.ThreeBandsAnalysis` and `Splitting.SplittingFilter.ThreeBandsSynthesis` state only the shape checks and that the output keeps its shape, not the samples the bank computes.
- `FixedPoint.ScaleDiff32`: the `WEBRTC_SPL_SCALEDIFF32` macro is not among the modelled files. It is given the meaning prev + floor(a * diff / 2^16), wrapped to 32 bits, which `FixedPoint.ScaleDiff32Value` states. No structural lemma depends on that formula.
- `WaveFormat.ChunkSizesIgnored`: stated for two files of the same length of at least 23 bytes. Shorter files, or files of different lengths, are not covered: there the short reads and the search depend on the file size.
- `AllPass.AllPassQMF`: the source does not guard `data_length == 0`, where it would read `in_data[-1]`. The model requires at least one sample, and the two QMF functions require a band length of 1 to 320.
- `Qmf.AnalysisQMF` and `Qmf.SynthesisQMF`: signed overflow of the `int32_t` sums at splitting_filter.cc:146, 149, 188 and 191 is undefined in C. The model gives it two's-complement wrap-around, as the hardware does (`Qmf.LowBandWrapsAround` shows one such input). Whether states reached from zeroed states can produce such sums is not proved.
- The per-channel filter states in `SplittingFilter` are values. Each QMF call receives fresh array copies of its channel's states, so aliasing between the C++ state arrays is not modelled.
- `AEC3Lib/main.cpp` (the demo's driver and the echo canceller it calls) is not part of this model. Nor is concurrency: the classes are single-threaded.

## Findings

| source | as written | input that shows it | evidently intended | confidence | as-written member | corrected member |
|---|---|---|---|---|---|---|
| AEC3Lib/wave_file.cpp:79 | `m_nLength = readInt32() / (m_nBitsPerSample / 8)` divides by zero whenever bits per sample is below 8 | a header written by `WavWriter::Open` with 4 bits per sample and format tag 0x11 (IMA ADPCM), the case `WaveFormat.ImaAdpcmHeaderHasNoSampleWidth` builds | reject a file without a whole-byte sample width: close it and return false, as the other failure paths after the fmt chunk do | not executed | `WaveFormat.OpenAsWritten` | `WaveFormat.OpenSpec` |
