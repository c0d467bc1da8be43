# alex-asr decoder session core, in Dafny

alex-asr wraps a Kaldi online speech decoder in a `Decoder` object. The model
covers the parts of `src/decoder.cc` that the file itself decides. The rest is
library calls into Kaldi and OpenFst.

- **PCM input** (`pcm.dfy`, module `Pcm`). `FrameIn(unsigned char*, int32)`
  turns a raw byte buffer into samples.
  - The sample count is `buffer_length / (bits_per_sample / 8)`.
  - 8-bit samples are unsigned bytes.
  - 16-bit samples are little-endian two's complement. No byte swap happens, because the guard macro is spelled `__BIG_ENDDIAN__`.
  - Any other width is an error, but only once the loop body runs.

  `Decode` is the specification function and `ReadSamples` is the loop with its cursor, proved equal to it. Round-trip lemmas against 8- and 16-bit encoders pin down the conversion exactly.
- **Lattice retrieval** (`lattice.dfy`, module `Lattices`). This part covers:
  - the guards of `GetPrunedLattice`;
  - the matrix of `PostDecodeAMRescore`;
  - one LM rescoring pass, `RescoreLatticeWithLM`;
  - the two-pass, short-circuiting `RescoreLattice`.

  A lattice is abstracted to one path followed through every step. The model tracks:
  - the path's cost in the decoding graph (which includes the small LM's cost), and its costs under the small LM alone, the big LM and the acoustic model;
  - its Kaldi weight, a pair of graph cost and acoustic cost;
  - the frames the lattice spans;
  - the steps applied to it.

  The success flags the library returns are inputs: `rawOk` for the raw lattice fetch, and `hasStart` for whether a rescored lattice has a start state.
- **Session state** (`decoder.dfy`, module `Decoding`, class `Decoder`). The class holds:
  - the sample width;
  - the frame counter of the search;
  - the samples handed to the feature pipeline;
  - the configuration values lattice retrieval reads.

  Its methods are `SetBitsPerSample`, `GetBitsPerSample`, both `FrameIn`s, `Decode` (which returns the frame-count delta) and `GetPrunedLattice`. `GetPrunedLattice` is written guard by guard and proved equal to `Lattices.PrunedLattice`.

`wrappers.dfy` holds the `Option` and `Result` datatypes.

## Model

| member | source | states |
|---|---|---|
| Pcm.SampleWidth | src/decoder.cc:197 | bytes per sample is `bits/8`, at least 1 for widths of 8 or more, truncating any non-multiple of 8 |
| Pcm.SampleCount | src/decoder.cc:197 | the sample count is the largest `n` with `n * width <= buffer_length`, so a trailing partial sample is dropped |
| Pcm.Int16At | src/decoder.cc:209-215 | a 16-bit sample is in -32768..32767 and congruent mod 65536 to `lo + 256*hi` |
| Pcm.Int16BytesRoundTrip | src/decoder.cc:209-215 | every int16 value is read back from its two little-endian bytes |
| Pcm.Int16AtRoundTrip | src/decoder.cc:209-215 | every pair of bytes is the encoding of the value read from it |
| Pcm.Decode | src/decoder.cc:196-225 | the result is an error exactly when the width is neither 8 nor 16 and at least one whole sample fits; the error names the width; otherwise there are exactly `buffer_length/(bits/8)` samples |
| Pcm.SamplesLength | src/decoder.cc:197-201 | walking the buffer one sample width at a time yields `buffer_length/(bits/8)` samples |
| Pcm.SamplesAt | src/decoder.cc:201-217 | sample `k` comes from the bytes at offset `k * width`, matching the cursor that advances one width per sample |
| Pcm.Decode8At | src/decoder.cc:203-207 | with 8 bits, sample `k` is byte `k` as an unsigned value in 0..255, not re-centred around 128 |
| Pcm.Decode16At | src/decoder.cc:209-217 | with 16 bits, sample `k` is the two's-complement value of bytes `2k` (low) and `2k+1` (high), in -32768..32767 |
| Pcm.SamplesIgnoreTrailing | src/decoder.cc:197-217 | bytes after the last whole sample do not change the samples |
| Pcm.DecodeIgnoresTrailingBytes | src/decoder.cc:197-217 | the result depends only on the first `n_frames * width` bytes, so no byte past them is read |
| Pcm.WholeSamplesCount | src/decoder.cc:197 | a buffer of exactly `n` whole samples counts `n` samples |
| Pcm.CountPositive | src/decoder.cc:197-201 | the loop body runs at least once exactly when the buffer holds one whole sample, which is when an unsupported width raises its error |
| Pcm.EncodeInt16 | src/decoder.cc:209-217 | the 16-bit little-endian encoding has two bytes per sample |
| Pcm.EncodeUint8 | src/decoder.cc:203-207 | the unsigned 8-bit encoding has one byte per sample |
| Pcm.DecodeEncodeInt16 | src/decoder.cc:209-217 | decoding a 16-bit encoding succeeds and returns every sample |
| Pcm.SamplesEncodeInt16 | src/decoder.cc:209-217 | the sample walk over a 16-bit encoding returns the encoded samples |
| Pcm.EncodeDecodeInt16 | src/decoder.cc:209-217 | a buffer of whole 16-bit samples decodes successfully into int16 values whose encoding is the buffer again |
| Pcm.DecodeEncodeUint8 | src/decoder.cc:203-207 | decoding an 8-bit encoding succeeds and returns every sample |
| Pcm.SamplesEncodeUint8 | src/decoder.cc:203-207 | the sample walk over an 8-bit encoding returns the encoded samples |
| Pcm.ReadSamples | src/decoder.cc:196-225 | the loop with its advancing cursor yields exactly `Decode` of the first `buffer_length` bytes, error cases included |
| Lattices.AmScaleMatrixScales | src/decoder.cc:329-339 | the matrix [[1,0],[0,acwt]] keeps graph costs, multiplies acoustic costs by `acwt` and is the identity at `acwt` 1 |
| Lattices.GraphLatticeScaleScales | src/decoder.cc:314 | `GraphLatticeScale(s)` multiplies graph costs by `s` and keeps acoustic costs |
| Lattices.PostDecodeAmRescore | src/decoder.cc:329-339 | the matrix built cell by cell is [[1,0],[0,acwt]], and the lattice scaled by it keeps its graph cost while its acoustic cost is multiplied by `acwt` |
| Lattices.RescoreLatticeWithLm | src/decoder.cc:303-327 | a pass succeeds exactly when its result has a start state, and keeps the frames and path |
| Lattices.RescorePassWeight | src/decoder.cc:314-324 | dividing graph costs by `lm_scale`, composing with the LM and multiplying back adds `lm_scale` times the LM cost to the graph cost and leaves the acoustic cost |
| Lattices.RescorePassLms | src/decoder.cc:314-324 | a pass composes exactly its own LM, after those already composed |
| Lattices.RescoreLattice | src/decoder.cc:293-301 | `ok` implies an output lattice; with an output, `ok` is whether it has a start state; frames and path are kept |
| Lattices.RescoreLatticeWeight | src/decoder.cc:293-301 | after both passes, the small LM's cost is replaced by the big LM's in the graph cost |
| Lattices.RescoreLatticeLms | src/decoder.cc:297-298 | the small LM is composed first, then the big LM |
| Lattices.RescoreSkipsSecondPass | src/decoder.cc:297-298 | the second pass is skipped and no lattice is written exactly when the small-LM pass fails, and then `ok` is false |
| Lattices.RescoreRoundTrip | src/decoder.cc:297-298 | a pass at scale -1 followed by a pass at +1 with the same LM restores the weight |
| Lattices.DeterminizedLattice | src/decoder.cc:273-286 | the lattice before rescoring spans the decoded frames and follows the same path |
| Lattices.DeterminizedLatticeSteps | src/decoder.cc:273-286 | the post-decode rescaling is applied exactly when the model is NNET3 and `post_decode_acwt != 1.0`; phone-pruned determinization with the lattice beam comes last; no LM is composed |
| Lattices.DeterminizedLatticeWeight | src/decoder.cc:273-278 | before rescoring, the graph cost is the path's decoding-graph cost as the search left it, and the acoustic cost is scaled by `post_decode_acwt` for NNET3 and by 1 otherwise |
| Lattices.PrunedLattice | src/decoder.cc:263-291 | zero decoded frames is an error; disabled determinization is the other error; otherwise the result is Ok; `ok` needs the raw lattice's flag; rescoring is skipped when that flag is false; a written lattice spans the decoded frames |
| Lattices.PrunedLatticeWeight | src/decoder.cc:263-291 | the written lattice's graph cost is the decoding-graph cost minus the small-LM cost plus the big-LM cost with rescoring, and the decoding-graph cost without; its acoustic cost is scaled by the effective acoustic weight |
| Lattices.PrunedLatticeOrder | src/decoder.cc:280-288 | with rescoring the LMs composed are exactly small then big; without it, none |
| Lattices.PrunedLatticeOk | src/decoder.cc:273-290 | without rescoring `ok` is the raw flag; with it, `ok` holds iff the raw flag holds and both passes leave a start state |
| Decoding.AdvanceTarget | src/decoder.cc:233 | the search advances to at most the frames ready, never backwards, by at most `max_frames` when that is not negative, and to all ready frames when it is negative |
| Decoding.Decoder.constructor | src/decoder.cc:15-39 | a new session has the given configuration, nothing decoded and no samples received |
| Decoding.Decoder.SetBitsPerSample | src/decoder.cc:435-439 | requires a multiple of 8; sets the width and changes nothing else |
| Decoding.Decoder.GetBitsPerSample | src/decoder.cc:441-443 | returns the current width |
| Decoding.SetThenGetBitsPerSample | src/decoder.cc:435-443 | after `SetBitsPerSample(n)`, `GetBitsPerSample()` returns `n` |
| Decoding.Decoder.FrameInWaveform | src/decoder.cc:192-194 | the samples are appended to what the feature pipeline has received; nothing else changes |
| Decoding.Decoder.FrameIn | src/decoder.cc:196-225 | the result is `Pcm.Decode` of the first `buffer_length` bytes at the current width; on success the samples are appended to the pipeline's input; on error nothing is passed on; width and frame counter stay |
| Decoding.Decoder.AdvanceDecoding | src/decoder.cc:233 | the frame counter moves to `AdvanceTarget`; nothing else changes |
| Decoding.Decoder.Decode | src/decoder.cc:231-236 | the returned count is the frame counter after the advance minus before it; it is non-negative and at most `max_frames` when that is not negative |
| Decoding.Decoder.GetPrunedLattice | src/decoder.cc:263-291 | the guard-by-guard code returns exactly `Lattices.PrunedLattice` of the session's configuration and frame counter |

## Left out

- Kaldi and OpenFst internals are not modelled: the search, `GetRawLattice`, `DeterminizeLatticePhonePrunedWrapper`, `TableCompose`, `Invert`, `DeterminizeLattice`, `ArcSort` and `ScaleLattice` on whole automata. A lattice is one path followed through these steps. Which paths survive determinization and pruning is not modelled, nor is the arc order after sorting. The library's success answers are parameters (`rawOk`, `hasStart`), as is the number of frames the feature pipeline has ready (`framesReady`).
- Decoding.Decoder.AdvanceDecoding: stands in for Kaldi's `AdvanceDecoding`, whose code is not part of this model. It is stated by its frame-count effect only, and it requires the ready count not to be behind the decoded count, which is Kaldi's own assertion.
- Floating point: lattice costs, `lm_scale` and `post_decode_acwt` are reals. Single-precision rounding of `1.0 / lm_scale` and of scaled costs is not modelled.
- Pcm.Decode: samples are integers rather than `BaseFloat`; every 8- and 16-bit value is exactly representable in a float.
- Host endianness: a little-endian host is assumed, so the `reinterpret_cast` read of a `uint16` is modelled as low byte first.
- Decoding.Decoder.FrameIn: requires a width of at least 8, as do `Pcm.Decode` and `Pcm.ReadSamples`. Widths 0 to 7 divide by zero at src/decoder.cc:197. Negative multiples of 8 do not divide by zero: `bits/8` is negative there. If the buffer is shorter than `|bits/8|` bytes, the sample count is 0 and the source passes an empty waveform on without error; the model refuses those inputs. A longer buffer gives a negative `Vector` size, whose behaviour is the library's. The method also requires `0 <= buffer_length <= ` the buffer's size, since the C++ reads raw memory the caller vouches for.
- Decoding.Decoder.SetBitsPerSample: the assertion admits 0 and negative multiples of 8. The model admits them too. Afterwards, a width of 0 makes `FrameIn` divide by zero. A negative width gives an empty waveform for a buffer shorter than `|bits/8|` bytes and a negative `Vector` size otherwise. `FrameIn`'s precondition refuses all of these.
- `int32` overflow of `buffer_length` and of the frame counter is not modelled; counts are unbounded naturals.
- Exceptions: `KALDI_ERR` is modelled as an error result (`PcmError`, `LatticeError`) rather than a thrown exception. An unsupported width raises before any sample is passed on.
- Model and configuration loading (`ParseConfig`, `LoadDecoder`, `LoadLM`, `FileExists`) is file I/O and is not modelled. The constructor takes the configuration values as parameters.
- Allocation and dispatch in `Reset` and the destructor are not modelled.
- Operations outside this core are not modelled: `EndpointDetected`, `TrailingSilenceLength`, `InputFinished`, `FinalizeDecoding`, `GetBestPath`, `GetLattice`, `GetTimeAlignment*`, `GetIvector`, `GetWord`, `FinalRelativeCost`, `GetFrameShift` and `GetSamplingFrequency`.
