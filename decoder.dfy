// The session object of the recognizer: the sample width it reads byte
// buffers with, the samples it has handed to the feature pipeline, the
// number of frames the search has decoded, and the configuration values
// that steer lattice extraction.

module Decoding {
  import opened Wrappers
  import opened Pcm
  import opened Lattices

  /**
   * How far one call of the search's advance gets: up to every frame the
   * feature pipeline has ready, but no more than `maxFrames` new frames when
   * `maxFrames` is not negative. A negative `maxFrames` means no cap.
   */
  function AdvanceTarget(decoded: nat, maxFrames: int, ready: nat): (target: nat)
    requires decoded <= ready
    ensures decoded <= target <= ready
    ensures maxFrames < 0 ==> target == ready
    ensures maxFrames >= 0 ==> target <= decoded + maxFrames
    ensures maxFrames >= 0 ==> target == ready || target == decoded + maxFrames
  {
    if maxFrames >= 0 && decoded + maxFrames < ready then decoded + maxFrames else ready
  }

  class Decoder {
    /** The acoustic model family, fixed when the model is loaded. */
    const modelType: ModelType
    /** `post_decode_acwt`: the acoustic weight applied after decoding for NNET3 models. */
    const postDecodeAcwt: real
    /** `lattice_beam` of the decoder options. */
    const latticeBeam: real
    /** `determinize_lattice` of the decoder options. */
    const determinizeLattice: bool
    /** Whether lattices are rescored with the big LM. */
    const rescore: bool

    /** `bits_per_sample` of the configuration: the width `FrameIn` reads samples with. */
    var bitsPerSample: int
    /** `NumFramesDecoded()` of the underlying search. */
    var framesDecoded: nat
    /** Every sample handed to the feature pipeline since the session started. */
    var waveform: seq<int>

    /** The configuration values lattice extraction reads. */
    function Config(): LatticeConfig
    {
      LatticeConfig(modelType, postDecodeAcwt, latticeBeam, determinizeLattice, rescore)
    }

    /** A session right after loading and `Reset`: nothing decoded, no samples received. */
    constructor (cfg: LatticeConfig, bits: int)
      ensures Config() == cfg
      ensures bitsPerSample == bits && framesDecoded == 0 && waveform == []
    {
      modelType := cfg.modelType;
      postDecodeAcwt := cfg.postDecodeAcwt;
      latticeBeam := cfg.latticeBeam;
      determinizeLattice := cfg.determinizeLattice;
      rescore := cfg.rescore;
      bitsPerSample := bits;
      framesDecoded := 0;
      waveform := [];
    }

    /** `SetBitsPerSample`: only whole bytes are accepted; nothing else changes. */
    method SetBitsPerSample(n: int)
      requires n % 8 == 0
      modifies this
      ensures bitsPerSample == n
      ensures framesDecoded == old(framesDecoded) && waveform == old(waveform)
    {
      bitsPerSample := n;
    }

    /** `GetBitsPerSample`: the width last set. */
    method GetBitsPerSample() returns (n: int)
      ensures n == bitsPerSample
    {
      n := bitsPerSample;
    }

    /** `FrameIn` for decoded samples: pass them on to the feature pipeline. */
    method FrameInWaveform(samples: seq<int>)
      modifies this
      ensures waveform == old(waveform) + samples
      ensures bitsPerSample == old(bitsPerSample) && framesDecoded == old(framesDecoded)
    {
      waveform := waveform + samples;
    }

    /**
     * `FrameIn` for a byte buffer: convert the first `bufferLength` bytes at
     * the current sample width and pass the samples on. A width without a
     * conversion raises an error before anything is passed on, provided at
     * least one whole sample fits in the buffer.
     */
    method FrameIn(buffer: array<byte>, bufferLength: int) returns (r: Result<seq<int>, PcmError>)
      requires bitsPerSample >= 8
      requires 0 <= bufferLength <= buffer.Length
      modifies this
      ensures r == Pcm.Decode(old(buffer[..bufferLength]), old(bitsPerSample))
      ensures r.Ok? ==> waveform == old(waveform) + r.value
      ensures r.Err? ==> waveform == old(waveform)
      ensures bitsPerSample == old(bitsPerSample) && framesDecoded == old(framesDecoded)
    {
      r := ReadSamples(buffer, bufferLength, bitsPerSample);
      if r.Ok? {
        FrameInWaveform(r.value);
      }
    }

    /**
     * The search's advance over the frames the feature pipeline has ready
     * (`framesReady`), at most `maxFrames` of them when that is not negative.
     */
    method AdvanceDecoding(maxFrames: int, framesReady: nat)
      requires framesDecoded <= framesReady
      modifies this
      ensures framesDecoded == AdvanceTarget(old(framesDecoded), maxFrames, framesReady)
      ensures bitsPerSample == old(bitsPerSample) && waveform == old(waveform)
    {
      framesDecoded := AdvanceTarget(framesDecoded, maxFrames, framesReady);
    }

    /**
     * `Decode`: advance the search and report how many frames this call
     * decoded, as the counter after the advance minus the counter before it.
     */
    method Decode(maxFrames: int, framesReady: nat) returns (decoded: int)
      requires framesDecoded <= framesReady
      modifies this
      ensures decoded == framesDecoded - old(framesDecoded)
      ensures framesDecoded == AdvanceTarget(old(framesDecoded), maxFrames, framesReady)
      ensures 0 <= decoded && (maxFrames >= 0 ==> decoded <= maxFrames)
      ensures bitsPerSample == old(bitsPerSample) && waveform == old(waveform)
    {
      var before := framesDecoded;
      AdvanceDecoding(maxFrames, framesReady);
      decoded := framesDecoded - before;
    }

    /**
     * `GetPrunedLattice`, guard by guard. `rawOk` is the success flag of
     * fetching the raw lattice, `rawPath` the costs of the path followed
     * through it, and `hasStart` whether a rescored lattice has a start state.
     */
    method GetPrunedLattice(rawOk: bool, rawPath: PathCosts, hasStart: Lattice -> bool)
      returns (r: Result<LatticeOutcome, LatticeError>)
      ensures r == PrunedLattice(Config(), framesDecoded, rawPath, rawOk, hasStart)
    {
      if framesDecoded == 0 {
        return Err(NoFramesDecoded);
      }
      if !determinizeLattice {
        return Err(DeterminizeLatticeDisabled);
      }
      var ok := rawOk;
      var rawLat := RawLattice(framesDecoded, rawPath);
      if modelType == Nnet3 {
        if postDecodeAcwt != 1.0 {
          rawLat := PostDecodeAmRescore(rawLat, postDecodeAcwt);
        }
      }
      var latBeam := latticeBeam;
      if !rescore {
        var lat := DeterminizePhonePruned(latBeam, rawLat);
        r := Ok(LatticeOutcome(ok, Some(lat)));
      } else {
        var prunedLat := DeterminizePhonePruned(latBeam, rawLat);
        if ok {
          var rescored := RescoreLattice(prunedLat, hasStart);
          r := Ok(rescored);
        } else {
          r := Ok(LatticeOutcome(false, None));
        }
      }
    }
  }

  /** Setting a width and reading it back gives that width. */
  method SetThenGetBitsPerSample(d: Decoder, n: int) returns (got: int)
    requires n % 8 == 0
    modifies d
    ensures got == n
  {
    d.SetBitsPerSample(n);
    got := d.GetBitsPerSample();
  }
}
