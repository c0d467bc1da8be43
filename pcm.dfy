/**
 * Conversion of a raw PCM byte buffer into sample values, as done by
 * `Decoder::FrameIn(unsigned char *buffer, int32 buffer_length)`.
 *
 * Samples are integers: the C++ code stores them in a float vector, and
 * every 8- and 16-bit value is exactly representable there. The host is
 * taken to be little-endian, so a 16-bit sample is its low byte followed by
 * its high byte, read as two's complement.
 */
module Pcm {
  import opened Wrappers

  /** One `unsigned char` of the caller's buffer. */
  type byte = b: int | 0 <= b < 256

  datatype PcmError = UnsupportedBitsPerSample(bits: int)

  /** The sample widths the conversion loop has a case for. */
  predicate SupportedBits(bits: int) {
    bits == 8 || bits == 16
  }

  /** Bytes per sample, `bits_per_sample / 8`. */
  function SampleWidth(bits: int): (w: nat)
    requires bits >= 8
    ensures 1 <= w && 8 * w <= bits < 8 * w + 8
  {
    bits / 8
  }

  /**
   * Number of samples in a buffer, `buffer_length / (bits_per_sample / 8)`:
   * only whole samples count, a trailing partial sample is dropped.
   */
  function SampleCount(byteCount: nat, bits: int): (n: nat)
    requires bits >= 8
    ensures n * SampleWidth(bits) <= byteCount < n * SampleWidth(bits) + SampleWidth(bits)
  {
    byteCount / SampleWidth(bits)
  }

  /** The signed 16-bit value whose little-endian bytes are `lo`, `hi`. */
  function Int16At(lo: byte, hi: byte): (v: int)
    ensures -32768 <= v < 32768
    ensures (v - (lo + 256 * hi)) % 65536 == 0
  {
    var u := lo + 256 * hi;
    if u < 32768 then u else u - 65536
  }

  /** The two little-endian two's-complement bytes of a 16-bit value. */
  function Int16Bytes(v: int): (bytes: seq<byte>)
    requires -32768 <= v < 32768
    ensures |bytes| == 2
  {
    var u := v % 65536;
    [u % 256, u / 256]
  }

  lemma Int16BytesRoundTrip(v: int)
    requires -32768 <= v < 32768
    ensures Int16At(Int16Bytes(v)[0], Int16Bytes(v)[1]) == v
  {
  }

  lemma Int16AtRoundTrip(lo: byte, hi: byte)
    ensures Int16Bytes(Int16At(lo, hi)) == [lo, hi]
  {
  }

  /** The value of the sample that starts at the front of `bytes`. */
  function SampleValue(bytes: seq<byte>, bits: int): int
    requires SupportedBits(bits) && |bytes| >= SampleWidth(bits)
  {
    if bits == 8 then bytes[0] else Int16At(bytes[0], bytes[1])
  }

  /** The samples of `buf`, consumed front to back one sample width at a time. */
  function Samples(buf: seq<byte>, bits: int): seq<int>
    requires SupportedBits(bits)
    decreases |buf|
  {
    var w := SampleWidth(bits);
    if |buf| < w then [] else [SampleValue(buf[..w], bits)] + Samples(buf[w..], bits)
  }

  /**
   * What `FrameIn` produces from the first `buffer_length` bytes: no samples
   * when the buffer holds less than one sample (whatever the width), an error
   * for a width without a case once at least one sample is to be converted,
   * and the samples otherwise.
   */
  function Decode(buf: seq<byte>, bits: int): (r: Result<seq<int>, PcmError>)
    requires bits >= 8
    ensures r.Err? <==> !SupportedBits(bits) && |buf| >= SampleWidth(bits)
    ensures r.Err? ==> r.error == UnsupportedBitsPerSample(bits)
    ensures r.Ok? ==> |r.value| == SampleCount(|buf|, bits)
  {
    if SampleCount(|buf|, bits) == 0 then Ok([])
    else if !SupportedBits(bits) then Err(UnsupportedBitsPerSample(bits))
    else SamplesLength(buf, bits); Ok(Samples(buf, bits))
  }

  /** Sample `k` read straight from its byte offset `k * width`. */
  function SampleAt(buf: seq<byte>, bits: int, k: nat): int
    requires SupportedBits(bits) && k < SampleCount(|buf|, bits)
  {
    if bits == 8 then buf[k] else Int16At(buf[2 * k], buf[2 * k + 1])
  }

  lemma {:induction false} SamplesLength(buf: seq<byte>, bits: int)
    requires SupportedBits(bits)
    ensures |Samples(buf, bits)| == SampleCount(|buf|, bits)
    decreases |buf|
  {
    var w := SampleWidth(bits);
    if |buf| >= w {
      SamplesLength(buf[w..], bits);
      assert SampleCount(|buf|, bits) == SampleCount(|buf| - w, bits) + 1 by {
        if bits == 8 { } else { }
      }
    }
  }

  /** Consuming the buffer sample by sample yields sample `k` from offset `k * width`. */
  lemma {:induction false} SamplesAt(buf: seq<byte>, bits: int, k: nat)
    requires SupportedBits(bits) && k < SampleCount(|buf|, bits)
    ensures |Samples(buf, bits)| == SampleCount(|buf|, bits)
    ensures Samples(buf, bits)[k] == SampleAt(buf, bits, k)
    decreases k
  {
    SamplesLength(buf, bits);
    var w := SampleWidth(bits);
    if k > 0 {
      assert SampleCount(|buf[w..]|, bits) == SampleCount(|buf|, bits) - 1 by {
        if bits == 8 { } else { }
      }
      SamplesAt(buf[w..], bits, k - 1);
    }
  }

  /** With 8 bits per sample, sample `k` is byte `k` taken as unsigned, not re-centred. */
  lemma Decode8At(buf: seq<byte>, k: nat)
    requires k < |buf|
    ensures Decode(buf, 8).Ok? && |Decode(buf, 8).value| == |buf|
    ensures Decode(buf, 8).value[k] == buf[k]
    ensures 0 <= Decode(buf, 8).value[k] < 256
  {
    SamplesAt(buf, 8, k);
  }

  /** With 16 bits per sample, sample `k` is bytes `2k` (low) and `2k+1` (high) in two's complement. */
  lemma Decode16At(buf: seq<byte>, k: nat)
    requires 2 * k + 1 < |buf|
    ensures Decode(buf, 16).Ok? && |Decode(buf, 16).value| == |buf| / 2
    ensures Decode(buf, 16).value[k] == Int16At(buf[2 * k], buf[2 * k + 1])
    ensures -32768 <= Decode(buf, 16).value[k] < 32768
  {
    SamplesAt(buf, 16, k);
  }

  lemma {:induction false} SamplesIgnoreTrailing(buf: seq<byte>, tail: seq<byte>, bits: int)
    requires SupportedBits(bits)
    requires |buf| % SampleWidth(bits) == 0 && |tail| < SampleWidth(bits)
    ensures Samples(buf + tail, bits) == Samples(buf, bits)
    decreases |buf|
  {
    var w := SampleWidth(bits);
    if |buf| == 0 {
      assert buf + tail == tail;
    } else {
      assert |buf| >= w by {
        if bits == 8 { } else { }
      }
      assert (buf + tail)[..w] == buf[..w];
      assert (buf + tail)[w..] == buf[w..] + tail;
      assert |buf[w..]| % w == 0 by {
        if bits == 8 { } else { }
      }
      SamplesIgnoreTrailing(buf[w..], tail, bits);
    }
  }

  /**
   * Only the first `SampleCount * width` bytes are read: bytes that do not
   * fill a whole sample at the end of the buffer make no difference.
   */
  lemma DecodeIgnoresTrailingBytes(buf: seq<byte>, bits: int)
    requires bits >= 8
    ensures Decode(buf, bits) == Decode(buf[..SampleCount(|buf|, bits) * SampleWidth(bits)], bits)
  {
    var n, w := SampleCount(|buf|, bits), SampleWidth(bits);
    var head := buf[..n * w];
    WholeSamplesCount(n, bits);
    if SupportedBits(bits) && n > 0 {
      assert |head| % w == 0 by {
        if bits == 8 { } else { }
      }
      assert buf == head + buf[n * w..];
      SamplesIgnoreTrailing(head, buf[n * w..], bits);
    }
  }

  lemma {:induction false} WholeSamplesCount(n: nat, bits: int)
    requires bits >= 8
    ensures SampleCount(n * SampleWidth(bits), bits) == n
  {
    var w := SampleWidth(bits);
    var q := (n * w) / w;
    assert q * w <= n * w < q * w + w;
    if q < n {
      assert (q + 1) * w <= n * w;
    } else if q > n {
      assert (n + 1) * w <= q * w;
    }
  }

  lemma CountPositive(byteCount: nat, bits: int)
    requires bits >= 8
    ensures SampleCount(byteCount, bits) > 0 <==> byteCount >= SampleWidth(bits)
  {
  }

  /** The little-endian 16-bit PCM encoding of a sequence of samples. */
  function EncodeInt16(samples: seq<int>): (buf: seq<byte>)
    requires forall k :: 0 <= k < |samples| ==> -32768 <= samples[k] < 32768
    ensures |buf| == 2 * |samples|
  {
    if samples == [] then [] else Int16Bytes(samples[0]) + EncodeInt16(samples[1..])
  }

  /** The unsigned 8-bit PCM encoding of a sequence of samples. */
  function EncodeUint8(samples: seq<int>): (buf: seq<byte>)
    requires forall k :: 0 <= k < |samples| ==> 0 <= samples[k] < 256
    ensures |buf| == |samples|
  {
    if samples == [] then [] else [samples[0] as byte] + EncodeUint8(samples[1..])
  }

  /** Decoding a 16-bit PCM encoding gives back every sample. */
  lemma {:induction false} DecodeEncodeInt16(samples: seq<int>)
    requires forall k :: 0 <= k < |samples| ==> -32768 <= samples[k] < 32768
    ensures Decode(EncodeInt16(samples), 16) == Ok(samples)
  {
    SamplesEncodeInt16(samples);
  }

  lemma {:induction false} SamplesEncodeInt16(samples: seq<int>)
    requires forall k :: 0 <= k < |samples| ==> -32768 <= samples[k] < 32768
    ensures Samples(EncodeInt16(samples), 16) == samples
    decreases |samples|
  {
    if samples != [] {
      var buf := EncodeInt16(samples);
      assert buf[..2] == Int16Bytes(samples[0]);
      assert buf[2..] == EncodeInt16(samples[1..]);
      Int16BytesRoundTrip(samples[0]);
      SamplesEncodeInt16(samples[1..]);
    }
  }

  /** Re-encoding the samples of a buffer of whole 16-bit samples gives back the buffer. */
  lemma {:induction false} EncodeDecodeInt16(buf: seq<byte>)
    requires |buf| % 2 == 0
    ensures Decode(buf, 16).Ok?
    ensures forall k :: 0 <= k < |Decode(buf, 16).value| ==> -32768 <= Decode(buf, 16).value[k] < 32768
    ensures EncodeInt16(Decode(buf, 16).value) == buf
    decreases |buf|
  {
    if |buf| > 0 {
      var rest := buf[2..];
      EncodeDecodeInt16(rest);
      assert Samples(buf, 16) == [Int16At(buf[0], buf[1])] + Samples(rest, 16) by {
        assert buf[..2][0] == buf[0] && buf[..2][1] == buf[1];
      }
      Int16AtRoundTrip(buf[0], buf[1]);
      assert buf == [buf[0], buf[1]] + rest;
    }
  }

  /** Decoding an 8-bit PCM encoding gives back every sample. */
  lemma {:induction false} DecodeEncodeUint8(samples: seq<int>)
    requires forall k :: 0 <= k < |samples| ==> 0 <= samples[k] < 256
    ensures Decode(EncodeUint8(samples), 8) == Ok(samples)
  {
    SamplesEncodeUint8(samples);
  }

  lemma {:induction false} SamplesEncodeUint8(samples: seq<int>)
    requires forall k :: 0 <= k < |samples| ==> 0 <= samples[k] < 256
    ensures Samples(EncodeUint8(samples), 8) == samples
    decreases |samples|
  {
    if samples != [] {
      var buf := EncodeUint8(samples);
      assert buf[1..] == EncodeUint8(samples[1..]);
      SamplesEncodeUint8(samples[1..]);
    }
  }

  /**
   * The conversion loop of `FrameIn`: one pass over `n_frames` samples with a
   * cursor into the buffer that advances by one sample width per sample. A
   * width without a case raises the error in the first iteration, so an
   * empty waveform is produced without error when no whole sample fits.
   */
  method ReadSamples(buffer: array<byte>, bufferLength: int, bits: int) returns (r: Result<seq<int>, PcmError>)
    requires bits >= 8
    requires 0 <= bufferLength <= buffer.Length
    ensures r == Decode(buffer[..bufferLength], bits)
  {
    ghost var buf := buffer[..bufferLength];
    var nFrames := bufferLength / (bits / 8);
    assert nFrames == SampleCount(|buf|, bits);
    var waveform := new int[nFrames];
    var cursor := 0;
    for i := 0 to nFrames
      invariant i == 0 || SupportedBits(bits)
      invariant SupportedBits(bits) ==> cursor == i * SampleWidth(bits)
      invariant forall k :: 0 <= k < i ==> SupportedBits(bits) && waveform[k] == SampleAt(buf, bits, k)
    {
      if bits == 8 {
        waveform[i] := buffer[cursor];
        cursor := cursor + 1;
      } else if bits == 16 {
        var k := Int16At(buffer[cursor], buffer[cursor + 1]);
        waveform[i] := k;
        cursor := cursor + 2;
      } else {
        CountPositive(|buf|, bits);
        return Err(UnsupportedBitsPerSample(bits));
      }
    }
    if nFrames > 0 {
      SamplesLength(buf, bits);
      forall k | 0 <= k < nFrames
        ensures waveform[k] == Samples(buf, bits)[k]
      {
        SamplesAt(buf, bits, k);
      }
      assert waveform[..] == Samples(buf, bits);
    } else {
      assert waveform[..] == [];
    }
    r := Ok(waveform[..]);
  }
}
