/**
 * The engine's PCM wire format (engine/audio_utils.py): base64 text carrying
 * little-endian float32 mono samples, with range and sample-rate checks.
 *
 * A float32 sample is kept as its four bytes; its numeric value is a
 * caller-supplied function (IEEE 754 decoding is not modelled).
 */
module AudioUtils {
  import opened Wrappers
  import opened Base64

  /** One float32 sample as its little-endian bytes. */
  datatype F32 = F32(b0: Byte, b1: Byte, b2: Byte, b3: Byte)

  /** `struct.unpack('<Nf', bytes)`: consecutive groups of four bytes. */
  function Unpack(bytes: seq<Byte>): (samples: seq<F32>)
    requires |bytes| % 4 == 0
    ensures |samples| == |bytes| / 4
    decreases |bytes|
  {
    if bytes == [] then [] else [F32(bytes[0], bytes[1], bytes[2], bytes[3])] + Unpack(bytes[4..])
  }

  /** `struct.pack('<Nf', *samples)`. */
  function Pack(samples: seq<F32>): (bytes: seq<Byte>)
    ensures |bytes| == 4 * |samples|
  {
    if samples == [] then [] else [samples[0].b0, samples[0].b1, samples[0].b2, samples[0].b3] + Pack(samples[1..])
  }

  lemma {:induction false} UnpackPack(samples: seq<F32>)
    ensures Unpack(Pack(samples)) == samples
  {
    if samples != [] {
      var bytes := Pack(samples);
      assert bytes[4..] == Pack(samples[1..]);
      UnpackPack(samples[1..]);
    }
  }

  lemma {:induction false} PackUnpack(bytes: seq<Byte>)
    requires |bytes| % 4 == 0
    ensures Pack(Unpack(bytes)) == bytes
    decreases |bytes|
  {
    if bytes != [] {
      PackUnpack(bytes[4..]);
      assert bytes == bytes[..4] + bytes[4..];
    }
  }

  datatype AudioFormatError =
    | Base64Invalid
    | LengthNotMultipleOf4(length: nat)
    | OutOfRange(minValue: real, maxValue: real)
    | NotFloat32(dtype: string)
    | NotMono(ndim: nat)
    | RateNotInteger(typeName: string)
    | RateOutsideRange(rate: int)
    | RateNotPositive(rate: int)

  /** An AudioFormatError, or the ZeroDivisionError of a zero sample rate. */
  datatype AudioError = FormatError(error: AudioFormatError) | DivisionByZero

  /** The slack allowed beyond [-1, 1]. */
  const Tolerance: real := 0.000001

  function SeqMin(xs: seq<real>): (m: real)
    requires xs != []
    ensures forall i :: 0 <= i < |xs| ==> m <= xs[i]
    ensures exists i :: 0 <= i < |xs| && m == xs[i]
  {
    if |xs| == 1 then xs[0]
    else
      var rest := SeqMin(xs[1..]);
      assert forall i :: 1 <= i < |xs| ==> rest <= xs[i] by {
        forall i | 1 <= i < |xs| ensures rest <= xs[i] { assert xs[i] == xs[1..][i - 1]; }
      }
      var j :| 0 <= j < |xs[1..]| && rest == xs[1..][j];
      assert rest == xs[j + 1];
      if xs[0] <= rest then xs[0] else rest
  }

  function SeqMax(xs: seq<real>): (m: real)
    requires xs != []
    ensures forall i :: 0 <= i < |xs| ==> xs[i] <= m
    ensures exists i :: 0 <= i < |xs| && m == xs[i]
  {
    if |xs| == 1 then xs[0]
    else
      var rest := SeqMax(xs[1..]);
      assert forall i :: 1 <= i < |xs| ==> xs[i] <= rest by {
        forall i | 1 <= i < |xs| ensures xs[i] <= rest { assert xs[i] == xs[1..][i - 1]; }
      }
      var j :| 0 <= j < |xs[1..]| && rest == xs[1..][j];
      assert rest == xs[j + 1];
      if xs[0] >= rest then xs[0] else rest
  }

  /** validate_audio_range: no samples is valid; otherwise the minimum and
   *  maximum must lie within the tolerance of [-1, 1]. None means valid. */
  function ValidateAudioRange(values: seq<real>): (err: Option<AudioFormatError>)
    ensures err.None? <==> forall i :: 0 <= i < |values| ==> -1.0 - Tolerance <= values[i] <= 1.0 + Tolerance
    ensures err.Some? ==> err.value == OutOfRange(SeqMin(values), SeqMax(values))
  {
    if values == [] then None
    else
      var lo, hi := SeqMin(values), SeqMax(values);
      if lo < -1.0 - Tolerance || hi > 1.0 + Tolerance then Some(OutOfRange(lo, hi)) else None
  }

  function Values(samples: seq<F32>, value: F32 -> real): (vs: seq<real>)
    ensures |vs| == |samples| && forall i :: 0 <= i < |samples| ==> vs[i] == value(samples[i])
  {
    seq(|samples|, i requires 0 <= i < |samples| => value(samples[i]))
  }

  datatype DecodedPcm = DecodedPcm(samples: seq<F32>, duration: real)

  /**
   * decode_pcm_from_base64: base64 text to samples and their duration in
   * seconds at `sampleRate`. Malformed base64, a byte count that is not a
   * multiple of 4 and out-of-range samples are format errors; a zero rate is a
   * division by zero.
   */
  function DecodePcmFromBase64(pcm: string, sampleRate: int, value: F32 -> real): Result<DecodedPcm, AudioError>
  {
    match Decode(pcm)
    case None => Err(FormatError(Base64Invalid))
    case Some(bytes) =>
      if |bytes| % 4 != 0 then Err(FormatError(LengthNotMultipleOf4(|bytes|)))
      else
        var samples := Unpack(bytes);
        match ValidateAudioRange(Values(samples, value))
        case Some(e) => Err(FormatError(e))
        case None =>
          if sampleRate == 0 then Err(DivisionByZero)
          else Ok(DecodedPcm(samples, |samples| as real / sampleRate as real))
  }

  /**
   * The decoder's outcomes: malformed base64 and a byte count that is not a
   * multiple of 4 are refused in that order, with the count; an accepted
   * text gives one sample per four decoded bytes (packing them again gives
   * those bytes back), every sample in range, and the duration
   * samples / rate.
   */
  lemma DecodePcmOutcome(pcm: string, sampleRate: int, value: F32 -> real)
    ensures var r := DecodePcmFromBase64(pcm, sampleRate, value);
      && (Decode(pcm).None? ==> r == Err(FormatError(Base64Invalid)))
      && (Decode(pcm).Some? && |Decode(pcm).value| % 4 != 0 ==>
            r == Err(FormatError(LengthNotMultipleOf4(|Decode(pcm).value|))))
      && (r.Ok? ==>
            && Decode(pcm).Some? && |Decode(pcm).value| % 4 == 0
            && |r.value.samples| * 4 == |Decode(pcm).value|
            && Pack(r.value.samples) == Decode(pcm).value
            && ValidateAudioRange(Values(r.value.samples, value)).None?
            && sampleRate != 0 && r.value.duration == |r.value.samples| as real / sampleRate as real)
  {
    var r := DecodePcmFromBase64(pcm, sampleRate, value);
    if r.Ok? {
      PackUnpack(Decode(pcm).value);
    }
  }

  /** Conversely, well-formed bytes whose samples are all in range decode
   *  under any non-zero rate; a sample out of range is refused with the
   *  range check's error, and a zero rate divides by zero. */
  lemma DecodePcmAccepts(pcm: string, sampleRate: int, value: F32 -> real)
    requires Decode(pcm).Some? && |Decode(pcm).value| % 4 == 0
    ensures var r := DecodePcmFromBase64(pcm, sampleRate, value);
      var samples := Unpack(Decode(pcm).value);
      && (ValidateAudioRange(Values(samples, value)).None? && sampleRate != 0 ==>
            r == Ok(DecodedPcm(samples, |samples| as real / sampleRate as real)))
      && (ValidateAudioRange(Values(samples, value)).Some? ==>
            r == Err(FormatError(ValidateAudioRange(Values(samples, value)).value)))
      && (ValidateAudioRange(Values(samples, value)).None? && sampleRate == 0 ==> r == Err(DivisionByZero))
  {
  }

  /** A numpy array as the encoder sees it: element type name, number of
   *  dimensions, and its elements in order. */
  datatype PcmArray = PcmArray(dtype: string, ndim: nat, samples: seq<F32>)

  /** encode_pcm_to_base64: only one-dimensional float32 arrays whose samples
   *  are in range are encoded. */
  function EncodePcmToBase64(audio: PcmArray, value: F32 -> real): (r: Result<string, AudioFormatError>)
    ensures r.Ok? <==> (audio.dtype == "float32" && audio.ndim == 1
      && forall i :: 0 <= i < |audio.samples| ==> -1.0 - Tolerance <= value(audio.samples[i]) <= 1.0 + Tolerance)
    ensures audio.dtype != "float32" ==> r == Err(NotFloat32(audio.dtype))
    ensures audio.dtype == "float32" && audio.ndim != 1 ==> r == Err(NotMono(audio.ndim))
  {
    if audio.dtype != "float32" then Err(NotFloat32(audio.dtype))
    else if audio.ndim != 1 then Err(NotMono(audio.ndim))
    else
      match ValidateAudioRange(Values(audio.samples, value))
      case Some(e) => Err(e)
      case None => Ok(Encode(Pack(audio.samples)))
  }

  lemma FourTimes(n: nat)
    ensures (4 * n) % 4 == 0 && (4 * n) / 4 == n
  {
  }

  /** Whatever the encoder accepts, the decoder gives back sample for sample,
   *  with its duration at the capture rate. */
  lemma EncodeDecodeRoundTrip(audio: PcmArray, value: F32 -> real, sampleRate: int)
    requires EncodePcmToBase64(audio, value).Ok?
    requires sampleRate != 0
    ensures DecodePcmFromBase64(EncodePcmToBase64(audio, value).value, sampleRate, value)
      == Ok(DecodedPcm(audio.samples, |audio.samples| as real / sampleRate as real))
  {
    var bytes := Pack(audio.samples);
    var text := EncodePcmToBase64(audio, value).value;
    assert ValidateAudioRange(Values(audio.samples, value)).None?;
    assert text == Encode(bytes);
    DecodeEncode(bytes);
    assert Decode(text) == Some(bytes);
    FourTimes(|audio.samples|);
    UnpackPack(audio.samples);
    assert Unpack(bytes) == audio.samples;
  }

  /** The argument validate_sample_rate receives: an int, or another type. */
  datatype RateArgument = IntRate(rate: int) | NonIntRate(typeName: string)

  /** validate_sample_rate: an integer in [8000, 96000]. None means valid. */
  function ValidateSampleRate(arg: RateArgument): (err: Option<AudioFormatError>)
    ensures err.None? <==> arg.IntRate? && 8000 <= arg.rate <= 96000
  {
    match arg
    case NonIntRate(t) => Some(RateNotInteger(t))
    case IntRate(r) =>
      if r < 8000 || r > 96000 then Some(RateOutsideRange(r))
      else if r <= 0 then Some(RateNotPositive(r))
      else None
  }

  /** The positivity check comes after the range check and never fires. */
  lemma PositivityCheckUnreachable(arg: RateArgument)
    ensures !(ValidateSampleRate(arg).Some? && ValidateSampleRate(arg).value.RateNotPositive?)
  {
  }
}
