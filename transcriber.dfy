/**
 * The streaming speech-to-text front end (transcriber.py): audio chunks are
 * buffered until enough seconds have accumulated, then the whole buffer is
 * handed to the speech recogniser once and cleared, whether recognition
 * succeeded or not.
 *
 * The Whisper and Parakeet transcribers share this buffering logic line for
 * line; they are one class here, told apart by `Engine`. The recogniser itself
 * (MLX Whisper, the Parakeet streaming context) is a caller-supplied function
 * that may fail.
 */
module Transcriber {
  import opened Seqs
  import opened Text

  /** One mono PCM sample (an amplitude; float32 rounding is not modelled). */
  type Sample = real

  /** What a recogniser call yields: text, or an exception. */
  datatype SttOutcome = Recognized(text: string) | SttFailed(message: string)

  /** Short Whisper model names and the MLX repository each one selects. */
  const WhisperModels: map<string, string> := map[
    "tiny" := "mlx-community/whisper-tiny",
    "base" := "mlx-community/whisper-tiny",
    "small" := "mlx-community/whisper-small-mlx",
    "medium" := "mlx-community/whisper-medium-mlx",
    "large" := "mlx-community/whisper-large-v3-mlx",
    "large-v2" := "mlx-community/whisper-large-v3-mlx",
    "large-v3" := "mlx-community/whisper-large-v3-mlx",
    "large-v3-turbo" := "mlx-community/whisper-large-v3-turbo",
    "turbo" := "mlx-community/whisper-large-v3-turbo"
  ]

  /** The text the mock recogniser produces: a fresh mock is built for every
   *  call, so its rotating counter is always at the first sample sentence. */
  const MockTranscript: string := "Let me check the documentation for that."

  /** The model name up to its first '.', or the whole name when it has none
   *  ("base.en" gives "base"). */
  function ModelKey(path: string): (key: string)
    ensures IsPrefix(key, path)
    ensures '.' !in key
    ensures |key| < |path| ==> path[|key|] == '.'
  {
    if path == [] || path[0] == '.' then [] else [path[0]] + ModelKey(path[1..])
  }

  /** The MLX repository a Whisper model name selects: the mapped repository
   *  when the key is a known short name, otherwise the name itself. */
  function ModelRepo(path: string): string
  {
    var key := ModelKey(path);
    if key in WhisperModels then WhisperModels[key] else path
  }

  /** The key of a name is the text before a first '.' or the end. */
  lemma {:induction false} ModelKeyOf(key: string, rest: string)
    requires '.' !in key
    requires rest == [] || rest[0] == '.'
    ensures ModelKey(key + rest) == key
  {
    if key != [] {
      assert (key + rest)[0] == key[0];
      assert (key + rest)[1..] == key[1..] + rest;
      ModelKeyOf(key[1..], rest);
    } else {
      assert key + rest == rest;
    }
  }

  /** A language suffix does not change the repository a short name selects,
   *  and a name that is not a known short name is used verbatim. */
  lemma ModelRepoCases(key: string, suffix: string, path: string)
    requires key in WhisperModels && '.' !in key
    requires ModelKey(path) !in WhisperModels
    ensures ModelRepo(key) == WhisperModels[key]
    ensures ModelRepo(key + "." + suffix) == WhisperModels[key]
    ensures ModelRepo(path) == path
  {
    ModelKeyOf(key, []);
    assert key + [] == key;
    ModelKeyOf(key, "." + suffix);
    assert key + "." + suffix == key + ("." + suffix);
  }

  /** Seconds of audio in `n` samples at `rate` samples per second. */
  function Duration(n: nat, rate: int): real
    requires rate > 0
  {
    n as real / rate as real
  }

  lemma DurationAdd(a: nat, b: nat, rate: int)
    requires rate > 0
    ensures Duration(a + b, rate) == Duration(a, rate) + Duration(b, rate)
    ensures Duration(a, rate) == 0.0 <==> a == 0
    ensures Duration(a, rate) >= 0.0
  {
  }

  function Abs(x: real): real { if x < 0.0 then -x else x }

  /** The largest absolute amplitude (0 for no samples). */
  function MaxAbs(xs: seq<Sample>): (m: real)
    ensures m >= 0.0
    ensures forall i :: 0 <= i < |xs| ==> Abs(xs[i]) <= m
    ensures xs != [] ==> exists i :: 0 <= i < |xs| && Abs(xs[i]) == m
  {
    if xs == [] then 0.0
    else
      var rest := MaxAbs(xs[1..]);
      assert forall i :: 1 <= i < |xs| ==> Abs(xs[i]) <= rest by {
        forall i | 1 <= i < |xs| ensures Abs(xs[i]) <= rest { assert xs[i] == xs[1..][i - 1]; }
      }
      if Abs(xs[0]) >= rest then Abs(xs[0])
      else
        assert exists i :: 0 <= i < |xs[1..]| && Abs(xs[1..][i]) == rest;
        var j :| 0 <= j < |xs[1..]| && Abs(xs[1..][j]) == rest;
        assert Abs(xs[j + 1]) == rest;
        rest
  }

  /** The audio as handed to a real recogniser: divided by its peak amplitude
   *  when some sample lies outside [-1, 1], unchanged otherwise. */
  function Normalized(xs: seq<Sample>): seq<Sample>
  {
    var peak := MaxAbs(xs);
    if peak > 1.0 then seq(|xs|, i requires 0 <= i < |xs| => xs[i] / peak) else xs
  }

  lemma DivideByPeak(x: real, peak: real)
    requires peak > 1.0 && Abs(x) <= peak
    ensures -1.0 <= x / peak <= 1.0
  {
    var q := x / peak;
    assert q * peak == x;
  }

  /** The guard "max > 1 or min < -1" is the same as "peak > 1", normalised
   *  audio lies in [-1, 1], and audio already inside that range is untouched. */
  lemma NormalizedInRange(xs: seq<Sample>)
    ensures MaxAbs(xs) > 1.0 <==> exists i :: 0 <= i < |xs| && (xs[i] > 1.0 || xs[i] < -1.0)
    ensures |Normalized(xs)| == |xs|
    ensures forall i :: 0 <= i < |xs| ==> -1.0 <= Normalized(xs)[i] <= 1.0
    ensures (forall i :: 0 <= i < |xs| ==> -1.0 <= xs[i] <= 1.0) ==> Normalized(xs) == xs
  {
    var peak := MaxAbs(xs);
    if peak > 1.0 {
      var j :| 0 <= j < |xs| && Abs(xs[j]) == peak;
      assert xs[j] > 1.0 || xs[j] < -1.0;
      forall i | 0 <= i < |xs| ensures -1.0 <= Normalized(xs)[i] <= 1.0 {
        DivideByPeak(xs[i], peak);
      }
    } else {
      forall i | 0 <= i < |xs| ensures -1.0 <= xs[i] <= 1.0 {
        assert Abs(xs[i]) <= peak;
      }
    }
  }

  /** Which recogniser a transcriber drives. */
  datatype Engine = Whisper(modelRepo: string) | Parakeet(modelPath: string)

  /**
   * The result of one recognition attempt on buffered audio: the stripped
   * text ("" on any exception), the audio actually handed to the recogniser
   * (empty when the attempt failed before reaching it), and whether the lazily
   * loaded Parakeet model is loaded afterwards.
   */
  datatype Recognition = Recognition(text: string, sent: seq<seq<Sample>>, loaded: bool)

  /**
   * One recognition attempt. The mock recogniser gets the raw audio. A real
   * one first (Parakeet only) loads its model if that has not happened yet,
   * then computes the peak of the audio, which raises on no samples, and
   * hands over the normalised audio. Every exception yields "".
   */
  function Recognize(useMock: bool, engine: Engine, loaded: bool, audio: seq<Sample>,
                     stt: seq<Sample> -> SttOutcome, loadSucceeds: bool): Recognition
  {
    if useMock then Recognition(Strip(MockTranscript), [audio], loaded)
    else
      var nowLoaded := loaded || (engine.Parakeet? && loadSucceeds);
      if engine.Parakeet? && !nowLoaded then Recognition("", [], false)
      else if audio == [] then Recognition("", [], nowLoaded)
      else
        var a := Normalized(audio);
        match stt(a)
        case Recognized(t) => Recognition(Strip(t), [a], nowLoaded)
        case SttFailed(_) => Recognition("", [a], nowLoaded)
  }

  /** The mock always says the first sample sentence, sends the raw audio
   *  and leaves the model alone. */
  lemma RecognizeMock(engine: Engine, loaded: bool, audio: seq<Sample>,
                      stt: seq<Sample> -> SttOutcome, loadSucceeds: bool)
    ensures Recognize(true, engine, loaded, audio, stt, loadSucceeds)
      == Recognition(MockTranscript, [audio], loaded)
  {
    StripOfStripped(MockTranscript);
  }

  /** The text of an attempt never has surrounding whitespace, and a recogniser
   *  failure gives "". */
  lemma RecognizeText(useMock: bool, engine: Engine, loaded: bool, audio: seq<Sample>,
                      stt: seq<Sample> -> SttOutcome, loadSucceeds: bool)
    ensures var r := Recognize(useMock, engine, loaded, audio, stt, loadSucceeds);
      Strip(r.text) == r.text
      && (!useMock && r.sent != [] && stt(r.sent[0]).SttFailed? ==> r.text == "")
  {
    var r := Recognize(useMock, engine, loaded, audio, stt, loadSucceeds);
    if useMock {
      RecognizeMock(engine, loaded, audio, stt, loadSucceeds);
    } else if r.sent != [] && stt(r.sent[0]).Recognized? {
      StripIdempotent(stt(r.sent[0]).text);
    }
  }

  /** A real recogniser is called at most once, on the normalised audio, which
   *  lies in [-1, 1]; no samples means no call. A loaded model stays loaded
   *  and a Whisper transcriber never loads one. */
  lemma RecognizeSent(engine: Engine, loaded: bool, audio: seq<Sample>,
                      stt: seq<Sample> -> SttOutcome, loadSucceeds: bool)
    ensures var r := Recognize(false, engine, loaded, audio, stt, loadSucceeds);
      && (r.sent == [] || r.sent == [Normalized(audio)])
      && (audio == [] ==> r.sent == [])
      && (forall a, i :: a in r.sent && 0 <= i < |a| ==> -1.0 <= a[i] <= 1.0)
      && (loaded ==> r.loaded)
      && (engine.Whisper? ==> r.loaded == loaded)
  {
    NormalizedInRange(audio);
  }

  class StreamingTranscriber {
    const engine: Engine
    const minAudioDuration: real
    const maxAudioDuration: real
    const sampleRate: int
    /** The recogniser library could not be imported: use the mock. */
    const useMock: bool
    var audioBuffer: seq<seq<Sample>>
    var bufferDuration: real
    var modelLoaded: bool
    /** How many times a model has been loaded. */
    ghost var loadCount: nat
    /** Every batch of audio handed to a recogniser, in order. */
    ghost var requests: seq<seq<Sample>>

    ghost predicate Valid()
      reads this
    {
      sampleRate > 0
      && bufferDuration == Duration(|Concat(audioBuffer)|, sampleRate)
      && loadCount <= 1 && (modelLoaded <==> loadCount == 1)
      && (modelLoaded ==> engine.Parakeet? && !useMock)
    }

    /** StreamingTranscriber.__init__: the model name is mapped to its repository. */
    constructor ForWhisper(modelPath: string, minAudioDuration: real, maxAudioDuration: real,
                           captureSampleRate: int, mlxAvailable: bool)
      requires captureSampleRate > 0
      ensures Valid()
      ensures engine == Engine.Whisper(ModelRepo(modelPath)) && useMock == !mlxAvailable
      ensures this.minAudioDuration == minAudioDuration && this.maxAudioDuration == maxAudioDuration
      ensures sampleRate == captureSampleRate
      ensures audioBuffer == [] && bufferDuration == 0.0 && !modelLoaded && requests == []
    {
      engine := Engine.Whisper(ModelRepo(modelPath));
      this.minAudioDuration := minAudioDuration;
      this.maxAudioDuration := maxAudioDuration;
      sampleRate := captureSampleRate;
      useMock := !mlxAvailable;
      audioBuffer := [];
      bufferDuration := 0.0;
      modelLoaded := false;
      loadCount := 0;
      requests := [];
    }

    /** ParakeetTranscriber.__init__: the model is not loaded yet. */
    constructor ForParakeet(modelPath: string, minAudioDuration: real, maxAudioDuration: real,
                            sampleRate: int, parakeetAvailable: bool)
      requires sampleRate > 0
      ensures Valid()
      ensures engine == Engine.Parakeet(modelPath) && useMock == !parakeetAvailable
      ensures this.minAudioDuration == minAudioDuration && this.maxAudioDuration == maxAudioDuration
      ensures this.sampleRate == sampleRate
      ensures audioBuffer == [] && bufferDuration == 0.0 && !modelLoaded && requests == []
    {
      engine := Engine.Parakeet(modelPath);
      this.minAudioDuration := minAudioDuration;
      this.maxAudioDuration := maxAudioDuration;
      this.sampleRate := sampleRate;
      useMock := !parakeetAvailable;
      audioBuffer := [];
      bufferDuration := 0.0;
      modelLoaded := false;
      loadCount := 0;
      requests := [];
    }

    /** What `transcribe` of `chunk` yields from the current state: nothing
     *  below the minimum duration, else one attempt on the whole buffer. */
    function Transcribed(chunk: seq<Sample>, stt: seq<Sample> -> SttOutcome, loadSucceeds: bool): Recognition
      requires sampleRate > 0
      reads this
    {
      if bufferDuration + Duration(|chunk|, sampleRate) < minAudioDuration then Recognition("", [], modelLoaded)
      else Recognize(useMock, engine, modelLoaded, Concat(audioBuffer + [chunk]), stt, loadSucceeds)
    }

    /** What `flush_buffer` yields from the current state. */
    function Flushed(stt: seq<Sample> -> SttOutcome, loadSucceeds: bool): Recognition
      reads this
    {
      if audioBuffer == [] || bufferDuration == 0.0 then Recognition("", [], modelLoaded)
      else Recognize(useMock, engine, modelLoaded, Concat(audioBuffer), stt, loadSucceeds)
    }

    /** Hands the whole buffer to the recogniser once and empties the buffer. */
    method RecognizeBuffer(stt: seq<Sample> -> SttOutcome, loadSucceeds: bool) returns (text: string)
      requires Valid()
      modifies this
      ensures Valid()
      ensures var r := Recognize(useMock, engine, old(modelLoaded), Concat(old(audioBuffer)), stt, loadSucceeds);
        text == r.text && requests == old(requests) + r.sent && modelLoaded == r.loaded
      ensures audioBuffer == [] && bufferDuration == 0.0
    {
      var r := Recognize(useMock, engine, modelLoaded, Concat(audioBuffer), stt, loadSucceeds);
      if r.loaded && !modelLoaded {
        loadCount := loadCount + 1;
      }
      modelLoaded := r.loaded;
      requests := requests + r.sent;
      audioBuffer := [];
      bufferDuration := 0.0;
      text := r.text;
    }

    /**
     * transcribe: buffer the chunk; below the minimum duration return ""
     * and keep buffering, otherwise recognise the whole buffer once and clear
     * it. The maximum duration is only reported, never enforced.
     */
    method Transcribe(chunk: seq<Sample>, stt: seq<Sample> -> SttOutcome, loadSucceeds: bool)
      returns (text: string)
      requires Valid()
      modifies this
      ensures Valid()
      ensures var t := old(Transcribed(chunk, stt, loadSucceeds));
        text == t.text && requests == old(requests) + t.sent && modelLoaded == t.loaded
      ensures var duration := old(bufferDuration) + Duration(|chunk|, sampleRate);
        if duration < minAudioDuration then
          text == "" && audioBuffer == old(audioBuffer) + [chunk] && bufferDuration == duration
          && requests == old(requests) && modelLoaded == old(modelLoaded)
        else
          var r := Recognize(useMock, engine, old(modelLoaded), Concat(old(audioBuffer) + [chunk]), stt, loadSucceeds);
          text == r.text && requests == old(requests) + r.sent && modelLoaded == r.loaded
          && audioBuffer == [] && bufferDuration == 0.0
    {
      ConcatAppend(audioBuffer, chunk);
      DurationAdd(|Concat(audioBuffer)|, |chunk|, sampleRate);
      audioBuffer := audioBuffer + [chunk];
      bufferDuration := bufferDuration + Duration(|chunk|, sampleRate);
      if bufferDuration < minAudioDuration {
        return "";
      }
      text := RecognizeBuffer(stt, loadSucceeds);
    }

    /**
     * flush_buffer: with nothing buffered (no chunks, or zero seconds) return
     * "" and change nothing; otherwise recognise the buffer regardless of the
     * minimum duration and clear it.
     */
    method FlushBuffer(stt: seq<Sample> -> SttOutcome, loadSucceeds: bool) returns (text: string)
      requires Valid()
      modifies this
      ensures Valid()
      ensures var f := old(Flushed(stt, loadSucceeds));
        text == f.text && requests == old(requests) + f.sent && modelLoaded == f.loaded
      ensures if old(audioBuffer) == [] || old(bufferDuration) == 0.0 then
          text == "" && audioBuffer == old(audioBuffer) && bufferDuration == old(bufferDuration)
          && requests == old(requests) && modelLoaded == old(modelLoaded)
        else
          var r := Recognize(useMock, engine, old(modelLoaded), Concat(old(audioBuffer)), stt, loadSucceeds);
          text == r.text && requests == old(requests) + r.sent && modelLoaded == r.loaded
          && audioBuffer == [] && bufferDuration == 0.0
    {
      if audioBuffer == [] || bufferDuration == 0.0 {
        return "";
      }
      text := RecognizeBuffer(stt, loadSucceeds);
    }
  }

  /** A flush with zero buffered seconds is exactly a flush of a buffer holding
   *  no samples, so a flush that recognises never sends empty audio. */
  lemma FlushedAudioNonEmpty(buffer: seq<seq<Sample>>, rate: int)
    requires rate > 0
    ensures Duration(|Concat(buffer)|, rate) == 0.0 <==> Concat(buffer) == []
  {
  }
}
