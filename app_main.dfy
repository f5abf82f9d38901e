/**
 * The command-line application (__main__.py): the transcriber it picks, its
 * running and recording flags, the stop path that turns what was recorded
 * into a summary file, a data file and a CSV row, and that row.
 *
 * The worker threads and their queues are not modelled: a flushed transcript
 * reaches the buffer directly when the summary worker is running. The wall
 * clock's "%Y%m%d_%H%M%S" rendering is `fileStamp`; the summariser's own
 * "%Y-%m-%d %H:%M:%S" rendering is `summaryStamp`.
 */
module App {
  import opened Wrappers
  import opened Seqs
  import opened Text
  import opened Transcriber
  import opened Transcripts
  import opened Summarizer
  import opened Recording
  import Sessions

  datatype AppConfig = AppConfig(
    sttBackend: string, sttModelPath: string, parakeetModelPath: string,
    minAudioDuration: real, maxAudioDuration: real, sampleRate: int,
    maxBufferSize: nat, chunkDuration: int,
    outputDir: string, csvExportPath: string, dataExtractionPrompt: string)

  // ---------------------------------------------------------------------
  // The transcriber __init__ builds
  // ---------------------------------------------------------------------

  /**
   * The backend name, compared exactly, picks Parakeet with its own model
   * path; anything else picks Whisper with the Whisper model path. Both get
   * the configured durations and capture rate.
   */
  function PlanAppTranscriber(config: AppConfig, mlxAvailable: bool, parakeetAvailable: bool)
    : (r: Sessions.TranscriberPlan)
    ensures r.ParakeetPlan? <==> config.sttBackend == "parakeet"
    ensures r.modelPath == if r.ParakeetPlan? then config.parakeetModelPath else config.sttModelPath
    ensures r.available == if r.ParakeetPlan? then parakeetAvailable else mlxAvailable
    ensures r.minAudioDuration == config.minAudioDuration && r.maxAudioDuration == config.maxAudioDuration
    ensures Sessions.PlannedRate(r) == config.sampleRate
  {
    if config.sttBackend == "parakeet" then
      Sessions.ParakeetPlan(config.parakeetModelPath, config.minAudioDuration, config.maxAudioDuration,
                            config.sampleRate, parakeetAvailable)
    else
      Sessions.WhisperPlan(config.sttModelPath, config.minAudioDuration, config.maxAudioDuration,
                           config.sampleRate, mlxAvailable)
  }

  const WhisperKeywordError: string :=
    "StreamingTranscriber.__init__() got an unexpected keyword argument 'sample_rate'"

  /** __init__ as written: the Whisper constructor is called with the keyword
   *  `sample_rate`, which it does not accept (its keyword is
   *  `capture_sample_rate`), so it raises a TypeError. */
  function PlanAppTranscriberAsWritten(config: AppConfig, mlxAvailable: bool, parakeetAvailable: bool)
    : Result<Sessions.TranscriberPlan, string>
  {
    if config.sttBackend == "parakeet" then Ok(PlanAppTranscriber(config, mlxAvailable, parakeetAvailable))
    else Err(WhisperKeywordError)
  }

  /** As written, the application starts only with the Parakeet backend (the
   *  configured default, config.py:22); choosing "whisper", or any other name,
   *  for which the intended selection builds Whisper, never starts. */
  lemma WhisperNeverStartsAsWritten(config: AppConfig, mlxAvailable: bool, parakeetAvailable: bool)
    ensures config.sttBackend != "parakeet" ==>
      && PlanAppTranscriberAsWritten(config, mlxAvailable, parakeetAvailable).Err?
      && PlanAppTranscriber(config, mlxAvailable, parakeetAvailable).WhisperPlan?
    ensures config.sttBackend == "parakeet" ==>
      PlanAppTranscriberAsWritten(config, mlxAvailable, parakeetAvailable)
        == Ok(PlanAppTranscriber(config, mlxAvailable, parakeetAvailable))
  {
  }

  // ---------------------------------------------------------------------
  // _append_to_csv
  // ---------------------------------------------------------------------

  /** `summary_path.stem.replace('summary_', '')` for "summary_<fileStamp>.txt". */
  function StemTimestamp(fileStamp: string): string
  {
    ReplaceAll("summary_" + fileStamp, "summary_", "")
  }

  /** A stamp that never shows an 's' comes back from the stem unchanged. */
  lemma StemTimestampOf(fileStamp: string)
    requires 's' !in fileStamp
    ensures StemTimestamp(fileStamp) == fileStamp
  {
    ReplaceOne("", "summary_", fileStamp, "");
    assert "" + "summary_" + fileStamp == "summary_" + fileStamp;
    assert "" + "" + fileStamp == fileStamp;
  }

  /** A timestamp strptime accepts is digits and one underscore: no 's'. */
  lemma ParsedHasNoS(t: string)
    requires ParseStamp(t).Some?
    ensures 's' !in t
  {
    assert StampShaped(t);
    forall i | 0 <= i < |t|
      ensures t[i] != 's'
    {
      if i < 8 {
        assert t[..8][i] == t[i];
      } else if i > 8 {
        assert t[9..][i - 9] == t[i];
      }
    }
  }

  /**
   * The row: with any contact, company or deal, the first of each (blank
   * when its list is empty) and the three counts; with none, blank entity
   * columns and zero counts.
   */
  function MainRow(data: MeetingData, timestamp: string, st: Stamp): CsvRow
  {
    if data.contacts != [] || data.companies != [] || data.deals != [] then FlatRow(data, timestamp, st)
    else BlankRow(timestamp, st)
  }

  /** The two branches agree: the row is always the flattened row. */
  lemma MainRowIsFlat(data: MeetingData, timestamp: string, st: Stamp)
    ensures MainRow(data, timestamp, st) == FlatRow(data, timestamp, st)
  {
    if data.contacts == [] && data.companies == [] && data.deals == [] {
      assert data == EmptyMeetingData;
      RowOfNothing(timestamp, st);
    }
  }

  /** The row of the summary file "summary_<fileStamp>.txt"; None is the
   *  ValueError of a timestamp strptime refuses. */
  function AppRow(data: MeetingData, fileStamp: string): (r: Option<CsvRow>)
    ensures r.Some? <==> ParseStamp(StemTimestamp(fileStamp)).Some?
  {
    var timestamp := StemTimestamp(fileStamp);
    match ParseStamp(timestamp)
    case None => None
    case Some(st) => Some(MainRow(data, timestamp, st))
  }

  /** With a stamp strptime accepts, the date, time and file-stamp columns
   *  are cut from that stamp, and the row is the one the GUI writes. */
  lemma AppRowStamp(data: MeetingData, fileStamp: string)
    requires ParseStamp(fileStamp).Some?
    ensures var row := AppRow(data, fileStamp);
      && row.Some? && row == RecordingRow(data, fileStamp)
      && row.value.meetingDate == fileStamp[0..4] + "-" + fileStamp[4..6] + "-" + fileStamp[6..8]
      && row.value.meetingTime == fileStamp[9..11] + ":" + fileStamp[11..13] + ":" + fileStamp[13..15]
      && row.value.timestampFile == fileStamp
  {
    ParsedHasNoS(fileStamp);
    StemTimestampOf(fileStamp);
    MainRowIsFlat(data, fileStamp, ParseStamp(fileStamp).value);
    RowStamp(data, fileStamp);
  }

  // ---------------------------------------------------------------------
  // stop_recording
  // ---------------------------------------------------------------------

  /** What stop_recording ends with: the guard, the early return, the three
   *  files written, or the ValueError of _append_to_csv after the summary and
   *  data files were written. */
  datatype StopResult =
    | NotRecording
    | NothingToSummarize
    | Saved(summaryPath: string, summaryText: string, dataPath: string, data: MeetingData,
            row: CsvRow, writeHeader: bool)
    | CsvFailed(summaryPath: string, summaryText: string, dataPath: string, data: MeetingData,
                message: string)

  function SummaryPath(outputDir: string, fileStamp: string): string
  {
    outputDir + "/summary_" + fileStamp + ".txt"
  }

  /** `summary_path.with_suffix('.json')`. */
  function DataPath(outputDir: string, fileStamp: string): string
  {
    outputDir + "/summary_" + fileStamp + ".json"
  }

  /** The data file sits beside the summary file under the same stem. */
  lemma DataBesideSummary(outputDir: string, fileStamp: string)
    ensures var s := SummaryPath(outputDir, fileStamp);
      var d := DataPath(outputDir, fileStamp);
      && |s| >= 4 && |d| >= 5
      && s[..|s| - 4] == d[..|d| - 5] == outputDir + "/summary_" + fileStamp
      && s[|s| - 4..] == ".txt" && d[|d| - 5..] == ".json"
  {
    var stem := outputDir + "/summary_" + fileStamp;
    assert SummaryPath(outputDir, fileStamp) == stem + ".txt";
    assert DataPath(outputDir, fileStamp) == stem + ".json";
  }

  /** The chunk get_all_chunks lists last, given the finalised chunks and the
   *  current chunk it finalises first. */
  function LatestChunk(chunks: seq<Chunk>, current: seq<Segment>): Chunk
    requires chunks != [] || current != []
  {
    if current != [] then ChunkOf(current) else chunks[|chunks| - 1]
  }

  /** What get_all_chunks returns: the finalised chunks and then the current
   *  chunk, when there is one. */
  function Pending(chunks: seq<Chunk>, current: seq<Segment>): (r: seq<Chunk>)
    ensures r == [] <==> chunks == [] && current == []
    ensures r != [] ==> r[|r| - 1] == LatestChunk(chunks, current)
  {
    chunks + (if current == [] then [] else [ChunkOf(current)])
  }

  /** The segment a flush feeds to the buffer, if any. */
  function FedSegments(flushed: string, running: bool, now: Time): seq<Segment>
  {
    if flushed != "" && running then [Segment(flushed, now, "mixed")] else []
  }

  /** The current chunk once the flushed transcript has reached the buffer:
   *  only non-empty text, and only while the summary worker runs. */
  function Fed(current: seq<Segment>, flushed: string, running: bool, now: Time): seq<Segment>
  {
    current + FedSegments(flushed, running, now)
  }

  /** The summaries REDUCE sees: the existing ones, or else one made from the
   *  last of the chunks get_all_chunks returned. */
  function FinalSummaries(sconfig: SummarizerConfig, summaries: seq<IntermediateSummary>, pending: seq<Chunk>,
                          llm: LlmRequest -> LlmOutcome, now: Time): seq<IntermediateSummary>
    requires summaries != [] || pending != []
  {
    if summaries != [] then summaries
    else [IntermediateSummary(SummarizeChunk(sconfig, pending[|pending| - 1].text, llm).text, now)]
  }

  /** The MAP requests of the stop path: none when summaries exist. */
  function MapRequests(sconfig: SummarizerConfig, summaries: seq<IntermediateSummary>, pending: seq<Chunk>,
                       llm: LlmRequest -> LlmOutcome): seq<LlmRequest>
    requires summaries != [] || pending != []
  {
    if summaries != [] then [] else SummarizeChunk(sconfig, pending[|pending| - 1].text, llm).requests
  }

  /** REDUCE, EXTRACT, then the summary and data files and the CSV row. */
  function Saving(config: AppConfig, sconfig: SummarizerConfig, all: seq<IntermediateSummary>,
                  llm: LlmRequest -> LlmOutcome, generate: ExtractionRequest -> LlmOutcome,
                  validate: string -> Option<MeetingData>, schemaText: string,
                  summaryStamp: string, fileStamp: string, csvExists: bool): StopResult
  {
    var final := GenerateFinalSummary(sconfig, all, llm, summaryStamp);
    var x := ExtractStructuredData(sconfig.modelName, all, config.dataExtractionPrompt, schemaText, generate, validate);
    var summaryPath := SummaryPath(config.outputDir, fileStamp);
    var dataPath := DataPath(config.outputDir, fileStamp);
    match AppRow(x.data, fileStamp)
    case None => CsvFailed(summaryPath, final.text, dataPath, x.data, StampErrorMessage(StemTimestamp(fileStamp)))
    case Some(row) => Saved(summaryPath, final.text, dataPath, x.data, row, !csvExists)
  }

  /** The files and the row the stop path writes after REDUCE and EXTRACT:
   *  the summary and data files under the file stamp, and the row, refused
   *  exactly when strptime refuses the stem's timestamp. */
  lemma SavingOutcome(config: AppConfig, sconfig: SummarizerConfig, all: seq<IntermediateSummary>,
                      llm: LlmRequest -> LlmOutcome, generate: ExtractionRequest -> LlmOutcome,
                      validate: string -> Option<MeetingData>, schemaText: string,
                      summaryStamp: string, fileStamp: string, csvExists: bool)
    ensures var out := Saving(config, sconfig, all, llm, generate, validate, schemaText, summaryStamp,
                              fileStamp, csvExists);
      && (out.Saved? || out.CsvFailed?)
      && (out.CsvFailed? <==> ParseStamp(StemTimestamp(fileStamp)).None?)
      && out.summaryPath == SummaryPath(config.outputDir, fileStamp)
      && out.dataPath == DataPath(config.outputDir, fileStamp)
      && out.summaryText == GenerateFinalSummary(sconfig, all, llm, summaryStamp).text
      && out.data == ExtractStructuredData(sconfig.modelName, all, config.dataExtractionPrompt, schemaText,
                                           generate, validate).data
      && (out.Saved? ==> Some(out.row) == AppRow(out.data, fileStamp) && out.writeHeader == !csvExists)
  {
  }

  /** strptime accepts the timestamp in the stem of "summary_<fileStamp>.txt":
   *  _append_to_csv writes its row and stop_recording goes on to clear. */
  predicate StemParses(fileStamp: string)
  {
    ParseStamp(StemTimestamp(fileStamp)).Some?
  }

  /** The effect of stop_recording: its result, the language-model requests
   *  it makes, and the summaries REDUCE sees. */
  datatype StopPlan = StopPlan(result: StopResult, requests: seq<LlmRequest>, summaries: seq<IntermediateSummary>)

  /** stop_recording after the flush, from the summaries and the chunks
   *  get_all_chunks returns: the early return when both are empty, else
   *  REDUCE and EXTRACT over the summaries FinalSummaries picks. */
  function PlanFinish(config: AppConfig, sconfig: SummarizerConfig, summaries: seq<IntermediateSummary>,
                      pending: seq<Chunk>, llm: LlmRequest -> LlmOutcome, generate: ExtractionRequest -> LlmOutcome,
                      validate: string -> Option<MeetingData>, schemaText: string,
                      summaryStamp: string, fileStamp: string, csvExists: bool, now: Time): (p: StopPlan)
    ensures p.result == NothingToSummarize <==> summaries == [] && pending == []
    ensures p.result == NothingToSummarize ==> p.requests == [] && p.summaries == []
    ensures p.result != NotRecording
  {
    if summaries == [] && pending == [] then StopPlan(NothingToSummarize, [], [])
    else
      var all := FinalSummaries(sconfig, summaries, pending, llm, now);
      SavingOutcome(config, sconfig, all, llm, generate, validate, schemaText, summaryStamp, fileStamp, csvExists);
      StopPlan(Saving(config, sconfig, all, llm, generate, validate, schemaText, summaryStamp, fileStamp, csvExists),
               MapRequests(sconfig, summaries, pending, llm) + GenerateFinalSummary(sconfig, all, llm, summaryStamp).requests,
               all)
  }

  /** stop_recording from the recording flag, the summaries, the buffer's
   *  chunks and current chunk, the flushed transcript and the running flag. */
  function PlanStop(config: AppConfig, sconfig: SummarizerConfig, recording: bool, running: bool,
                    summaries: seq<IntermediateSummary>, chunks: seq<Chunk>, current: seq<Segment>,
                    flushed: string, llm: LlmRequest -> LlmOutcome, generate: ExtractionRequest -> LlmOutcome,
                    validate: string -> Option<MeetingData>, schemaText: string,
                    summaryStamp: string, fileStamp: string, csvExists: bool, now: Time): (p: StopPlan)
    ensures !recording ==> p == StopPlan(NotRecording, [], summaries)
    ensures p.result == NothingToSummarize <==>
      recording && summaries == [] && chunks == [] && Fed(current, flushed, running, now) == []
    ensures p.result == NothingToSummarize ==> p.requests == [] && p.summaries == []
  {
    if !recording then StopPlan(NotRecording, [], summaries)
    else PlanFinish(config, sconfig, summaries, Pending(chunks, Fed(current, flushed, running, now)), llm, generate,
                    validate, schemaText, summaryStamp, fileStamp, csvExists, now)
  }

  /**
   * With summaries already made, the stop path never looks at the buffer:
   * what is still in it, the flushed transcript included, reaches neither
   * the summary nor the data.
   */
  lemma StopIgnoresBufferWithSummaries(config: AppConfig, sconfig: SummarizerConfig, running: bool,
                                       summaries: seq<IntermediateSummary>, chunks: seq<Chunk>,
                                       current: seq<Segment>, flushed: string,
                                       chunks': seq<Chunk>, current': seq<Segment>, flushed': string,
                                       llm: LlmRequest -> LlmOutcome, generate: ExtractionRequest -> LlmOutcome,
                                       validate: string -> Option<MeetingData>, schemaText: string,
                                       summaryStamp: string, fileStamp: string, csvExists: bool, now: Time)
    requires summaries != []
    ensures var p := PlanStop(config, sconfig, true, running, summaries, chunks, current, flushed, llm, generate,
                              validate, schemaText, summaryStamp, fileStamp, csvExists, now);
      && p == PlanStop(config, sconfig, true, running, summaries, chunks', current', flushed', llm, generate,
                       validate, schemaText, summaryStamp, fileStamp, csvExists, now)
      && p.summaries == summaries
      && p.requests == GenerateFinalSummary(sconfig, summaries, llm, summaryStamp).requests
  {
  }

  /**
   * Without summaries, only the latest chunk is summarised: the MAP request
   * (none for a blank chunk) comes before the single REDUCE request, and two
   * buffers whose latest chunks agree stop alike, whatever came before.
   */
  lemma StopSummarizesLatestChunkOnly(config: AppConfig, sconfig: SummarizerConfig, running: bool,
                                      chunks: seq<Chunk>, current: seq<Segment>, flushed: string,
                                      chunks': seq<Chunk>, current': seq<Segment>,
                                      llm: LlmRequest -> LlmOutcome, generate: ExtractionRequest -> LlmOutcome,
                                      validate: string -> Option<MeetingData>, schemaText: string,
                                      summaryStamp: string, fileStamp: string, csvExists: bool, now: Time)
    requires chunks != [] || Fed(current, flushed, running, now) != []
    requires chunks' != [] || Fed(current', flushed, running, now) != []
    requires LatestChunk(chunks, Fed(current, flushed, running, now))
             == LatestChunk(chunks', Fed(current', flushed, running, now))
    ensures var p := PlanStop(config, sconfig, true, running, [], chunks, current, flushed, llm, generate,
                              validate, schemaText, summaryStamp, fileStamp, csvExists, now);
      var text := LatestChunk(chunks, Fed(current, flushed, running, now)).text;
      var s := IntermediateSummary(SummarizeChunk(sconfig, text, llm).text, now);
      && p == PlanStop(config, sconfig, true, running, [], chunks', current', flushed, llm, generate,
                       validate, schemaText, summaryStamp, fileStamp, csvExists, now)
      && p.summaries == [s]
      && p.requests == SummarizeChunk(sconfig, text, llm).requests
                       + [LlmRequest(Render(sconfig.finalSummaryPrompt, "summaries_text", ReduceText([s])),
                                     sconfig.finalSummaryMaxTokens)]
      && (IsBlank(text) ==> |p.requests| == 1)
      && (!IsBlank(text) ==> |p.requests| == 2)
  {
    var pending := Pending(chunks, Fed(current, flushed, running, now));
    var pending' := Pending(chunks', Fed(current', flushed, running, now));
    var text := LatestChunk(chunks, Fed(current, flushed, running, now)).text;
    var g := SummarizeChunk(sconfig, text, llm);
    var s := IntermediateSummary(g.text, now);
    assert pending[|pending| - 1] == pending'[|pending'| - 1];
    assert FinalSummaries(sconfig, [], pending, llm, now) == [s] == FinalSummaries(sconfig, [], pending', llm, now);
    assert MapRequests(sconfig, [], pending, llm) == g.requests == MapRequests(sconfig, [], pending', llm);
  }

  /** When the file stamp is the rendering of a real moment, as strftime's
   *  always is, a stop that has something to summarise writes all files. */
  lemma RealStampSaves(config: AppConfig, sconfig: SummarizerConfig, running: bool,
                       summaries: seq<IntermediateSummary>, chunks: seq<Chunk>, current: seq<Segment>,
                       flushed: string, llm: LlmRequest -> LlmOutcome, generate: ExtractionRequest -> LlmOutcome,
                       validate: string -> Option<MeetingData>, schemaText: string,
                       summaryStamp: string, st: Stamp, csvExists: bool, now: Time)
    requires ValidStamp(st)
    requires summaries != [] || chunks != [] || Fed(current, flushed, running, now) != []
    ensures var p := PlanStop(config, sconfig, true, running, summaries, chunks, current, flushed, llm, generate,
                              validate, schemaText, summaryStamp, StampText(st), csvExists, now);
      && p.result.Saved?
      && p.result.row == FlatRow(p.result.data, StampText(st), st)
  {
    var t := StampText(st);
    ParseStampText(st);
    ParsedHasNoS(t);
    StemTimestampOf(t);
    MainRowIsFlat(ExtractStructuredData(sconfig.modelName,
                    FinalSummaries(sconfig, summaries, Pending(chunks, Fed(current, flushed, running, now)), llm, now),
                    config.dataExtractionPrompt, schemaText, generate, validate).data, t, st);
  }

  // ---------------------------------------------------------------------
  // AudioSummaryApp
  // ---------------------------------------------------------------------

  class AudioSummaryApp {
    const config: AppConfig
    const transcriber: StreamingTranscriber
    const buffer: TranscriptBuffer
    const summarizer: MapReduceSummarizer
    var isRunning: bool
    var isRecording: bool
    /** How many worker threads `threads` holds. */
    var threads: nat
    /** Every request made to the language model, in order. */
    ghost var llmRequests: seq<LlmRequest>

    ghost predicate Valid()
      reads this, transcriber, buffer
    {
      transcriber.Valid() && buffer.Valid()
    }

    /** __init__ with the transcriber the intended selection builds. */
    constructor(config: AppConfig, sconfig: SummarizerConfig, mlxAvailable: bool, parakeetAvailable: bool,
                now: Time)
      requires config.sampleRate > 0
      ensures Valid() && this.config == config
      ensures !isRunning && !isRecording && threads == 0 && llmRequests == []
      ensures var plan := PlanAppTranscriber(config, mlxAvailable, parakeetAvailable);
        && transcriber.engine == Sessions.PlannedEngine(plan) && transcriber.useMock == !plan.available
        && transcriber.sampleRate == config.sampleRate
        && transcriber.minAudioDuration == config.minAudioDuration
        && transcriber.maxAudioDuration == config.maxAudioDuration
        && transcriber.audioBuffer == [] && transcriber.requests == []
      ensures buffer.maxBufferSize == config.maxBufferSize && buffer.chunkDuration == config.chunkDuration
      ensures buffer.added == [] && buffer.chunks == [] && buffer.currentChunk == []
      ensures summarizer.config == sconfig && summarizer.intermediateSummaries == []
      ensures fresh(transcriber) && fresh(buffer) && fresh(summarizer)
    {
      this.config := config;
      buffer := new TranscriptBuffer(config.maxBufferSize, config.chunkDuration, now);
      summarizer := new MapReduceSummarizer(sconfig);
      if config.sttBackend == "parakeet" {
        transcriber := new StreamingTranscriber.ForParakeet(config.parakeetModelPath, config.minAudioDuration,
                                                            config.maxAudioDuration, config.sampleRate,
                                                            parakeetAvailable);
      } else {
        transcriber := new StreamingTranscriber.ForWhisper(config.sttModelPath, config.minAudioDuration,
                                                           config.maxAudioDuration, config.sampleRate,
                                                           mlxAvailable);
      }
      isRunning := false;
      isRecording := false;
      threads := 0;
      llmRequests := [];
    }

    /** start: ignored while running; otherwise running, with the
     *  transcription and summary workers. */
    method Start() returns (started: bool)
      modifies this
      ensures started <==> !old(isRunning)
      ensures isRunning && isRecording == old(isRecording) && llmRequests == old(llmRequests)
      ensures threads == if started then 2 else old(threads)
    {
      if isRunning {
        return false;
      }
      isRunning := true;
      threads := 2;
      started := true;
    }

    /** start_recording: ignored while recording; capture itself is not
     *  modelled. */
    method StartRecording() returns (started: bool)
      modifies this
      ensures started <==> !old(isRecording)
      ensures isRecording && isRunning == old(isRunning) && threads == old(threads)
      ensures llmRequests == old(llmRequests)
    {
      if isRecording {
        return false;
      }
      isRecording := true;
      started := true;
    }

    /**
     * stop_recording: ignored when not recording. Otherwise recording ends,
     * the transcriber's buffer is flushed and its text fed to the buffer;
     * without summaries the latest chunk is summarised (or, with no chunk
     * at all, stop returns); then REDUCE, EXTRACT, the summary and data
     * files and the CSV row; only after all three are the buffer and the
     * summaries cleared.
     */
    method StopRecording(stt: seq<Sample> -> SttOutcome, loadSucceeds: bool, llm: LlmRequest -> LlmOutcome,
                         generate: ExtractionRequest -> LlmOutcome, validate: string -> Option<MeetingData>,
                         schemaText: string, summaryStamp: string, fileStamp: string, csvExists: bool, now: Time)
      returns (out: StopResult)
      requires Valid()
      modifies this`isRecording, this`llmRequests, transcriber, buffer, summarizer
      ensures Valid()
      ensures !isRecording
      ensures var p := old(PlanStop(config, summarizer.config, isRecording, isRunning,
                                    summarizer.intermediateSummaries, buffer.chunks, buffer.currentChunk,
                                    transcriber.Flushed(stt, loadSucceeds).text, llm, generate, validate,
                                    schemaText, summaryStamp, fileStamp, csvExists, now));
        && out == p.result
        && llmRequests == old(llmRequests) + p.requests
        && (!old(isRecording) ==> unchanged(transcriber) && unchanged(buffer) && unchanged(summarizer))
        && (old(isRecording) ==>
              var f := old(transcriber.Flushed(stt, loadSucceeds));
              var idle := old(summarizer.intermediateSummaries) == [] && old(buffer.chunks) == []
                          && Fed(old(buffer.currentChunk), f.text, old(isRunning), now) == [];
              && Concat(transcriber.audioBuffer) == []
              && transcriber.requests == old(transcriber.requests) + f.sent
              && (idle ==> buffer.added == [] && summarizer.intermediateSummaries == [])
              && (!idle && StemParses(fileStamp) ==>
                    && buffer.segments == [] && buffer.chunks == [] && buffer.currentChunk == []
                    && buffer.added == [] && summarizer.intermediateSummaries == [])
              && (!idle && !StemParses(fileStamp) ==>
                    && buffer.added == old(buffer.added) + FedSegments(f.text, old(isRunning), now)
                    && summarizer.intermediateSummaries == p.summaries))
    {
      if !isRecording {
        return NotRecording;
      }
      isRecording := false;
      var requests;
      out, requests := StopActive(stt, loadSucceeds, llm, generate, validate, schemaText, summaryStamp, fileStamp,
                                  csvExists, now);
      llmRequests := llmRequests + requests;
    }

    /** stop_recording once the flag is cleared: the flush, then the
     *  summaries, the files and the row, with the requests made. */
    method StopActive(stt: seq<Sample> -> SttOutcome, loadSucceeds: bool, llm: LlmRequest -> LlmOutcome,
                      generate: ExtractionRequest -> LlmOutcome, validate: string -> Option<MeetingData>,
                      schemaText: string, summaryStamp: string, fileStamp: string, csvExists: bool, now: Time)
      returns (out: StopResult, requests: seq<LlmRequest>)
      requires Valid()
      modifies transcriber, buffer, summarizer
      ensures Valid()
      ensures var p := old(PlanStop(config, summarizer.config, true, isRunning,
                                    summarizer.intermediateSummaries, buffer.chunks, buffer.currentChunk,
                                    transcriber.Flushed(stt, loadSucceeds).text, llm, generate, validate,
                                    schemaText, summaryStamp, fileStamp, csvExists, now));
        var f := old(transcriber.Flushed(stt, loadSucceeds));
        var idle := old(summarizer.intermediateSummaries) == [] && old(buffer.chunks) == []
                    && Fed(old(buffer.currentChunk), f.text, old(isRunning), now) == [];
        && out == p.result
        && requests == p.requests
        && Concat(transcriber.audioBuffer) == []
        && transcriber.requests == old(transcriber.requests) + f.sent
        && (idle ==> buffer.added == [] && summarizer.intermediateSummaries == [])
        && (!idle && StemParses(fileStamp) ==>
              && buffer.segments == [] && buffer.chunks == [] && buffer.currentChunk == []
              && buffer.added == [] && summarizer.intermediateSummaries == [])
        && (!idle && !StemParses(fileStamp) ==>
              && buffer.added == old(buffer.added) + FedSegments(f.text, old(isRunning), now)
              && summarizer.intermediateSummaries == p.summaries)
    {
      ghost var summaries0 := summarizer.intermediateSummaries;
      ghost var fed := Fed(buffer.currentChunk, transcriber.Flushed(stt, loadSucceeds).text, isRunning, now);
      ghost var pending := Pending(buffer.chunks, fed);
      var remaining := Flush(stt, loadSucceeds, isRunning, now);
      ghost var audio, sent := transcriber.audioBuffer, transcriber.requests;
      out, requests := FinishRecording(llm, generate, validate, schemaText, summaryStamp, fileStamp, csvExists, now,
                                       summaries0, pending);
      assert transcriber.audioBuffer == audio && transcriber.requests == sent;
    }

    /** stop_recording after the flush: the summaries for REDUCE, then the
     *  files and the row, with the requests made. `summaries0` and `pending0`
     *  name the summaries and the chunks get_all_chunks will return. */
    method FinishRecording(llm: LlmRequest -> LlmOutcome, generate: ExtractionRequest -> LlmOutcome,
                           validate: string -> Option<MeetingData>, schemaText: string, summaryStamp: string,
                           fileStamp: string, csvExists: bool, now: Time,
                           ghost summaries0: seq<IntermediateSummary>, ghost pending0: seq<Chunk>)
      returns (out: StopResult, requests: seq<LlmRequest>)
      requires Valid()
      requires summarizer.intermediateSummaries == summaries0
      requires Pending(buffer.chunks, buffer.currentChunk) == pending0
      modifies buffer, summarizer
      ensures Valid()
      ensures var p := PlanFinish(config, summarizer.config, summaries0, pending0, llm, generate, validate,
                                  schemaText, summaryStamp, fileStamp, csvExists, now);
        var idle := summaries0 == [] && pending0 == [];
        && out == p.result
        && requests == p.requests
        && (idle ==> buffer.added == [] && summarizer.intermediateSummaries == [])
        && (!idle && StemParses(fileStamp) ==>
              && buffer.segments == [] && buffer.chunks == [] && buffer.currentChunk == []
              && buffer.added == [] && summarizer.intermediateSummaries == [])
        && (!idle && !StemParses(fileStamp) ==>
              buffer.added == old(buffer.added) && summarizer.intermediateSummaries == p.summaries)
    {
      ghost var p := PlanFinish(config, summarizer.config, summaries0, pending0, llm, generate, validate,
                                schemaText, summaryStamp, fileStamp, csvExists, now);
      var nothing, mapRequests := FinishSummaries(llm, now);
      if nothing {
        return NothingToSummarize, [];
      }
      assert summarizer.intermediateSummaries == p.summaries;
      var reduceRequests;
      out, reduceRequests := Conclude(llm, generate, validate, schemaText, summaryStamp, fileStamp, csvExists, now);
      assert out == p.result;
      requests := mapRequests + reduceRequests;
    }

    /** The summaries stop_recording hands to REDUCE: without any, the latest
     *  chunk get_all_chunks returns is summarised and added, whatever its
     *  summary; with no chunk either, there is nothing to summarise. */
    method FinishSummaries(llm: LlmRequest -> LlmOutcome, now: Time) returns (nothing: bool, requests: seq<LlmRequest>)
      requires Valid()
      modifies buffer, summarizer
      ensures Valid()
      ensures buffer.added == old(buffer.added) && buffer.segments == old(buffer.segments)
      ensures var pending := Pending(old(buffer.chunks), old(buffer.currentChunk));
        && (nothing <==> old(summarizer.intermediateSummaries) == [] && pending == [])
        && (nothing ==> summarizer.intermediateSummaries == [] && buffer.added == [] && requests == [])
        && (!nothing ==>
              && summarizer.intermediateSummaries
                 == FinalSummaries(summarizer.config, old(summarizer.intermediateSummaries), pending, llm, now)
              && requests == MapRequests(summarizer.config, old(summarizer.intermediateSummaries), pending, llm))
    {
      var summaries := summarizer.intermediateSummaries;
      ghost var pending := Pending(buffer.chunks, buffer.currentChunk);
      if summaries != [] {
        assert FinalSummaries(summarizer.config, summaries, pending, llm, now) == summaries;
        assert MapRequests(summarizer.config, summaries, pending, llm) == [];
        return false, [];
      }
      var chunks := buffer.GetAllChunks(now);
      assert chunks == pending;
      if chunks == [] {
        return true, [];
      }
      var g := SummarizeChunk(summarizer.config, chunks[|chunks| - 1].text, llm);
      assert FinalSummaries(summarizer.config, [], pending, llm, now) == [IntermediateSummary(g.text, now)];
      assert MapRequests(summarizer.config, [], pending, llm) == g.requests;
      summarizer.AddIntermediateSummary(g.text, now);
      nothing, requests := false, g.requests;
    }

    /** The flush of stop_recording: the transcriber's remaining audio is
     *  recognised and its text, when there is any and the summary worker
     *  runs, added to the buffer. */
    method Flush(stt: seq<Sample> -> SttOutcome, loadSucceeds: bool, running: bool, now: Time) returns (remaining: string)
      requires Valid()
      modifies transcriber, buffer
      ensures Valid()
      ensures remaining == old(transcriber.Flushed(stt, loadSucceeds)).text
      ensures Concat(transcriber.audioBuffer) == []
      ensures transcriber.requests == old(transcriber.requests) + old(transcriber.Flushed(stt, loadSucceeds)).sent
      ensures buffer.added == old(buffer.added) + FedSegments(remaining, running, now)
      ensures Pending(buffer.chunks, buffer.currentChunk)
              == Pending(old(buffer.chunks), Fed(old(buffer.currentChunk), remaining, running, now))
    {
      ghost var current0 := buffer.currentChunk;
      remaining := transcriber.FlushBuffer(stt, loadSucceeds);
      FlushedAudioNonEmpty(transcriber.audioBuffer, transcriber.sampleRate);
      if remaining != "" && running {
        buffer.AddSegment(remaining, "mixed", now);
        assert Fed(current0, remaining, running, now) == current0 + [Segment(remaining, now, "mixed")];
      } else {
        assert Fed(current0, remaining, running, now) == current0;
      }
    }

    /** The rest of stop_recording once the summaries are final: REDUCE,
     *  EXTRACT and the three files; the buffer and the summaries are cleared
     *  only when all three were written. */
    method Conclude(llm: LlmRequest -> LlmOutcome, generate: ExtractionRequest -> LlmOutcome,
                    validate: string -> Option<MeetingData>, schemaText: string, summaryStamp: string,
                    fileStamp: string, csvExists: bool, now: Time)
      returns (out: StopResult, requests: seq<LlmRequest>)
      requires Valid()
      modifies buffer, summarizer
      ensures Valid()
      ensures out == Saving(config, summarizer.config, old(summarizer.intermediateSummaries), llm, generate,
                            validate, schemaText, summaryStamp, fileStamp, csvExists)
      ensures requests == GenerateFinalSummary(summarizer.config, old(summarizer.intermediateSummaries), llm,
                                               summaryStamp).requests
      ensures StemParses(fileStamp) ==>
        && buffer.segments == [] && buffer.chunks == [] && buffer.currentChunk == [] && buffer.added == []
        && summarizer.intermediateSummaries == []
      ensures !StemParses(fileStamp) ==> unchanged(buffer) && unchanged(summarizer)
    {
      var all := summarizer.intermediateSummaries;
      var final := GenerateFinalSummary(summarizer.config, all, llm, summaryStamp);
      requests := final.requests;
      out := Saving(config, summarizer.config, all, llm, generate, validate, schemaText, summaryStamp,
                    fileStamp, csvExists);
      // The clears are reached only when _append_to_csv did not raise.
      if StemParses(fileStamp) {
        buffer.Clear(now);
        summarizer.ClearIntermediateSummaries();
      }
    }

    /** stop: a recording in progress is stopped first; then the application
     *  stops running. */
    method Stop(stt: seq<Sample> -> SttOutcome, loadSucceeds: bool, llm: LlmRequest -> LlmOutcome,
                generate: ExtractionRequest -> LlmOutcome, validate: string -> Option<MeetingData>,
                schemaText: string, summaryStamp: string, fileStamp: string, csvExists: bool, now: Time)
      returns (out: StopResult)
      requires Valid()
      modifies this, transcriber, buffer, summarizer
      ensures Valid()
      ensures var p := old(PlanStop(config, summarizer.config, isRecording, isRunning,
                                    summarizer.intermediateSummaries, buffer.chunks, buffer.currentChunk,
                                    transcriber.Flushed(stt, loadSucceeds).text, llm, generate, validate,
                                    schemaText, summaryStamp, fileStamp, csvExists, now));
        && out == p.result
        && llmRequests == old(llmRequests) + p.requests
      ensures !isRunning && !isRecording
      ensures !old(isRecording) ==>
        && out == NotRecording && unchanged(transcriber) && unchanged(buffer) && unchanged(summarizer)
    {
      out := NotRecording;
      if isRecording {
        out := StopRecording(stt, loadSucceeds, llm, generate, validate, schemaText, summaryStamp, fileStamp,
                             csvExists, now);
      }
      isRunning := false;
    }
  }
}
