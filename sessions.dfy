/**
 * The engine's session manager (engine/session_manager.py): a table of
 * transcription sessions keyed by id, each owning a transcriber, a transcript
 * buffer and a map-reduce summariser, with its status moving from "active"
 * through "processing" to "stopped".
 *
 * The session code calls four transcript-buffer operations that
 * transcript_buffer.py does not define; they are the caller-supplied
 * `BufferOps` of module Transcripts, over a `BufferView` value holding the
 * buffer's fields. Only `get_full_transcript`, which does exist, has a
 * definition.
 */
module Sessions {
  import opened Wrappers
  import opened Seqs
  import opened Text
  import opened Transcriber
  import opened Transcripts
  import opened Summarizer

  datatype Status = Active | Processing | Stopped

  /** The status word the engine reports. */
  function StatusName(s: Status): string
  {
    match s
    case Active => "active"
    case Processing => "processing"
    case Stopped => "stopped"
  }

  datatype SessionConfig = SessionConfig(
    sessionId: string, sttBackend: string, sttModelPath: string, captureSampleRate: int,
    llmModelName: string, chunkSummaryPrompt: string, finalSummaryPrompt: string,
    dataExtractionPrompt: string, outputDir: string, csvExportPath: string, appendCsv: bool,
    chunkDuration: int, chunkSummaryMaxTokens: int, finalSummaryMaxTokens: int,
    minAudioDuration: real, maxAudioDuration: real)

  datatype SessionError =
    | SessionAlreadyActive(activeId: string)
    | DuplicateSessionId(sessionId: string)
    | InvalidBackend(backend: string)
    | BackendUnavailable(message: string)
      /** A transcriber constructor rejected a keyword argument. */
    | TranscriberTypeError(keyword: string)
    | SessionNotFound(sessionId: string)
      /** Audio for a session that is no longer active (engine/server.py). */
    | SessionNotActive(sessionId: string, status: Status)

  const WhisperUnavailableMessage: string :=
    "STT_BACKEND_UNAVAILABLE: MLX Whisper is not available and mock backends are not allowed in production mode"
  const ParakeetUnavailableMessage: string :=
    "STT_BACKEND_UNAVAILABLE: Parakeet MLX is not available and mock backends are not allowed in production mode"

  /** The ring size every session's transcript buffer is created with. */
  const SessionBufferSize: nat := 2000

  /** A freshly constructed TranscriptBuffer. */
  function EmptyBuffer(chunkDuration: int, now: Time): BufferView
  {
    BufferView([], [], [], now, SessionBufferSize, chunkDuration)
  }

  /** The recogniser, the language model, the structured-output generator,
   *  the schema validator and the schema text. */
  datatype Backends = Backends(
    stt: seq<Sample> -> SttOutcome, loadSucceeds: bool,
    llm: LlmRequest -> LlmOutcome,
    generate: ExtractionRequest -> LlmOutcome, validate: string -> Option<MeetingData>,
    schemaText: string)

  /** The transcriber create_session decides to build. */
  datatype TranscriberPlan =
    | WhisperPlan(modelPath: string, minAudioDuration: real, maxAudioDuration: real,
                  captureSampleRate: int, available: bool)
    | ParakeetPlan(modelPath: string, minAudioDuration: real, maxAudioDuration: real,
                   sampleRate: int, available: bool)

  /**
   * _create_transcriber: the lowercased backend name selects Whisper or
   * Parakeet, with the configured model path, durations and capture rate;
   * any other name is invalid; in "prod" mode a backend whose library is
   * missing (so that it would run its mock) is refused.
   */
  function PlanTranscriber(config: SessionConfig, runtimeMode: string, mlxAvailable: bool,
                           parakeetAvailable: bool): (r: Result<TranscriberPlan, SessionError>)
    ensures var backend := ToLower(config.sttBackend);
      && (r.Ok? <==> (backend == "whisper" && (runtimeMode != "prod" || mlxAvailable))
                     || (backend == "parakeet" && (runtimeMode != "prod" || parakeetAvailable)))
      && (r == Err(InvalidBackend(backend)) <==> backend != "whisper" && backend != "parakeet")
      && (r.Err? && backend == "whisper" ==> r.error == BackendUnavailable(WhisperUnavailableMessage))
      && (r.Err? && backend == "parakeet" ==> r.error == BackendUnavailable(ParakeetUnavailableMessage))
    ensures r.Ok? ==>
      && r.value.modelPath == config.sttModelPath
      && r.value.minAudioDuration == config.minAudioDuration
      && r.value.maxAudioDuration == config.maxAudioDuration
      && (r.value.WhisperPlan? ==> r.value.captureSampleRate == config.captureSampleRate && r.value.available == mlxAvailable)
      && (r.value.ParakeetPlan? ==> r.value.sampleRate == config.captureSampleRate && r.value.available == parakeetAvailable)
  {
    var backend := ToLower(config.sttBackend);
    if backend == "whisper" then
      if runtimeMode == "prod" && !mlxAvailable then Err(BackendUnavailable(WhisperUnavailableMessage))
      else Ok(WhisperPlan(config.sttModelPath, config.minAudioDuration, config.maxAudioDuration,
                          config.captureSampleRate, mlxAvailable))
    else if backend == "parakeet" then
      if runtimeMode == "prod" && !parakeetAvailable then Err(BackendUnavailable(ParakeetUnavailableMessage))
      else Ok(ParakeetPlan(config.sttModelPath, config.minAudioDuration, config.maxAudioDuration,
                           config.captureSampleRate, parakeetAvailable))
    else Err(InvalidBackend(backend))
  }

  /** _create_transcriber as written: the Parakeet constructor is called with
   *  the keyword `capture_sample_rate`, which it does not accept, so it raises
   *  before the production check is reached. */
  function PlanTranscriberAsWritten(config: SessionConfig, runtimeMode: string, mlxAvailable: bool,
                                    parakeetAvailable: bool): Result<TranscriberPlan, SessionError>
  {
    if ToLower(config.sttBackend) == "parakeet" then Err(TranscriberTypeError("capture_sample_rate"))
    else PlanTranscriber(config, runtimeMode, mlxAvailable, parakeetAvailable)
  }

  /** As written, no Parakeet session can ever be created, although outside
   *  "prod" mode (or with Parakeet installed) the intended selection succeeds;
   *  for every other backend name the two agree. */
  lemma ParakeetNeverStartsAsWritten(config: SessionConfig, runtimeMode: string, mlxAvailable: bool,
                                     parakeetAvailable: bool)
    ensures ToLower(config.sttBackend) == "parakeet" ==>
      && PlanTranscriberAsWritten(config, runtimeMode, mlxAvailable, parakeetAvailable).Err?
      && (runtimeMode != "prod" || parakeetAvailable ==>
            PlanTranscriber(config, runtimeMode, mlxAvailable, parakeetAvailable).Ok?)
    ensures ToLower(config.sttBackend) != "parakeet" ==>
      PlanTranscriberAsWritten(config, runtimeMode, mlxAvailable, parakeetAvailable)
        == PlanTranscriber(config, runtimeMode, mlxAvailable, parakeetAvailable)
  {
  }

  /** The engine a planned transcriber drives. */
  function PlannedEngine(plan: TranscriberPlan): Engine
  {
    match plan
    case WhisperPlan(path, _, _, _, _) => Engine.Whisper(ModelRepo(path))
    case ParakeetPlan(path, _, _, _, _) => Engine.Parakeet(path)
  }

  function PlannedRate(plan: TranscriberPlan): int
  {
    match plan
    case WhisperPlan(_, _, _, rate, _) => rate
    case ParakeetPlan(_, _, _, rate, _) => rate
  }

  /** The summariser configuration create_session builds from a session's. */
  function SummarizerConfigOf(config: SessionConfig): SummarizerConfig
  {
    NewConfig(config.llmModelName, config.chunkDuration, config.chunkSummaryMaxTokens,
              config.finalSummaryMaxTokens, Some(config.chunkSummaryPrompt), Some(config.finalSummaryPrompt))
  }

  /** No summary in the list is empty. */
  predicate NonBlankSummaries(ss: seq<IntermediateSummary>)
  {
    forall i :: 0 <= i < |ss| ==> ss[i].summary != ""
  }

  /** The effect of one MAP attempt: the buffer afterwards, the LLM requests
   *  made, and the summary to append, if any. */
  datatype MapOutcome = MapOutcome(buffer: BufferView, requests: seq<LlmRequest>, summary: Option<string>)

  /**
   * Summarising a chunk the buffer handed over: an empty chunk is skipped, a
   * chunk summary is appended only when it is non-empty.
   */
  function SummarizeTaken(config: SummarizerConfig, taken: Taken, llm: LlmRequest -> LlmOutcome): (m: MapOutcome)
    ensures m.buffer == taken.rest
    ensures m.requests == SummarizeChunk(config, taken.text, llm).requests
    ensures m.requests != [] <==> !IsBlank(taken.text)
    ensures m.summary.Some? ==> m.summary.value != "" && m.summary.value == SummarizeChunk(config, taken.text, llm).text
    ensures m.summary.None? ==> SummarizeChunk(config, taken.text, llm).text == ""
  {
    if taken.text == "" then
      assert IsBlank(taken.text);
      MapOutcome(taken.rest, [], None)
    else
      var g := SummarizeChunk(config, taken.text, llm);
      MapOutcome(taken.rest, g.requests, if g.text != "" then Some(g.text) else None)
  }

  /** The MAP step of add_audio_chunk after transcription. */
  function MapStep(config: SummarizerConfig, view: BufferView, transcript: string, ops: BufferOps,
                   llm: LlmRequest -> LlmOutcome, now: Time): (m: MapOutcome)
    ensures transcript == "" ==> m == MapOutcome(view, [], None)
    ensures transcript != "" && !ops.shouldSummarize(ops.add(view, transcript, "capture", now)) ==>
      m == MapOutcome(ops.add(view, transcript, "capture", now), [], None)
    ensures m.requests != [] ==>
      var chunk := ops.getChunkForSummary(ops.add(view, transcript, "capture", now));
      && transcript != "" && ops.shouldSummarize(ops.add(view, transcript, "capture", now))
      && !IsBlank(chunk.text)
      && m.requests == [LlmRequest(Render(config.chunkSummaryPrompt, "text", chunk.text), config.chunkSummaryMaxTokens)]
    ensures m.summary.Some? ==> m.summary.value != "" && |m.requests| == 1
  {
    if transcript == "" then MapOutcome(view, [], None)
    else
      var added := ops.add(view, transcript, "capture", now);
      if !ops.shouldSummarize(added) then MapOutcome(added, [], None)
      else SummarizeTaken(config, ops.getChunkForSummary(added), llm)
  }

  /** Steps 1 and 2 of stop_session: the flushed text (when non-empty) goes
   *  into the buffer, whose forcibly finalised chunk is then summarised. */
  function FinalMapStep(config: SummarizerConfig, view: BufferView, flushed: string, ops: BufferOps,
                        llm: LlmRequest -> LlmOutcome, now: Time): (m: MapOutcome)
    ensures var before := if flushed == "" then view else ops.add(view, flushed, "capture", now);
      var chunk := ops.forceFinalizeChunk(before);
      && m.buffer == chunk.rest
      && (m.requests != [] <==> !IsBlank(chunk.text))
      && (m.summary.Some? ==> m.summary.value != "" && |m.requests| == 1)
  {
    var before := if flushed == "" then view else ops.add(view, flushed, "capture", now);
    SummarizeTaken(config, ops.forceFinalizeChunk(before), llm)
  }

  /** The entry appended for an optional summary. */
  function Entry(summary: Option<string>, now: Time): seq<IntermediateSummary>
  {
    if summary.Some? then [IntermediateSummary(summary.value, now)] else []
  }

  datatype SessionOutcome = Completed | InsufficientContent

  function OutcomeName(o: SessionOutcome): string
  {
    match o
    case Completed => "completed"
    case InsufficientContent => "insufficient_content"
  }

  const InsufficientContentMessage: string :=
    "No usable call audio was captured from the target app. Please check your capture configuration."

  /** Too little was said to be worth a summary: under 50 characters or
   *  under 10 words. */
  predicate LowContent(full: string)
  {
    |full| < 50 || WordCount(full) < 10
  }

  /** What the end of stop_session produces: the outcome, the final summary,
   *  the structured record, the summaries afterwards and the requests made. */
  datatype Conclusion = Conclusion(outcome: SessionOutcome, finalSummary: string, data: MeetingData,
                                   summaries: seq<IntermediateSummary>, requests: seq<LlmRequest>,
                                   extractions: seq<ExtractionRequest>)

  /**
   * Steps 3 to 5 of stop_session. With no intermediate summary and too little
   * transcript, the canned message and the empty record, without any call.
   * With no intermediate summary but enough transcript, the full transcript is
   * first summarised as one more chunk (appended when non-empty). Then REDUCE
   * and EXTRACT run over the summaries.
   */
  function Conclude(config: SummarizerConfig, summaries: seq<IntermediateSummary>, full: string,
                    extractionPrompt: string, be: Backends, now: Time, stamp: string): (c: Conclusion)
    ensures c.outcome == InsufficientContent <==> summaries == [] && LowContent(full)
    ensures c.outcome == InsufficientContent ==>
      c == Conclusion(InsufficientContent, InsufficientContentMessage, EmptyMeetingData, summaries, [], [])
  {
    if summaries == [] && LowContent(full) then
      Conclusion(InsufficientContent, InsufficientContentMessage, EmptyMeetingData, summaries, [], [])
    else if summaries == [] then
      var g := SummarizeChunk(config, full, be.llm);
      ReduceExtract(config, Entry(NonEmpty(g.text), now), extractionPrompt, be, stamp, g.requests)
    else
      ReduceExtract(config, summaries, extractionPrompt, be, stamp, [])
  }

  /** A summary worth keeping. */
  function NonEmpty(s: string): Option<string>
  {
    if s != "" then Some(s) else None
  }

  /** REDUCE and EXTRACT over the final list of summaries, after the
   *  requests already made. */
  function ReduceExtract(config: SummarizerConfig, all: seq<IntermediateSummary>, extractionPrompt: string,
                         be: Backends, stamp: string, earlier: seq<LlmRequest>): Conclusion
  {
    var reduce := GenerateFinalSummary(config, all, be.llm, stamp);
    var extract := ExtractStructuredData(config.modelName, all, extractionPrompt, be.schemaText,
                                         be.generate, be.validate);
    Conclusion(Completed, reduce.text, extract.data, all, earlier + reduce.requests, extract.requests)
  }

  /** A completed stop keeps every earlier summary, adds at most the one made
   *  from the full transcript (only when there was none), and its summary and
   *  record are REDUCE and EXTRACT over the summaries that result. */
  lemma ConcludeCompleted(config: SummarizerConfig, summaries: seq<IntermediateSummary>, full: string,
                          extractionPrompt: string, be: Backends, now: Time, stamp: string)
    requires !(summaries == [] && LowContent(full))
    ensures var c := Conclude(config, summaries, full, extractionPrompt, be, now, stamp);
      var x := ExtractStructuredData(config.modelName, c.summaries, extractionPrompt, be.schemaText,
                                     be.generate, be.validate);
      && c.outcome == Completed
      && IsPrefix(summaries, c.summaries) && |c.summaries| <= |summaries| + 1
      && (summaries != [] ==> c.summaries == summaries)
      && c.finalSummary == GenerateFinalSummary(config, c.summaries, be.llm, stamp).text
      && c.data == x.data && c.extractions == x.requests
  {
    var c := Conclude(config, summaries, full, extractionPrompt, be, now, stamp);
    assert c.summaries[..|summaries|] == summaries;
  }

  /** With no summary yet but enough transcript, the first request made at
   *  stop time summarises the full transcript as a chunk. */
  lemma ConcludeSynthesizes(config: SummarizerConfig, full: string, extractionPrompt: string, be: Backends,
                            now: Time, stamp: string)
    requires !LowContent(full)
    ensures var c := Conclude(config, [], full, extractionPrompt, be, now, stamp);
      c.requests != []
      && c.requests[0] == LlmRequest(Render(config.chunkSummaryPrompt, "text", full), config.chunkSummaryMaxTokens)
  {
    assert !IsBlank(full) by {
      if IsBlank(full) {
        NoWordsIffBlank(full);
      }
    }
  }

  /** What stop_session returns: "already_stopped" with no paths, or "ok" with
   *  the summary and data file paths under the output directory, the CSV path when a row was appended,
   *  the outcome and the contents written. */
  datatype StopReport =
    | AlreadyStopped
    | Finished(summaryFile: string, dataFile: string, csvFile: Option<string>, outcome: SessionOutcome,
               summaryText: string, data: MeetingData)

  /** Everything one stop of an unstopped session does, from its state before. */
  datatype StopPlan = StopPlan(flush: Recognition, finalMap: MapOutcome, conclusion: Conclusion, report: StopReport)

  /** The whole of stopping a session that is not yet stopped, from its
   *  configuration, its buffer, its summaries and what flushing its
   *  transcriber gives; `stamp` renders the clock for the summary header and
   *  `fileStamp` for the file names. */
  function PlanStop(config: SessionConfig, sconfig: SummarizerConfig, view: BufferView,
                    summaries: seq<IntermediateSummary>, flush: Recognition, be: Backends, ops: BufferOps,
                    now: Time, stamp: string, fileStamp: string, csvWritten: bool): StopPlan
  {
    var m := FinalMapStep(sconfig, view, flush.text, ops, be.llm, now);
    var c := Conclude(sconfig, summaries + Entry(m.summary, now), FullTranscript(m.buffer.segments),
                      config.dataExtractionPrompt, be, now, stamp);
    StopPlan(flush, m, c,
             Finished(config.outputDir + "/summary_" + fileStamp + ".txt",
                      config.outputDir + "/data_" + fileStamp + ".json",
                      if config.appendCsv && csvWritten then Some(config.csvExportPath) else None,
                      c.outcome, c.finalSummary, c.data))
  }

  /**
   * A stop always finishes with the two file names under the file stamp and
   * the CSV path exactly when a row was appended; it keeps every earlier
   * summary and adds at most one; it is "insufficient_content" exactly when
   * no summary exists after the final chunk and the transcript is too short.
   */
  lemma PlanStopReport(config: SessionConfig, sconfig: SummarizerConfig, view: BufferView,
                       summaries: seq<IntermediateSummary>, flush: Recognition, be: Backends, ops: BufferOps,
                       now: Time, stamp: string, fileStamp: string, csvWritten: bool)
    ensures var p := PlanStop(config, sconfig, view, summaries, flush, be, ops, now, stamp, fileStamp, csvWritten);
      && p.report.Finished?
      && p.report.summaryFile == config.outputDir + "/summary_" + fileStamp + ".txt"
      && p.report.dataFile == config.outputDir + "/data_" + fileStamp + ".json"
      && (p.report.csvFile.Some? <==> config.appendCsv && csvWritten)
      && p.report.outcome == p.conclusion.outcome
      && IsPrefix(summaries, p.conclusion.summaries) && |p.conclusion.summaries| <= |summaries| + 1
      && (p.conclusion.outcome == InsufficientContent <==>
            summaries == [] && p.finalMap.summary.None? && LowContent(FullTranscript(p.finalMap.buffer.segments)))
  {
    var p := PlanStop(config, sconfig, view, summaries, flush, be, ops, now, stamp, fileStamp, csvWritten);
    var s1 := summaries + Entry(p.finalMap.summary, now);
    var full := FullTranscript(p.finalMap.buffer.segments);
    assert s1[..|summaries|] == summaries;
    if !(s1 == [] && LowContent(full)) {
      ConcludeCompleted(sconfig, s1, full, config.dataExtractionPrompt, be, now, stamp);
      assert p.conclusion.summaries[..|summaries|] == s1[..|s1|][..|summaries|];
    }
  }

  // ---------------------------------------------------------------------
  // The buffer calls as written
  // ---------------------------------------------------------------------

  /** How stop_session ends as written: with a report and the status it
   *  leaves, or with the exception it raises and the status it leaves. */
  datatype StopAsWritten =
    | StopReturned(report: StopReport, left: Status)
    | StopRaised(message: string, left: Status)

  /**
   * stop_session as written, on a session with status `status` whose
   * transcriber flushes to `finalTranscript`; `proceed` is what the rest of
   * the method would report if the buffer had both methods it calls. A
   * stopped session is reported as such. Any other is marked "processing",
   * then `add` (for a non-empty flush) and `force_finalize_chunk` are looked
   * up on the buffer, and nothing restores the status if one raises.
   */
  function StopSessionAsWritten(status: Status, finalTranscript: string, proceed: StopReport): StopAsWritten
  {
    if status == Stopped then StopReturned(AlreadyStopped, Stopped)
    else if finalTranscript != "" && LookupAsWritten("add").Some? then
      StopRaised(LookupAsWritten("add").value, Processing)
    else if LookupAsWritten("force_finalize_chunk").Some? then
      StopRaised(LookupAsWritten("force_finalize_chunk").value, Processing)
    else StopReturned(proceed, Stopped)
  }

  /** As written, stopping a session that is not stopped always raises
   *  AttributeError and leaves it "processing", and so does every later
   *  attempt: it never reaches "stopped", where Session.Stop ends. */
  lemma StopNeverFinishesAsWritten(status: Status, finalTranscript: string, proceed: StopReport,
                                   laterTranscript: string, laterProceed: StopReport)
    requires status != Stopped
    ensures var a := StopSessionAsWritten(status, finalTranscript, proceed);
      && a == StopRaised(MissingMethodMessage(if finalTranscript != "" then "add" else "force_finalize_chunk"),
                         Processing)
      && StatusName(a.left) == "processing"
      && StopSessionAsWritten(a.left, laterTranscript, laterProceed).StopRaised?
  {
    BufferOpsMissingAsWritten("add");
    BufferOpsMissingAsWritten("force_finalize_chunk");
  }

  /** The MAP step of add_audio_chunk as written, after the counters and the
   *  transcriber have been updated: an empty transcript is returned, a
   *  non-empty one makes the `add` lookup raise, so the text (already taken
   *  out of the transcriber's buffer) reaches neither the transcript buffer
   *  nor the caller. `proceed` is the MAP step the buffer methods would give. */
  function MapStepAsWritten(view: BufferView, transcript: string, proceed: MapOutcome): Result<MapOutcome, string>
  {
    if transcript == "" then Ok(MapOutcome(view, [], None))
    else if LookupAsWritten("add").Some? then Err(LookupAsWritten("add").value)
    else Ok(proceed)
  }

  /** As written, the MAP step agrees with MapStep exactly when there is no
   *  text, and raises AttributeError on every non-empty transcript. */
  lemma TranscriptRaisesAsWritten(config: SummarizerConfig, view: BufferView, transcript: string, ops: BufferOps,
                                  llm: LlmRequest -> LlmOutcome, now: Time)
    ensures var m := MapStepAsWritten(view, transcript, MapStep(config, view, transcript, ops, llm, now));
      && (transcript == "" ==> m == Ok(MapStep(config, view, transcript, ops, llm, now)))
      && (transcript != "" ==> m == Err(MissingMethodMessage("add")))
  {
    BufferOpsMissingAsWritten("add");
  }

  class Session {
    const config: SessionConfig
    const transcriber: StreamingTranscriber
    const summarizer: MapReduceSummarizer
    const createdAt: Time
    var buffer: BufferView
    var status: Status
    var audioChunksReceived: nat
    var totalAudioDuration: real
    /** Every status the session has had, in order. */
    ghost var history: seq<Status>
    /** Every request made to the language model, in order. */
    ghost var llmRequests: seq<LlmRequest>
    /** Every structured-extraction request, in order. */
    ghost var extractionRequests: seq<ExtractionRequest>

    ghost function Repr(): set<object>
    {
      {this, transcriber, summarizer}
    }

    /**
     * The transcriber is consistent; only non-empty summaries are ever kept;
     * between operations a session is either still active, or stopped after
     * having been processed once; received audio never has negative length.
     */
    ghost predicate Valid()
      reads this, transcriber, summarizer
    {
      && transcriber.Valid()
      && SummariesNonEmpty()
      && ((status == Active && history == [Active])
          || (status == Stopped && history == [Active, Processing, Stopped]))
      && totalAudioDuration >= 0.0
    }

    constructor(config: SessionConfig, transcriber: StreamingTranscriber, summarizer: MapReduceSummarizer,
                now: Time)
      requires transcriber.Valid() && summarizer.intermediateSummaries == []
      ensures Valid()
      ensures this.config == config && this.transcriber == transcriber && this.summarizer == summarizer
      ensures createdAt == now && buffer == EmptyBuffer(config.chunkDuration, now)
      ensures status == Active && audioChunksReceived == 0 && totalAudioDuration == 0.0
      ensures llmRequests == [] && extractionRequests == []
    {
      this.config := config;
      this.transcriber := transcriber;
      this.summarizer := summarizer;
      createdAt := now;
      buffer := EmptyBuffer(config.chunkDuration, now);
      status := Active;
      audioChunksReceived := 0;
      totalAudioDuration := 0.0;
      history := [Active];
      llmRequests := [];
      extractionRequests := [];
    }

    /**
     * add_audio_chunk: count the chunk and its duration at the chunk's own
     * rate, feed it to the transcriber, and when that returns text, add it to
     * the buffer and run MAP if the buffer asks for it.
     */
    method AddAudioChunk(data: seq<Sample>, timestamp: Time, sampleRate: int, be: Backends, ops: BufferOps,
                         now: Time) returns (transcript: string)
      requires Valid() && sampleRate > 0
      modifies Repr()
      ensures Valid()
      ensures audioChunksReceived == old(audioChunksReceived) + 1
      ensures totalAudioDuration == old(totalAudioDuration) + Duration(|data|, sampleRate)
      ensures status == old(status) && history == old(history) && extractionRequests == old(extractionRequests)
      ensures var t := old(transcriber.Transcribed(data, be.stt, be.loadSucceeds));
        && transcript == t.text
        && transcriber.requests == old(transcriber.requests) + t.sent
        && transcriber.modelLoaded == t.loaded
        && (if old(transcriber.bufferDuration) + Duration(|data|, transcriber.sampleRate) < transcriber.minAudioDuration
            then transcriber.audioBuffer == old(transcriber.audioBuffer) + [data]
                 && transcriber.bufferDuration == old(transcriber.bufferDuration) + Duration(|data|, transcriber.sampleRate)
            else transcriber.audioBuffer == [] && transcriber.bufferDuration == 0.0)
      ensures var m := MapStep(summarizer.config, old(buffer), transcript, ops, be.llm, now);
        && buffer == m.buffer
        && llmRequests == old(llmRequests) + m.requests
        && summarizer.intermediateSummaries == old(summarizer.intermediateSummaries) + Entry(m.summary, now)
    {
      audioChunksReceived := audioChunksReceived + 1;
      DurationAdd(|data|, 0, sampleRate);
      totalAudioDuration := totalAudioDuration + Duration(|data|, sampleRate);
      transcript := transcriber.Transcribe(data, be.stt, be.loadSucceeds);
      MapTranscript(transcript, ops, be.llm, now);
    }

    /** The MAP step after transcription: text goes into the buffer, and a
     *  chunk the buffer asks to summarise is summarised. */
    method MapTranscript(transcript: string, ops: BufferOps, llm: LlmRequest -> LlmOutcome, now: Time)
      requires SummariesNonEmpty()
      modifies this, summarizer
      ensures SummariesNonEmpty()
      ensures var m := MapStep(summarizer.config, old(buffer), transcript, ops, llm, now);
        && buffer == m.buffer
        && llmRequests == old(llmRequests) + m.requests
        && summarizer.intermediateSummaries == old(summarizer.intermediateSummaries) + Entry(m.summary, now)
      ensures status == old(status) && history == old(history) && extractionRequests == old(extractionRequests)
      ensures audioChunksReceived == old(audioChunksReceived) && totalAudioDuration == old(totalAudioDuration)
    {
      if transcript != "" {
        buffer := ops.add(buffer, transcript, "capture", now);
        if ops.shouldSummarize(buffer) {
          var _ := SummarizeChunkFrom(ops.getChunkForSummary(buffer), llm, now);
        }
      }
    }

    /** The only non-empty summaries are kept. */
    ghost predicate SummariesNonEmpty()
      reads summarizer
    {
      NonBlankSummaries(summarizer.intermediateSummaries)
    }

    /** MAP on a chunk the buffer handed over: the buffer becomes what is left,
     *  a non-empty chunk is summarised and a non-empty summary appended. */
    method SummarizeChunkFrom(taken: Taken, llm: LlmRequest -> LlmOutcome, now: Time)
      returns (made: seq<LlmRequest>)
      requires SummariesNonEmpty()
      modifies this, summarizer
      ensures SummariesNonEmpty()
      ensures var m := SummarizeTaken(summarizer.config, taken, llm);
        && buffer == m.buffer && made == m.requests
        && llmRequests == old(llmRequests) + m.requests
        && summarizer.intermediateSummaries == old(summarizer.intermediateSummaries) + Entry(m.summary, now)
      ensures status == old(status) && history == old(history) && extractionRequests == old(extractionRequests)
      ensures audioChunksReceived == old(audioChunksReceived) && totalAudioDuration == old(totalAudioDuration)
    {
      ghost var m := SummarizeTaken(summarizer.config, taken, llm);
      buffer := taken.rest;
      made := [];
      if taken.text != "" {
        var g := SummarizeChunk(summarizer.config, taken.text, llm);
        assert m == MapOutcome(taken.rest, g.requests, if g.text != "" then Some(g.text) else None);
        made := g.requests;
        llmRequests := llmRequests + g.requests;
        if g.text != "" {
          summarizer.AddIntermediateSummary(g.text, now);
        }
      } else {
        assert m == MapOutcome(taken.rest, [], None);
      }
    }

    /**
     * stop_session on a session not yet stopped: mark it processing, flush the
     * transcriber, finalise and summarise the last chunk, conclude, and mark
     * it stopped. The intermediate summaries are kept.
     */
    method Stop(be: Backends, ops: BufferOps, now: Time, stamp: string, fileStamp: string, csvWritten: bool)
      returns (report: StopReport)
      requires Valid() && status == Active
      modifies Repr()
      ensures Valid()
      ensures status == Stopped && history == [Active, Processing, Stopped]
      ensures audioChunksReceived == old(audioChunksReceived) && totalAudioDuration == old(totalAudioDuration)
      ensures var p := PlanStop(config, summarizer.config, old(buffer), old(summarizer.intermediateSummaries),
                                old(transcriber.Flushed(be.stt, be.loadSucceeds)), be, ops, now, stamp,
                                fileStamp, csvWritten);
        && report == p.report
        && buffer == p.finalMap.buffer
        && summarizer.intermediateSummaries == p.conclusion.summaries
        && llmRequests == old(llmRequests) + p.finalMap.requests + p.conclusion.requests
        && extractionRequests == old(extractionRequests) + p.conclusion.extractions
        && transcriber.requests == old(transcriber.requests) + p.flush.sent
        && transcriber.modelLoaded == p.flush.loaded
        && (if old(transcriber.audioBuffer) == [] || old(transcriber.bufferDuration) == 0.0
            then transcriber.audioBuffer == old(transcriber.audioBuffer)
                 && transcriber.bufferDuration == old(transcriber.bufferDuration)
            else transcriber.audioBuffer == [] && transcriber.bufferDuration == 0.0)
    {
      ghost var view, summaries0 := buffer, summarizer.intermediateSummaries;
      ghost var flush := transcriber.Flushed(be.stt, be.loadSucceeds);
      status := Processing;
      history := [Active, Processing];
      report := Process(be, ops, now, stamp, fileStamp, csvWritten, view, summaries0, flush);
      status := Stopped;
      history := [Active, Processing, Stopped];
    }

    /** What stop_session does while the session is processing: steps 1 to
     *  5, and the report of the files the caller writes in steps 6 and 7.
     *  `view`, `summaries0` and `flush` name the buffer, the summaries and
     *  what the flush will give. */
    method Process(be: Backends, ops: BufferOps, now: Time, stamp: string, fileStamp: string, csvWritten: bool,
                   ghost view: BufferView, ghost summaries0: seq<IntermediateSummary>, ghost flush: Recognition)
      returns (report: StopReport)
      requires transcriber.Valid() && SummariesNonEmpty()
      requires buffer == view && summarizer.intermediateSummaries == summaries0
      requires transcriber.Flushed(be.stt, be.loadSucceeds) == flush
      modifies this, transcriber, summarizer
      ensures transcriber.Valid() && SummariesNonEmpty()
      ensures var p := PlanStop(config, summarizer.config, view, summaries0, flush, be, ops, now, stamp,
                                fileStamp, csvWritten);
        && report == p.report
        && buffer == p.finalMap.buffer
        && summarizer.intermediateSummaries == p.conclusion.summaries
        && llmRequests == old(llmRequests) + p.finalMap.requests + p.conclusion.requests
        && extractionRequests == old(extractionRequests) + p.conclusion.extractions
        && transcriber.requests == old(transcriber.requests) + p.flush.sent
        && transcriber.modelLoaded == p.flush.loaded
        && (if old(transcriber.audioBuffer) == [] || old(transcriber.bufferDuration) == 0.0
            then transcriber.audioBuffer == old(transcriber.audioBuffer)
                 && transcriber.bufferDuration == old(transcriber.bufferDuration)
            else transcriber.audioBuffer == [] && transcriber.bufferDuration == 0.0)
      ensures audioChunksReceived == old(audioChunksReceived) && totalAudioDuration == old(totalAudioDuration)
    {
      // 1./2. Flush the transcriber; finalise and summarise the last chunk.
      FlushAndMap(be, ops, now, flush, view);
      ghost var m := FinalMapStep(summarizer.config, view, flush.text, ops, be.llm, now);

      // 3.-5. Low-content check, REDUCE, EXTRACT.
      var c := ConcludeStop(be, now, stamp, summaries0 + Entry(m.summary, now), FullTranscript(m.buffer.segments));

      // 6./7. The files and the CSV row are written by the caller.
      var csvFile := if config.appendCsv && csvWritten then Some(config.csvExportPath) else None;
      report := Finished(config.outputDir + "/summary_" + fileStamp + ".txt",
                         config.outputDir + "/data_" + fileStamp + ".json", csvFile,
                         c.outcome, c.finalSummary, c.data);
    }

    /** Steps 1 and 2 of stop_session: flush the transcriber and add any text
     *  it returns to the buffer, then force-finalise the current chunk and
     *  summarise it. */
    method FlushAndMap(be: Backends, ops: BufferOps, now: Time, ghost flush: Recognition, ghost view: BufferView)
      requires transcriber.Valid() && SummariesNonEmpty()
      requires transcriber.Flushed(be.stt, be.loadSucceeds) == flush && buffer == view
      modifies this, transcriber, summarizer
      ensures transcriber.Valid() && SummariesNonEmpty()
      ensures var m := FinalMapStep(summarizer.config, view, flush.text, ops, be.llm, now);
        && buffer == m.buffer
        && summarizer.intermediateSummaries == old(summarizer.intermediateSummaries) + Entry(m.summary, now)
        && llmRequests == old(llmRequests) + m.requests
        && transcriber.requests == old(transcriber.requests) + flush.sent
        && transcriber.modelLoaded == flush.loaded
      ensures if old(transcriber.audioBuffer) == [] || old(transcriber.bufferDuration) == 0.0
              then transcriber.audioBuffer == old(transcriber.audioBuffer)
                   && transcriber.bufferDuration == old(transcriber.bufferDuration)
              else transcriber.audioBuffer == [] && transcriber.bufferDuration == 0.0
      ensures status == old(status) && history == old(history) && extractionRequests == old(extractionRequests)
      ensures audioChunksReceived == old(audioChunksReceived) && totalAudioDuration == old(totalAudioDuration)
    {
      var flushed := transcriber.FlushBuffer(be.stt, be.loadSucceeds);
      if flushed != "" {
        buffer := ops.add(buffer, flushed, "capture", now);
      }
      var _ := SummarizeChunkFrom(ops.forceFinalizeChunk(buffer), be.llm, now);
    }

    /** The low-content check, REDUCE and EXTRACT of stop_session, on the
     *  summaries and transcript as they are after the last chunk. */
    method ConcludeStop(be: Backends, now: Time, stamp: string, ghost summaries0: seq<IntermediateSummary>,
                        ghost full0: string)
      returns (c: Conclusion)
      requires SummariesNonEmpty()
      requires summarizer.intermediateSummaries == summaries0 && FullTranscript(buffer.segments) == full0
      modifies this, summarizer
      ensures SummariesNonEmpty()
      ensures c == Conclude(summarizer.config, summaries0, full0, config.dataExtractionPrompt, be, now, stamp)
      ensures summarizer.intermediateSummaries == c.summaries
      ensures llmRequests == old(llmRequests) + c.requests
      ensures extractionRequests == old(extractionRequests) + c.extractions
      ensures buffer == old(buffer) && status == old(status) && history == old(history)
      ensures audioChunksReceived == old(audioChunksReceived) && totalAudioDuration == old(totalAudioDuration)
    {
      var full := FullTranscript(buffer.segments);
      if summarizer.intermediateSummaries == [] && LowContent(full) {
        return Conclusion(InsufficientContent, InsufficientContentMessage, EmptyMeetingData,
                          summarizer.intermediateSummaries, [], []);
      }
      ghost var earlier := llmRequests;
      if summarizer.intermediateSummaries == [] {
        // Content but no summary yet: summarise the full transcript as a chunk.
        var made := SynthesizeFrom(full, be.llm, now);
        ghost var g := SummarizeChunk(summarizer.config, full0, be.llm);
        c := ReduceAndExtract(be, stamp, made, earlier, Entry(NonEmpty(g.text), now));
      } else {
        c := ReduceAndExtract(be, stamp, [], earlier, summaries0);
      }
    }

    /** The full transcript summarised as one chunk, when there is no summary
     *  yet; the summary is kept when non-empty. */
    method SynthesizeFrom(full: string, llm: LlmRequest -> LlmOutcome, now: Time) returns (made: seq<LlmRequest>)
      requires summarizer.intermediateSummaries == []
      modifies this, summarizer
      ensures SummariesNonEmpty()
      ensures var g := SummarizeChunk(summarizer.config, full, llm);
        && summarizer.intermediateSummaries == Entry(NonEmpty(g.text), now)
        && made == g.requests && llmRequests == old(llmRequests) + made
      ensures buffer == old(buffer) && status == old(status) && history == old(history)
      ensures extractionRequests == old(extractionRequests)
      ensures audioChunksReceived == old(audioChunksReceived) && totalAudioDuration == old(totalAudioDuration)
    {
      var g := SummarizeChunk(summarizer.config, full, llm);
      made := g.requests;
      llmRequests := llmRequests + g.requests;
      if g.text != "" {
        summarizer.AddIntermediateSummary(g.text, now);
        assert summarizer.intermediateSummaries == [IntermediateSummary(g.text, now)];
      }
    }

    /** REDUCE and EXTRACT over the current summaries, which stay as they are. */
    method ReduceAndExtract(be: Backends, stamp: string, earlier: seq<LlmRequest>, ghost base: seq<LlmRequest>,
                            ghost all: seq<IntermediateSummary>)
      returns (c: Conclusion)
      requires llmRequests == base + earlier && summarizer.intermediateSummaries == all
      modifies this
      ensures c == ReduceExtract(summarizer.config, all, config.dataExtractionPrompt, be, stamp, earlier)
      ensures llmRequests == base + c.requests
      ensures extractionRequests == old(extractionRequests) + c.extractions
      ensures buffer == old(buffer) && status == old(status) && history == old(history)
      ensures audioChunksReceived == old(audioChunksReceived) && totalAudioDuration == old(totalAudioDuration)
    {
      var reduce := GenerateFinalSummary(summarizer.config, summarizer.intermediateSummaries, be.llm, stamp);
      llmRequests := llmRequests + reduce.requests;
      var x := ExtractStructuredData(summarizer.config.modelName, summarizer.intermediateSummaries,
                                     config.dataExtractionPrompt, be.schemaText, be.generate, be.validate);
      extractionRequests := extractionRequests + x.requests;
      c := Conclusion(Completed, reduce.text, x.data, summarizer.intermediateSummaries,
                      earlier + reduce.requests, x.requests);
      assert llmRequests == base + (earlier + reduce.requests);
    }
  }

  /** The objects create_session builds for a planned transcriber: the
   *  transcriber of the planned kind, a summariser with no summaries yet, and
   *  an active session holding both. */
  method NewSession(config: SessionConfig, plan: TranscriberPlan, now: Time) returns (s: Session)
    requires PlannedRate(plan) > 0
    ensures fresh(s.Repr()) && s.Valid()
    ensures s.config == config && s.status == Active && s.createdAt == now
    ensures s.audioChunksReceived == 0 && s.totalAudioDuration == 0.0
    ensures s.buffer == EmptyBuffer(config.chunkDuration, now)
    ensures s.transcriber.engine == PlannedEngine(plan) && s.transcriber.useMock == !plan.available
    ensures s.transcriber.sampleRate == PlannedRate(plan)
    ensures s.transcriber.minAudioDuration == plan.minAudioDuration
    ensures s.transcriber.maxAudioDuration == plan.maxAudioDuration
    ensures s.transcriber.audioBuffer == [] && s.transcriber.requests == []
    ensures s.summarizer.config == SummarizerConfigOf(config) && s.summarizer.intermediateSummaries == []
  {
    var transcriber: StreamingTranscriber;
    if plan.WhisperPlan? {
      transcriber := new StreamingTranscriber.ForWhisper(plan.modelPath, plan.minAudioDuration,
                                                         plan.maxAudioDuration, plan.captureSampleRate,
                                                         plan.available);
    } else {
      transcriber := new StreamingTranscriber.ForParakeet(plan.modelPath, plan.minAudioDuration,
                                                          plan.maxAudioDuration, plan.sampleRate, plan.available);
    }
    var summarizer := new MapReduceSummarizer(SummarizerConfigOf(config));
    s := new Session(config, transcriber, summarizer, now);
  }

  /** The active ids among `ids`, in order (the list comprehension of
   *  create_session). */
  function {:induction false} ActiveIds(ids: seq<string>, table: map<string, Status>): (r: seq<string>)
    ensures forall x :: x in r <==> x in ids && x in table && table[x] == Active
    ensures |r| <= |ids|
  {
    if ids == [] then []
    else
      var rest := ActiveIds(ids[1..], table);
      assert forall x :: x in ids <==> x == ids[0] || x in ids[1..];
      if ids[0] in table && table[ids[0]] == Active then [ids[0]] + rest else rest
  }

  predicate Distinct<T(==)>(s: seq<T>)
  {
    forall i, j :: 0 <= i < j < |s| ==> s[i] != s[j]
  }

  class SessionManager {
    const runtimeMode: string
    const allowConcurrent: bool
    var sessions: map<string, Session>
    /** The session ids in the order they were created. */
    var order: seq<string>
    ghost var Repr: set<object>

    /**
     * Every session is stored under its own id, is consistent, and owns its
     * objects alone; `order` lists each id once; without concurrent sessions
     * at most one session is active.
     */
    ghost predicate Valid()
      reads this, Repr
    {
      && this !in Repr
      && (forall id :: id in sessions ==> sessions[id].Repr() <= Repr)
      && (forall id :: id in sessions ==> sessions[id].Valid() && sessions[id].config.sessionId == id)
      && (forall a, b :: a in sessions && b in sessions && a != b ==> sessions[a].Repr() !! sessions[b].Repr())
      && Distinct(order) && (forall id :: id in sessions <==> id in order)
      && (!allowConcurrent ==>
            forall a, b :: (a in sessions && b in sessions && sessions[a].status == Active
                            && sessions[b].status == Active) ==> a == b)
    }

    constructor(runtimeMode: string, allowConcurrent: bool)
      ensures Valid()
      ensures this.runtimeMode == runtimeMode && this.allowConcurrent == allowConcurrent
      ensures sessions == map[] && order == []
    {
      this.runtimeMode := runtimeMode;
      this.allowConcurrent := allowConcurrent;
      sessions := map[];
      order := [];
      Repr := {};
    }

    /** list_sessions: each session's status, by id. */
    function ListSessions(): (table: map<string, Status>)
      reads this, set id | id in sessions :: sessions[id]
      ensures table.Keys == sessions.Keys
      ensures forall id :: id in sessions ==> table[id] == sessions[id].status
    {
      map id | id in sessions :: sessions[id].status
    }

    /** get_session: the stored session, or SessionNotFound. */
    function GetSession(id: string): (r: Result<Session, SessionError>)
      reads this
      ensures r.Ok? <==> id in sessions
      ensures r.Ok? ==> r.value == sessions[id]
      ensures r.Err? ==> r.error == SessionNotFound(id)
    {
      if id in sessions then Ok(sessions[id]) else Err(SessionNotFound(id))
    }

    /** Stores a new active session under its id, owning objects nobody else
     *  owns; without concurrent sessions, no other may be active. */
    method Insert(session: Session)
      requires Valid() && session.Valid() && session.Repr() !! Repr && this !in session.Repr()
      requires session.config.sessionId !in sessions && session.status == Active
      requires !allowConcurrent ==> forall id :: id in sessions ==> sessions[id].status != Active
      modifies this
      ensures Valid()
      ensures sessions == old(sessions)[session.config.sessionId := session]
      ensures order == old(order) + [session.config.sessionId]
    {
      var id := session.config.sessionId;
      assert forall x :: x in order <==> x in sessions;
      assert id !in order;
      assert Distinct(order + [id]);
      sessions := sessions[id := session];
      order := order + [id];
      Repr := Repr + session.Repr();
    }

    /**
     * create_session: without concurrent sessions, refuse while one is active,
     * naming the first active one; then refuse an id already used, even by a
     * stopped session; then plan the transcriber. Only when all pass is the
     * new active session stored.
     */
    method CreateSession(config: SessionConfig, mlxAvailable: bool, parakeetAvailable: bool, now: Time)
      returns (r: Result<Session, SessionError>)
      requires Valid() && config.captureSampleRate > 0
      modifies this
      ensures Valid()
      ensures var active := old(ActiveIds(order, ListSessions()));
        var plan := PlanTranscriber(config, runtimeMode, mlxAvailable, parakeetAvailable);
        if !allowConcurrent && active != [] then r == Err(SessionAlreadyActive(active[0]))
        else if config.sessionId in old(sessions) then r == Err(DuplicateSessionId(config.sessionId))
        else if plan.Err? then r == Err(plan.error)
        else
          && r.Ok? && fresh(r.value.Repr())
          && sessions == old(sessions)[config.sessionId := r.value] && order == old(order) + [config.sessionId]
          && r.value.config == config && r.value.status == Active
          && r.value.audioChunksReceived == 0 && r.value.totalAudioDuration == 0.0
          && r.value.buffer == EmptyBuffer(config.chunkDuration, now) && r.value.createdAt == now
          && r.value.transcriber.engine == PlannedEngine(plan.value)
          && r.value.transcriber.useMock == !plan.value.available
          && r.value.transcriber.sampleRate == config.captureSampleRate
          && r.value.transcriber.minAudioDuration == config.minAudioDuration
          && r.value.transcriber.maxAudioDuration == config.maxAudioDuration
          && r.value.transcriber.audioBuffer == [] && r.value.transcriber.requests == []
          && r.value.summarizer.config == SummarizerConfigOf(config)
          && r.value.summarizer.intermediateSummaries == []
      ensures r.Err? ==> sessions == old(sessions) && order == old(order)
    {
      var active := ActiveIds(order, ListSessions());
      if !allowConcurrent && active != [] {
        return Err(SessionAlreadyActive(active[0]));
      }
      if config.sessionId in sessions {
        return Err(DuplicateSessionId(config.sessionId));
      }
      var plan := PlanTranscriber(config, runtimeMode, mlxAvailable, parakeetAvailable);
      if plan.Err? {
        return Err(plan.error);
      }
      var session := NewSession(config, plan.value, now);
      assert !allowConcurrent ==> forall id :: id in sessions ==> sessions[id].status != Active;
      Insert(session);
      r := Ok(session);
    }

    /**
     * Audio for a session (the engine's /audio_chunk): an unknown id or a
     * session that is not active is refused; otherwise the chunk goes to
     * add_audio_chunk at the request's rate.
     */
    method SubmitAudio(id: string, data: seq<Sample>, timestamp: Time, sampleRate: int, be: Backends,
                       ops: BufferOps, now: Time) returns (r: Result<string, SessionError>)
      requires Valid() && sampleRate > 0
      modifies if id in sessions then sessions[id].Repr() else {}
      ensures sessions == old(sessions) && Valid()
      ensures id !in sessions ==> r == Err(SessionNotFound(id))
      ensures id in sessions && old(sessions[id].status) != Active ==>
        r == Err(SessionNotActive(id, old(sessions[id].status)))
        && unchanged(sessions[id], sessions[id].transcriber, sessions[id].summarizer)
      ensures id in sessions && old(sessions[id].status) == Active ==>
        && r.Ok? && r.value == old(sessions[id].transcriber.Transcribed(data, be.stt, be.loadSucceeds)).text
        && sessions[id].audioChunksReceived == old(sessions[id].audioChunksReceived) + 1
        && sessions[id].status == Active
    {
      var got := GetSession(id);
      if got.Err? {
        return Err(got.error);
      }
      var session := got.value;
      if session.status != Active {
        return Err(SessionNotActive(id, session.status));
      }
      var transcript := FeedActive(id, data, timestamp, sampleRate, be, ops, now);
      r := Ok(transcript);
    }

    /** Hands a chunk to an active session; the other sessions are untouched. */
    method FeedActive(id: string, data: seq<Sample>, timestamp: Time, sampleRate: int, be: Backends,
                      ops: BufferOps, now: Time) returns (transcript: string)
      requires Valid() && sampleRate > 0 && id in sessions && sessions[id].status == Active
      modifies sessions[id].Repr()
      ensures sessions == old(sessions) && Valid()
      ensures transcript == old(sessions[id].transcriber.Transcribed(data, be.stt, be.loadSucceeds)).text
      ensures sessions[id].audioChunksReceived == old(sessions[id].audioChunksReceived) + 1
      ensures sessions[id].status == Active
    {
      var session := sessions[id];
      assert this !in session.Repr();
      transcript := session.AddAudioChunk(data, timestamp, sampleRate, be, ops, now);
      KeepOthersValid(id);
    }

    /** When only one session's objects changed and it is still consistent and
     *  no newly active, the table is still consistent. */
    twostate lemma KeepOthersValid(id: string)
      requires old(Valid()) && id in sessions
      requires sessions == old(sessions) && order == old(order) && Repr == old(Repr)
      requires forall o :: o in old(Repr) && o !in old(sessions[id].Repr()) ==> unchanged(o)
      requires sessions[id].Valid()
      requires sessions[id].status == Active ==> old(sessions[id].status) == Active
      ensures Valid()
    {
      forall b | b in sessions && b != id
        ensures sessions[b].Valid() && sessions[b].status == old(sessions[b].status)
      {
        assert sessions[b].Repr() !! sessions[id].Repr();
        assert unchanged(sessions[b], sessions[b].transcriber, sessions[b].summarizer);
      }
    }

    /**
     * stop_session: an unknown id is refused; a stopped session reports
     * "already_stopped" and nothing changes; any other session is stopped as
     * Session.Stop describes.
     */
    method StopSession(id: string, be: Backends, ops: BufferOps, now: Time, stamp: string, fileStamp: string,
                       csvWritten: bool) returns (r: Result<StopReport, SessionError>)
      requires Valid()
      modifies if id in sessions then sessions[id].Repr() else {}
      ensures sessions == old(sessions) && Valid()
      ensures id !in sessions ==> r == Err(SessionNotFound(id))
      ensures id in sessions && old(sessions[id].status) == Stopped ==>
        r == Ok(AlreadyStopped) && unchanged(sessions[id], sessions[id].transcriber, sessions[id].summarizer)
      ensures id in sessions && old(sessions[id].status) != Stopped ==>
        var p := old(PlanStop(sessions[id].config, sessions[id].summarizer.config, sessions[id].buffer,
                             sessions[id].summarizer.intermediateSummaries,
                             sessions[id].transcriber.Flushed(be.stt, be.loadSucceeds), be, ops, now, stamp,
                             fileStamp, csvWritten));
        && r == Ok(p.report)
        && sessions[id].status == Stopped
        && sessions[id].summarizer.intermediateSummaries == p.conclusion.summaries
    {
      var got := GetSession(id);
      if got.Err? {
        return Err(got.error);
      }
      var session := got.value;
      if session.status == Stopped {
        return Ok(AlreadyStopped);
      }
      var report := StopActive(id, be, ops, now, stamp, fileStamp, csvWritten);
      r := Ok(report);
    }

    /** Stops an active session; the other sessions are untouched. */
    method StopActive(id: string, be: Backends, ops: BufferOps, now: Time, stamp: string, fileStamp: string,
                      csvWritten: bool) returns (report: StopReport)
      requires Valid() && id in sessions && sessions[id].status == Active
      modifies sessions[id].Repr()
      ensures sessions == old(sessions) && Valid()
      ensures var p := old(PlanStop(sessions[id].config, sessions[id].summarizer.config, sessions[id].buffer,
                             sessions[id].summarizer.intermediateSummaries,
                             sessions[id].transcriber.Flushed(be.stt, be.loadSucceeds), be, ops, now, stamp,
                             fileStamp, csvWritten));
        && report == p.report
        && sessions[id].status == Stopped
        && sessions[id].summarizer.intermediateSummaries == p.conclusion.summaries
    {
      var session := sessions[id];
      assert this !in session.Repr();
      report := session.Stop(be, ops, now, stamp, fileStamp, csvWritten);
      KeepOthersValid(id);
    }
  }
}
