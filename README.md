# audio_summary_app — a verified model of the audio-to-summary pipeline

This project models the sequential core of audio_summary_app in Dafny. That app is a meeting recorder: it streams captured audio to a speech-to-text engine, gathers the transcript into time-based chunks, and summarises each chunk with a local language model (MAP). At the end of a recording it combines those summaries into a final summary (REDUCE), extracts structured contact, company and deal data (EXTRACT), and exports it as JSON files and a CSV row.

The modules follow the program's files:

- `Transcriber` (transcriber.py): the streaming transcriber (Whisper and Parakeet share one class with an engine tag): the audio accumulation buffer, the minimum-duration trigger, the flush, the normalisation, the once-only model load, the model-name mapping.
- `Transcripts` (transcript_buffer.py): the transcript buffer: the bounded ring of segments, the time-based chunker and its getters.
- `Summarizer` (summarizer.py): the map-reduce summariser: chunk summaries, the ordered list of intermediate summaries, REDUCE and EXTRACT with their fixed fallbacks.
- `Sessions` (engine/session_manager.py, engine/server.py): the engine's session table, session creation and its errors, the audio path, and the idempotent stop with the low-content rule.
- `AudioUtils`, `Base64` (engine/audio_utils.py): the PCM wire format: base64 (RFC 4648, section 4), float32 little-endian unpacking, range and sample-rate checks.
- `Recording` (gui/recording_controller.py): the GUI recording worker's stop path, its folder name and CSV row, and the controller's recording flag.
- `App` (`__main__.py`): the command-line application's flags, the transcriber it builds, the stop_recording sequence and its CSV row.
- `TestClient` (cli/test_client.py): `chunk_audio`.
- `Text`, `Seqs`, `Wrappers`: the Python string operations relied on (`strip`, `split`, `join`, `replace`, `str(n)`, `lower`), sequence helpers, Option and Result.

Objects whose fields the program updates are classes; for example `StreamingTranscriber`, `TranscriptBuffer`, `MapReduceSummarizer`, `Session`, `SessionManager`, `RecordingWorker`, `RecordingController` and `AudioSummaryApp`. Their methods are proved against pure plan functions of the old state. What those plans promise is then proved as lemmas.

The external pieces are parameters of the model:
- the language model, the speech recogniser (with whether its model loads), the structured-output generator and the schema validator are function-typed arguments whose outcomes may be failures;
- the clock is a `now: real` argument, in seconds;
- strftime renderings are string arguments;
- whether the CSV file exists is a boolean argument.

Every request sent to a backend is recorded in a ghost log. This lets contracts say "exactly one call", "no call", or "these calls, in this order".

## Model

| member | source | states |
|---|---|---|
| Text.TrimLeft | audio_summary_app/src/audio_summary_app/summarizer.py:162 | the result is a suffix of the input whose first character is not whitespace, and everything cut away is whitespace |
| Text.TrimRight | audio_summary_app/src/audio_summary_app/summarizer.py:162 | the result is a prefix of the input whose last character is not whitespace, and everything cut away is whitespace |
| Text.StripShape | audio_summary_app/src/audio_summary_app/transcriber.py:163 | `strip()` returns a slice of its input, with whitespace only cut from both ends |
| Text.StripEmptyIffBlank | audio_summary_app/src/audio_summary_app/summarizer.py:154 | `not text.strip()` holds exactly when the text is all whitespace |
| Text.StripIdempotent | audio_summary_app/src/audio_summary_app/gui/recording_controller.py:224 | stripping twice is stripping once |
| Text.SplitWords | audio_summary_app/src/audio_summary_app/engine/session_manager.py:352 | every word `split()` returns is non-empty and holds no whitespace |
| Text.NoWordsIffBlank | audio_summary_app/src/audio_summary_app/engine/session_manager.py:352 | `split()` returns no words exactly when the text is all whitespace |
| Text.JoinAppend | audio_summary_app/src/audio_summary_app/transcript_buffer.py:67 | joining one more part adds the separator and that part at the end |
| Text.JoinLength | audio_summary_app/src/audio_summary_app/transcript_buffer.py:145 | a join is as long as its parts plus one separator between each two |
| Text.ReplaceAbsent | audio_summary_app/src/audio_summary_app/__main__.py:295 | `replace` leaves a text alone when the pattern cannot start anywhere in it |
| Text.ReplaceOne | audio_summary_app/src/audio_summary_app/__main__.py:295 | with the pattern occurring once, `replace` swaps exactly that occurrence |
| Text.NatToString | audio_summary_app/src/audio_summary_app/summarizer.py:194-197 | `str(n)` is a non-empty string of decimal digits |
| Text.NatToStringRoundTrip | audio_summary_app/src/audio_summary_app/summarizer.py:194-197 | the decimal digits of n read back as n |
| Text.ToLower | audio_summary_app/src/audio_summary_app/engine/session_manager.py:239 | same length; ASCII capitals become small letters, every other character is kept |
| Transcriber.ModelKey | audio_summary_app/src/audio_summary_app/transcriber.py:43-44 | the model name before its first '.', or all of it: a prefix with no '.', followed by '.' when shorter |
| Transcriber.ModelKeyOf | audio_summary_app/src/audio_summary_app/transcriber.py:43-44 | the key of a name is exactly the text before a first '.' or the end |
| Transcriber.ModelRepoCases | audio_summary_app/src/audio_summary_app/transcriber.py:31-51 | a known short name selects its repository with or without a language suffix; any other name is used verbatim |
| Transcriber.DurationAdd | audio_summary_app/src/audio_summary_app/transcriber.py:108-109 | seconds add up chunk by chunk, are never negative, and are zero only for no samples (also lines 369-370) |
| Transcriber.MaxAbs | audio_summary_app/src/audio_summary_app/transcriber.py:148-149 | the peak amplitude is at least every sample's magnitude and, for some samples, one of them (also lines 401-402) |
| Transcriber.DivideByPeak | audio_summary_app/src/audio_summary_app/transcriber.py:148-149 | dividing by a peak above 1 lands in [-1, 1] |
| Transcriber.NormalizedInRange | audio_summary_app/src/audio_summary_app/transcriber.py:146-149 | "max > 1 or min < -1" is "peak > 1"; the audio sent lies in [-1, 1], and audio already in range is sent unchanged (also lines 399-402) |
| Transcriber.RecognizeMock | audio_summary_app/src/audio_summary_app/transcriber.py:138-141 | the mock, built fresh for each call, always says the first sample sentence and loads no model (also lines 256-270) |
| Transcriber.RecognizeText | audio_summary_app/src/audio_summary_app/transcriber.py:160-170 | recognised text is always stripped, and a recogniser exception gives "" (also lines 421-433) |
| Transcriber.RecognizeSent | audio_summary_app/src/audio_summary_app/transcriber.py:142-157 | a real recogniser is called at most once, on the normalised audio, never on no samples; a loaded Parakeet model stays loaded and Whisper never loads one (also lines 335-347, 390-425) |
| Transcriber.StreamingTranscriber.ForWhisper | audio_summary_app/src/audio_summary_app/transcriber.py:20-71 | the model name mapped to its repository, the given durations and capture rate, the mock exactly when MLX Whisper is unavailable, an empty buffer |
| Transcriber.StreamingTranscriber.ForParakeet | audio_summary_app/src/audio_summary_app/transcriber.py:288-321 | the given model path, durations and rate, the mock exactly when Parakeet is unavailable, an empty buffer and no model loaded |
| Transcriber.StreamingTranscriber.RecognizeBuffer | audio_summary_app/src/audio_summary_app/transcriber.py:124-170 | the whole buffer goes to one recognition attempt, whose text is returned and whose request is logged, and the buffer is emptied on success and on failure |
| Transcriber.StreamingTranscriber.Transcribe | audio_summary_app/src/audio_summary_app/transcriber.py:85-170 | the chunk is buffered; below the minimum duration "" comes back and nothing is sent; otherwise the whole buffer is recognised once and cleared; the maximum duration changes nothing (also lines 350-434) |
| Transcriber.StreamingTranscriber.FlushBuffer | audio_summary_app/src/audio_summary_app/transcriber.py:172-222 | no chunks or zero seconds buffered gives "" and changes nothing; otherwise the buffer is recognised once whatever its duration, and cleared (also lines 436-493) |
| Transcriber.FlushedAudioNonEmpty | audio_summary_app/src/audio_summary_app/transcriber.py:181-182 | zero buffered seconds means no samples, so a flush never sends empty audio (also lines 445-446) |
| Transcripts.Texts | audio_summary_app/src/audio_summary_app/transcript_buffer.py:67 | one text per segment, the i-th being the i-th segment's text |
| Transcripts.LastN | audio_summary_app/src/audio_summary_app/transcript_buffer.py:29 | what a deque with `maxlen` n holds: the last min(len, n) elements, as a suffix |
| Transcripts.RingAppendKeepsLast | audio_summary_app/src/audio_summary_app/transcript_buffer.py:29 | appending to the bounded ring keeps it equal to the last `max_buffer_size` segments ever appended (also line 56) |
| Transcripts.ConcatOfNonEmpty | audio_summary_app/src/audio_summary_app/transcript_buffer.py:66-76 | when every chunk has at least one segment, the chunks hold no segment exactly when there are no chunks |
| Transcripts.TranscriptBuffer.constructor | audio_summary_app/src/audio_summary_app/transcript_buffer.py:19-37 | an empty ring, no chunks, an empty current chunk starting at the given instant |
| Transcripts.TranscriptBuffer.FinalizeChunk | audio_summary_app/src/audio_summary_app/transcript_buffer.py:64-80 | a non-empty current chunk is appended as a chunk (joined text, first and last stamps, segment count) and a new chunk starts now; an empty one changes nothing; the invariant that every segment added lies in exactly one chunk, in order, is kept |
| Transcripts.TranscriptBuffer.AddSegment | audio_summary_app/src/audio_summary_app/transcript_buffer.py:39-62 | the segment, stamped now, enters the ring (dropping the oldest when full) and the current chunk; the chunk is finalised exactly when `chunk_duration` seconds have passed since it started |
| Transcripts.TranscriptBuffer.GetAllChunks | audio_summary_app/src/audio_summary_app/transcript_buffer.py:82-92 | finalises the open chunk, returns all chunks; their segments are then exactly the segments added; the result is empty exactly when nothing was added |
| Transcripts.TranscriptBuffer.Clear | audio_summary_app/src/audio_summary_app/transcript_buffer.py:126-135 | ring, chunks and current chunk emptied, chunk clock restarted |
| Transcripts.RecentSegments | audio_summary_app/src/audio_summary_app/transcript_buffer.py:94-97 | the intended meaning of get_recent_segments: a suffix of the ring of length min(count, len), empty for count <= 0 |
| Transcripts.RecentAsWrittenAgrees | audio_summary_app/src/audio_summary_app/transcript_buffer.py:97 | for a positive count the slice `[-count:]` is exactly the most recent `count` segments |
| Transcripts.RecentAsWrittenZeroReturnsAll | audio_summary_app/src/audio_summary_app/transcript_buffer.py:97 | for count 0 the slice `[-0:]` gives every segment instead of none |
| Transcripts.SegmentsSince | audio_summary_app/src/audio_summary_app/transcript_buffer.py:99-102 | a segment is in the result exactly when it is in the ring and stamped at or after the instant; one segment is kept exactly when it qualifies |
| Transcripts.SegmentsSinceAppend | audio_summary_app/src/audio_summary_app/transcript_buffer.py:99-102 | filtering a concatenation filters each part and keeps the parts in order; with the one-segment case this fixes the result as the comprehension's order-preserving filter, repetitions included |
| Transcripts.SegmentsSinceCount | audio_summary_app/src/audio_summary_app/transcript_buffer.py:99-102 | the segments kept and those left out are, with their repetitions, exactly the ring's segments |
| Transcripts.SegmentsBefore | audio_summary_app/src/audio_summary_app/transcript_buffer.py:99-102 | the segments the comprehension's condition rejects are ring segments stamped before the instant |
| Transcripts.LookupAsWritten | audio_summary_app/src/audio_summary_app/transcript_buffer.py:19-139 | looking a name up on a TranscriptBuffer raises AttributeError, with Python's message, exactly when the class defines no such method |
| Transcripts.BufferOpsMissingAsWritten | audio_summary_app/src/audio_summary_app/engine/session_manager.py:111 | none of `add`, `should_summarize`, `get_chunk_for_summary` and `force_finalize_chunk` is a TranscriptBuffer method, so each call raises (also session_manager.py lines 114-115, 338, 341 and gui/recording_controller.py lines 108, 168-172) |
| Transcripts.GetBufferStats | audio_summary_app/src/audio_summary_app/transcript_buffer.py:104-124 | all zero with no timestamps for an empty ring; otherwise the counts, the character total, a usage in (0, 1] equal to len/max, and the first and last stamps |
| Transcripts.FullTranscriptLength | audio_summary_app/src/audio_summary_app/transcript_buffer.py:139-145 | the full transcript is empty for no segments, otherwise its length is the character total plus one space between neighbours |
| Transcripts.ChunkTextIsTranscript | audio_summary_app/src/audio_summary_app/transcript_buffer.py:67-73 | a chunk's text is the full transcript of its segments and its count is their number |
| Summarizer.PromptOrDefault | audio_summary_app/src/audio_summary_app/summarizer.py:94 | `prompt or default`: a missing or empty custom prompt selects the default, any other is kept (also line 102) |
| Summarizer.NoBraceInChunkPrompt | audio_summary_app/src/audio_summary_app/summarizer.py:94-100 | the fixed text of the default chunk prompt holds no brace, so `{text}` is its only placeholder |
| Summarizer.NoBraceInFinalPrompt | audio_summary_app/src/audio_summary_app/summarizer.py:102-114 | the fixed text of the default final prompt holds no brace, so `{summaries_text}` is its only placeholder |
| Summarizer.DefaultChunkPromptRender | audio_summary_app/src/audio_summary_app/summarizer.py:94-100 | formatting the default chunk prompt puts the transcript verbatim between its fixed head and tail (also line 158) |
| Summarizer.DefaultFinalPromptRender | audio_summary_app/src/audio_summary_app/summarizer.py:102-114 | formatting the default final prompt puts the summaries text verbatim between its fixed head and tail (also line 203) |
| Summarizer.SummarizeChunk | audio_summary_app/src/audio_summary_app/summarizer.py:144-165 | blank text gives "" with no LLM request; otherwise exactly one request (rendered prompt, chunk token budget) whose answer is stripped, an exception giving the error text |
| Summarizer.SummarizeChunkEmpty | audio_summary_app/src/audio_summary_app/summarizer.py:154-162 | a chunk summary is empty exactly for blank input or a blank answer; a successful one has no surrounding whitespace |
| Summarizer.Blocks | audio_summary_app/src/audio_summary_app/summarizer.py:194-197 | one block per summary, the i-th tagged with i+1 and holding that summary (also lines 249-252) |
| Summarizer.BlocksAppend | audio_summary_app/src/audio_summary_app/summarizer.py:194-197 | a new summary becomes the next numbered block after the unchanged earlier ones |
| Summarizer.GenerateFinalSummary | audio_summary_app/src/audio_summary_app/summarizer.py:175-220 | no summaries gives the fixed no-content message with no request; otherwise one request over the numbered summaries only, with the final token budget, whose answer is stripped under the stamp and segment-count header; an exception gives the error text |
| Summarizer.FinalPromptHoldsSummaries | audio_summary_app/src/audio_summary_app/summarizer.py:102-114 | with the default prompt the REDUCE request is fixed text around the numbered summaries and nothing else (also lines 194-203) |
| Summarizer.FinalSummaryHeader | audio_summary_app/src/audio_summary_app/summarizer.py:209-214 | a generated final summary starts with the stamp and the number of summaries |
| Summarizer.ExtractStructuredData | audio_summary_app/src/audio_summary_app/summarizer.py:227-304 | no summaries gives the empty record with no request; otherwise one structured request (rendered prompt plus schema text, temperature 0, 2000 tokens); a validated answer is the result, and a failed call or a failed validation gives the empty record |
| Summarizer.MapReduceSummarizer.constructor | audio_summary_app/src/audio_summary_app/summarizer.py:70-117 | the given configuration and no intermediate summaries |
| Summarizer.MapReduceSummarizer.AddIntermediateSummary | audio_summary_app/src/audio_summary_app/summarizer.py:167-173 | appends the summary stamped now; earlier entries unchanged |
| Summarizer.MapReduceSummarizer.ClearIntermediateSummaries | audio_summary_app/src/audio_summary_app/summarizer.py:222-225 | no intermediate summaries remain |
| Base64.SextetRoundTrip | audio_summary_app/src/audio_summary_app/engine/audio_utils.py:45 | the base64 alphabet maps each 6-bit value to a character that maps back to it (also line 108) |
| Base64.CharRoundTrip | audio_summary_app/src/audio_summary_app/engine/audio_utils.py:45 | each alphabet character maps to a value that maps back to it |
| Base64.SextetCharKept | audio_summary_app/src/audio_summary_app/engine/audio_utils.py:45 | every character the encoder writes is ASCII, in the alphabet and not padding (also line 108) |
| Base64.Encode | audio_summary_app/src/audio_summary_app/engine/audio_utils.py:108 | `b64encode` writes four characters per started group of three bytes |
| Base64.EncodeTriple | audio_summary_app/src/audio_summary_app/engine/audio_utils.py:108 | three bytes become four characters |
| Base64.Kept | audio_summary_app/src/audio_summary_app/engine/audio_utils.py:45 | the lenient decoder keeps only alphabet characters and padding |
| Base64.DecodeOne | audio_summary_app/src/audio_summary_app/engine/audio_utils.py:45 | a single byte round-trips through its padded encoding (also line 108) |
| Base64.DecodeTwo | audio_summary_app/src/audio_summary_app/engine/audio_utils.py:45 | two bytes round-trip through their padded encoding (also line 108) |
| Base64.DecodeTriple | audio_summary_app/src/audio_summary_app/engine/audio_utils.py:45 | a group of three bytes round-trips, inside or at the end of the text (also line 108) |
| Base64.DecodeGroupsStep | audio_summary_app/src/audio_summary_app/engine/audio_utils.py:45 | a full group in front of further groups decodes to its bytes followed by theirs |
| Base64.DecodeStrictEncode | audio_summary_app/src/audio_summary_app/engine/audio_utils.py:45 | strict decoding inverts encoding for every byte string (also line 108) |
| Base64.DecodeThree | audio_summary_app/src/audio_summary_app/engine/audio_utils.py:45 | three or more bytes round-trip: the first group, then the rest (also line 108) |
| Base64.DecodeAfterTriple | audio_summary_app/src/audio_summary_app/engine/audio_utils.py:45 | a group of three encoded bytes in front of text that decodes |
| Base64.HeadCharacters | audio_summary_app/src/audio_summary_app/engine/audio_utils.py:108 | the first group of an encoding is ASCII alphabet characters and padding |
| Base64.EncodeCharacters | audio_summary_app/src/audio_summary_app/engine/audio_utils.py:45 | an encoding is all ASCII, and the lenient decoder keeps all of it (also line 108) |
| Base64.KeptGroup | audio_summary_app/src/audio_summary_app/engine/audio_utils.py:45 | a text of alphabet characters and padding is kept whole |
| Base64.KeptAppend | audio_summary_app/src/audio_summary_app/engine/audio_utils.py:45 | discarding works character by character |
| Base64.DecodeEncode | audio_summary_app/src/audio_summary_app/engine/audio_utils.py:45 | `b64decode(b64encode(b)) == b` with the lenient decoder (also line 108) |
| Base64.DecodeSkipsNoise | audio_summary_app/src/audio_summary_app/engine/audio_utils.py:45 | an ASCII character outside the alphabet, anywhere, is discarded without changing the result |
| Base64.AsciiWithout | audio_summary_app/src/audio_summary_app/engine/audio_utils.py:45 | removing one ASCII character does not change whether the text has a non-ASCII one |
| AudioUtils.Unpack | audio_summary_app/src/audio_summary_app/engine/audio_utils.py:52-60 | `struct.unpack('<Nf')`: one sample per four bytes |
| AudioUtils.Pack | audio_summary_app/src/audio_summary_app/engine/audio_utils.py:105 | `struct.pack('<Nf')`: four bytes per sample |
| AudioUtils.UnpackPack | audio_summary_app/src/audio_summary_app/engine/audio_utils.py:60 | unpacking packed samples gives them back (also line 105) |
| AudioUtils.PackUnpack | audio_summary_app/src/audio_summary_app/engine/audio_utils.py:52-60 | four-byte groups packed again give the decoded bytes back |
| AudioUtils.DecodePcmOutcome | audio_summary_app/src/audio_summary_app/engine/audio_utils.py:42-75 | malformed base64, then a byte count not divisible by 4 (with that count), are AudioFormatErrors; an accepted text is one in-range sample per four decoded bytes, with duration samples / rate |
| AudioUtils.DecodePcmAccepts | audio_summary_app/src/audio_summary_app/engine/audio_utils.py:42-75 | conversely, for well-formed bytes: in-range samples decode under a non-zero rate, an out-of-range sample gives the range check's error, and a zero rate ZeroDivisionError |
| AudioUtils.SeqMin | audio_summary_app/src/audio_summary_app/engine/audio_utils.py:128 | the minimum is at most every sample and is one of them |
| AudioUtils.SeqMax | audio_summary_app/src/audio_summary_app/engine/audio_utils.py:129 | the maximum is at least every sample and is one of them |
| AudioUtils.ValidateAudioRange | audio_summary_app/src/audio_summary_app/engine/audio_utils.py:113-137 | valid exactly when every sample (none for empty audio) lies within 1e-6 of [-1, 1]; the error carries the minimum and maximum |
| AudioUtils.Values | audio_summary_app/src/audio_summary_app/engine/audio_utils.py:61 | the numeric value of each sample, in order |
| AudioUtils.EncodePcmToBase64 | audio_summary_app/src/audio_summary_app/engine/audio_utils.py:78-110 | succeeds exactly for one-dimensional float32 arrays in range; a wrong dtype and a wrong dimension give their own errors, checked in that order |
| AudioUtils.EncodeDecodeRoundTrip | audio_summary_app/src/audio_summary_app/engine/audio_utils.py:24-110 | what the encoder accepts, the decoder gives back sample for sample, with duration samples/rate |
| AudioUtils.ValidateSampleRate | audio_summary_app/src/audio_summary_app/engine/audio_utils.py:140-163 | valid exactly for an integer in [8000, 96000] |
| AudioUtils.PositivityCheckUnreachable | audio_summary_app/src/audio_summary_app/engine/audio_utils.py:157-163 | the positivity error is never raised: the range check already rejects every non-positive rate |
| TestClient.ChunkSizeTruncates | audio_summary_app/src/audio_summary_app/cli/test_client.py:124 | `int(duration * rate)` truncates toward zero |
| TestClient.ChunkAudio | audio_summary_app/src/audio_summary_app/cli/test_client.py:112-130 | ceil(len / size) chunks, all non-empty and at most size long, all but the last full, which together are exactly the audio; chunk i is the slice from i·size to min((i + 1)·size, len) |
| TestClient.SliceInRange | audio_summary_app/src/audio_summary_app/cli/test_client.py:127-130 | below the chunk count, chunk i is the non-empty slice [i·size, min((i + 1)·size, len)) with no clamping at its start |
| TestClient.StepBounds | audio_summary_app/src/audio_summary_app/cli/test_client.py:127-129 | each chunk starts where the previous one ended, is non-empty, at most size long and full unless it is the last |
| TestClient.ChunkBounds | audio_summary_app/src/audio_summary_app/cli/test_client.py:125-129 | chunk i of the ceil(len / size) chunks starts inside the audio and, unless last, ends inside it |
| Sessions.PlanTranscriber | audio_summary_app/src/audio_summary_app/engine/session_manager.py:223-274 | the lowercased backend picks Whisper or Parakeet with the configured path, durations and capture rate; any other name is InvalidBackend; in "prod" mode a backend whose library is missing is refused with its own message, and only then |
| Sessions.StopNeverFinishesAsWritten | audio_summary_app/src/audio_summary_app/engine/session_manager.py:329-341 | as written, stopping a session that is not stopped raises AttributeError after marking it "processing", and every later attempt raises again, so it never becomes "stopped" |
| Sessions.TranscriptRaisesAsWritten | audio_summary_app/src/audio_summary_app/engine/session_manager.py:109-111 | as written, add_audio_chunk agrees with MapStep on an empty transcript and raises AttributeError on every non-empty one |
| Sessions.ParakeetNeverStartsAsWritten | audio_summary_app/src/audio_summary_app/engine/session_manager.py:255-267 | as written, every "parakeet" request fails with a TypeError on `capture_sample_rate` even where the intended selection succeeds; every other backend name behaves as intended |
| Sessions.SummarizeTaken | audio_summary_app/src/audio_summary_app/engine/session_manager.py:114-120 | the buffer becomes what the handover left; MAP runs exactly when the chunk is not blank; the summary is kept only when non-empty (also lines 341-345) |
| Sessions.MapStep | audio_summary_app/src/audio_summary_app/engine/session_manager.py:109-120 | empty transcription changes nothing; text goes into the buffer; MAP runs only when the buffer asks and the chunk is not blank, with the chunk prompt and token limit; a kept summary is non-empty |
| Sessions.FinalMapStep | audio_summary_app/src/audio_summary_app/engine/session_manager.py:336-345 | the flushed text, when non-empty, enters the buffer; the force-finalised chunk is summarised exactly when not blank; the buffer is what finalising left |
| Sessions.Conclude | audio_summary_app/src/audio_summary_app/engine/session_manager.py:347-375 | "insufficient_content" exactly when there is no summary and the transcript has under 50 characters or under 10 words, and then the canned message, the empty record and no model call |
| Sessions.ConcludeCompleted | audio_summary_app/src/audio_summary_app/engine/session_manager.py:359-375 | a completed stop keeps every earlier summary, adds at most one, and its summary and record are REDUCE and EXTRACT over the summaries that result |
| Sessions.ConcludeSynthesizes | audio_summary_app/src/audio_summary_app/engine/session_manager.py:359-367 | without summaries but with enough transcript, the first request summarises the full transcript with the chunk prompt |
| Sessions.PlanStopReport | audio_summary_app/src/audio_summary_app/engine/session_manager.py:336-409 | a stop finishes with "summary_<stamp>.txt" and "data_<stamp>.json" under the output directory, the CSV path exactly when a row was appended, keeps every earlier summary and adds at most one, and is "insufficient_content" exactly when no summary exists and the transcript is short |
| Sessions.Session.constructor | audio_summary_app/src/audio_summary_app/engine/session_manager.py:68-79 | an active session with the given transcriber and summariser, an empty buffer, no audio counted, no request made |
| Sessions.Session.AddAudioChunk | audio_summary_app/src/audio_summary_app/engine/session_manager.py:81-122 | one more chunk and its duration at the chunk's rate are counted; the transcriber buffers the audio below the minimum duration and transcribes it otherwise; the buffer, requests and summaries follow MapStep; status unchanged |
| Sessions.Session.MapTranscript | audio_summary_app/src/audio_summary_app/engine/session_manager.py:109-120 | buffer, requests and summaries follow MapStep; only non-empty summaries are ever kept |
| Sessions.Session.SummarizeChunkFrom | audio_summary_app/src/audio_summary_app/engine/session_manager.py:114-120 | buffer, requests and summaries follow SummarizeTaken; only non-empty summaries are ever kept |
| Sessions.Session.Stop | audio_summary_app/src/audio_summary_app/engine/session_manager.py:295-409 | status goes active, processing, stopped; the report, buffer, summaries and every request follow PlanStop; the transcriber's audio is flushed when there is any; audio counters unchanged |
| Sessions.Session.Process | audio_summary_app/src/audio_summary_app/engine/session_manager.py:331-409 | while processing: the report, buffer, summaries and requests are PlanStop's |
| Sessions.Session.FlushAndMap | audio_summary_app/src/audio_summary_app/engine/session_manager.py:336-345 | buffer, summaries and requests follow FinalMapStep; the transcriber's audio is flushed when there is any |
| Sessions.Session.ConcludeStop | audio_summary_app/src/audio_summary_app/engine/session_manager.py:347-375 | the conclusion is Conclude's, on the summaries and transcript after the final chunk; the buffer is untouched |
| Sessions.Session.SynthesizeFrom | audio_summary_app/src/audio_summary_app/engine/session_manager.py:359-367 | the full transcript is summarised as one chunk and its summary kept when non-empty |
| Sessions.Session.ReduceAndExtract | audio_summary_app/src/audio_summary_app/engine/session_manager.py:368-375 | REDUCE and EXTRACT over the current summaries, which stay as they are |
| Sessions.NewSession | audio_summary_app/src/audio_summary_app/engine/session_manager.py:185-213 | a fresh active session, its transcriber of the planned kind and rate, an empty buffer of 2000 entries and a summariser with the session's prompts and no summaries |
| Sessions.ActiveIds | audio_summary_app/src/audio_summary_app/engine/session_manager.py:172-177 | exactly the listed ids whose session is active |
| Sessions.SessionManager.constructor | audio_summary_app/src/audio_summary_app/engine/session_manager.py:132-148 | no sessions |
| Sessions.SessionManager.ListSessions | audio_summary_app/src/audio_summary_app/engine/session_manager.py:458-466 | each stored session's status, under its id and no other |
| Sessions.SessionManager.GetSession | audio_summary_app/src/audio_summary_app/engine/session_manager.py:276-293 | the stored session, or SessionNotFound exactly when the id is unknown |
| Sessions.SessionManager.Insert | audio_summary_app/src/audio_summary_app/engine/session_manager.py:213 | the new session is stored under its id, last in creation order |
| Sessions.SessionManager.CreateSession | audio_summary_app/src/audio_summary_app/engine/session_manager.py:150-221 | without concurrent sessions, refused while one is active, naming the first; then a used id is refused, even a stopped one; then the transcriber plan's error; only when all pass is a new active session stored, and on any error the table is unchanged |
| Sessions.SessionManager.SubmitAudio | audio_summary_app/src/audio_summary_app/engine/server.py:404-436 | unknown id: SessionNotFound; a session that is not active: SessionNotActive and nothing changes; otherwise the chunk is counted and its transcript returned |
| Sessions.SessionManager.FeedActive | audio_summary_app/src/audio_summary_app/engine/session_manager.py:81-122 | an active session takes the chunk; no other session changes |
| Sessions.SessionManager.StopSession | audio_summary_app/src/audio_summary_app/engine/session_manager.py:295-409 | unknown id: SessionNotFound; a stopped session: "already_stopped" and nothing changes; otherwise stopped as PlanStop describes, its summaries kept |
| Sessions.SessionManager.StopActive | audio_summary_app/src/audio_summary_app/engine/session_manager.py:295-409 | an active session is stopped as PlanStop describes; no other session changes |
| Recording.RemoveForbidden | audio_summary_app/src/audio_summary_app/gui/recording_controller.py:220 | no forbidden character remains, and a name without one is unchanged |
| Recording.CollapseSpaces | audio_summary_app/src/audio_summary_app/gui/recording_controller.py:222 | never longer than the input, empty only for empty input, and its first character is the input's (a space for whitespace) |
| Recording.SingleSpacedCons | audio_summary_app/src/audio_summary_app/gui/recording_controller.py:222 | a non-space, or a plain space in front of a non-space, keeps a single-spaced string single-spaced |
| Recording.CollapseSingleSpaced | audio_summary_app/src/audio_summary_app/gui/recording_controller.py:222 | after `re.sub(r'\s+', ' ')` every whitespace character is a lone plain space |
| Recording.CollapseKeepsClean | audio_summary_app/src/audio_summary_app/gui/recording_controller.py:220-222 | collapsing adds no forbidden character |
| Recording.CollapseOfSingleSpaced | audio_summary_app/src/audio_summary_app/gui/recording_controller.py:222 | a single-spaced string is left alone by collapsing |
| Recording.SliceClean | audio_summary_app/src/audio_summary_app/gui/recording_controller.py:224 | stripping a clean, single-spaced string keeps it clean and single-spaced |
| Recording.SanitizeClean | audio_summary_app/src/audio_summary_app/gui/recording_controller.py:218-224 | a sanitized name has no forbidden character, single spaces only, and no whitespace at either end |
| Recording.SanitizeIdempotent | audio_summary_app/src/audio_summary_app/gui/recording_controller.py:218-224 | sanitizing twice is sanitizing once |
| Recording.Pad | audio_summary_app/src/audio_summary_app/gui/recording_controller.py:201-202 | a zero-padded field has exactly its width, all digits (also lines 245-246) |
| Recording.PadDigits | audio_summary_app/src/audio_summary_app/gui/recording_controller.py:200 | a string of digits is the padding of the number it denotes |
| Recording.DigitsOfPad | audio_summary_app/src/audio_summary_app/gui/recording_controller.py:201-202 | padding a number that fits its width loses nothing |
| Recording.StampFieldDigits | audio_summary_app/src/audio_summary_app/gui/recording_controller.py:200 | the six fields of an "8 digits _ 6 digits" text are digits |
| Recording.ParsedRenders | audio_summary_app/src/audio_summary_app/gui/recording_controller.py:200 | such a text is the rendering of the moment its fields name |
| Recording.StampPieces | audio_summary_app/src/audio_summary_app/gui/recording_controller.py:200 | a fifteen-character stamp is its six fields around the underscore |
| Recording.ParseStamp | audio_summary_app/src/audio_summary_app/gui/recording_controller.py:200 | `strptime(t, "%Y%m%d_%H%M%S")` on the fixed-width form: a parsed moment is a real calendar moment that renders back to t (also line 245) |
| Recording.ParseStampText | audio_summary_app/src/audio_summary_app/gui/recording_controller.py:125 | the rendering of every real moment parses back to it (also line 200) |
| Recording.StampFields | audio_summary_app/src/audio_summary_app/gui/recording_controller.py:200-202 | the date "YYYY-MM-DD", the time "HHMMSS" and the clock "HH:MM:SS" are cut from the timestamp itself (also lines 245-246) |
| Recording.CompanyName | audio_summary_app/src/audio_summary_app/gui/recording_controller.py:206-212 | non-empty only when the first company has that name |
| Recording.ContactName | audio_summary_app/src/audio_summary_app/gui/recording_controller.py:205-215 | non-empty only when the first contact has that name |
| Recording.FolderName | audio_summary_app/src/audio_summary_app/gui/recording_controller.py:191-236 | a folder name exists exactly when strptime accepts the timestamp |
| Recording.FolderNameForms | audio_summary_app/src/audio_summary_app/gui/recording_controller.py:199-236 | "date Company - Contact", "date Company", "date Contact" or "date Meeting HHMMSS", names sanitized, date and time cut from the timestamp |
| Recording.FolderNameFirstOnly | audio_summary_app/src/audio_summary_app/gui/recording_controller.py:205-215 | only the first company and the first contact matter, deals never |
| Recording.DigitsNotForbidden | audio_summary_app/src/audio_summary_app/gui/recording_controller.py:220 | digits are never forbidden characters |
| Recording.StampTextsClean | audio_summary_app/src/audio_summary_app/gui/recording_controller.py:201-202 | the date and time parts hold no forbidden character |
| Recording.FolderOfClean | audio_summary_app/src/audio_summary_app/gui/recording_controller.py:227-234 | whatever the names, the four forms hold no forbidden character |
| Recording.FolderNameClean | audio_summary_app/src/audio_summary_app/gui/recording_controller.py:191-236 | a folder name never holds a character the file system refuses |
| Recording.Values | audio_summary_app/src/audio_summary_app/gui/recording_controller.py:256-279 | one cell per column: as many cells as the twenty column names |
| Recording.RecordingRow | audio_summary_app/src/audio_summary_app/gui/recording_controller.py:238-277 | a row exists exactly when strptime accepts the timestamp |
| Recording.RowTotals | audio_summary_app/src/audio_summary_app/gui/recording_controller.py:274-276 | the totals columns read back as the three list lengths |
| Recording.RowStamp | audio_summary_app/src/audio_summary_app/gui/recording_controller.py:245-246 | the date, clock and file-stamp columns are cut from the timestamp (also lines 257-259) |
| Recording.RowOfNothing | audio_summary_app/src/audio_summary_app/gui/recording_controller.py:248-277 | with nothing extracted, every entity column is blank and the totals are 0 |
| Recording.RowFirstOnly | audio_summary_app/src/audio_summary_app/gui/recording_controller.py:252-276 | only the first entry of each list, and the list lengths, matter |
| Recording.ListCellLength | audio_summary_app/src/audio_summary_app/gui/recording_controller.py:270-273 | a list column is its entries joined by ", " |
| Recording.WithFinalChunk | audio_summary_app/src/audio_summary_app/gui/recording_controller.py:106-112 | a non-empty final chunk adds exactly one summary, its MAP result even when that is empty, after the earlier ones; an empty one adds none |
| Recording.Outcome | audio_summary_app/src/audio_summary_app/gui/recording_controller.py:114-151 | the run fails exactly when strptime refuses the timestamp; otherwise REDUCE over all summaries, EXTRACT, a clean folder named from the data, the row, and a header exactly when the CSV file is new |
| Recording.RecordingWorker.constructor | audio_summary_app/src/audio_summary_app/gui/recording_controller.py:30-53 | an empty buffer and summariser with the given configuration, not stopping |
| Recording.RecordingWorker.Stop | audio_summary_app/src/audio_summary_app/gui/recording_controller.py:187-189 | only the stop flag is raised |
| Recording.FinishRunFailsAsWritten | audio_summary_app/src/audio_summary_app/gui/recording_controller.py:106-151 | as written, every run ends in the error signal with the AttributeError for `force_finalize_chunk`, never in the files |
| Recording.TranscriptionStep | audio_summary_app/src/audio_summary_app/gui/recording_controller.py:163-175 | no text changes nothing; text goes into the buffer; a summary is appended, even an empty one, exactly when the buffer asks and hands over a non-empty chunk, and at most one |
| Recording.TranscriptionDroppedAsWritten | audio_summary_app/src/audio_summary_app/gui/recording_controller.py:166-180 | as written, the `add` lookup raises and the handler only prints, so the buffer and the summaries stay as they were for every text |
| Recording.RecordingWorker.FinishRun | audio_summary_app/src/audio_summary_app/gui/recording_controller.py:98-151 | the chunk is force-finalized and, when non-empty, summarised; REDUCE then runs over every summary; the result is the Outcome of those summaries; the LLM sees exactly the MAP request (if any) then the REDUCE request |
| Recording.FinalChunkReachesReduce | audio_summary_app/src/audio_summary_app/gui/recording_controller.py:106-116 | with a non-empty final chunk REDUCE numbers one block more, the last holding the final chunk's summary |
| Recording.RecordingController.constructor | audio_summary_app/src/audio_summary_app/gui/recording_controller.py:300-305 | not recording, no worker, no thread |
| Recording.RecordingController.StartRecording | audio_summary_app/src/audio_summary_app/gui/recording_controller.py:307-327 | ignored while recording; otherwise a fresh worker with an empty summariser on a new thread, and recording_started |
| Recording.RecordingController.StopRecording | audio_summary_app/src/audio_summary_app/gui/recording_controller.py:329-335 | ignored when not recording; otherwise only the worker's stop flag is raised |
| Recording.RecordingController.OnRecordingFinished | audio_summary_app/src/audio_summary_app/gui/recording_controller.py:337-349 | recording ends, worker and thread dropped, the summary path passed on |
| Recording.RecordingController.OnError | audio_summary_app/src/audio_summary_app/gui/recording_controller.py:351-363 | recording ends, worker and thread dropped, the message passed on |
| App.PlanAppTranscriber | audio_summary_app/src/audio_summary_app/__main__.py:43-57 | the backend name "parakeet", compared exactly, picks Parakeet with its model path; anything else picks Whisper with the Whisper path; both get the configured durations and capture rate |
| App.WhisperNeverStartsAsWritten | audio_summary_app/src/audio_summary_app/__main__.py:52-57 | as written, every backend other than "parakeet" fails with a TypeError on the keyword `sample_rate`, where the intended selection builds Whisper; "parakeet" is unaffected |
| App.StemTimestampOf | audio_summary_app/src/audio_summary_app/__main__.py:295 | the stem of "summary_<stamp>.txt" with "summary_" removed is the stamp, for a stamp without an 's' (the name is made at line 259) |
| App.ParsedHasNoS | audio_summary_app/src/audio_summary_app/__main__.py:296 | a timestamp strptime accepts has no 's' in it |
| App.MainRowIsFlat | audio_summary_app/src/audio_summary_app/__main__.py:306-363 | the branch with entities and the blank branch agree: the row is always the flattened row |
| App.AppRow | audio_summary_app/src/audio_summary_app/__main__.py:294-363 | a row exists exactly when strptime accepts the stem's timestamp |
| App.AppRowStamp | audio_summary_app/src/audio_summary_app/__main__.py:295-297 | for an accepted stamp the date, clock and file-stamp columns are cut from it, and the row is the one the GUI controller writes (also lines 341-344) |
| App.DataBesideSummary | audio_summary_app/src/audio_summary_app/__main__.py:255-260 | the data file is the summary file with ".txt" replaced by ".json" (also line 272) |
| App.Pending | audio_summary_app/src/audio_summary_app/__main__.py:144 | get_all_chunks is empty exactly when there are neither finalised chunks nor a current chunk; its last entry is the latest chunk |
| App.SavingOutcome | audio_summary_app/src/audio_summary_app/__main__.py:157-172 | the summary and data files sit under the file stamp and hold REDUCE's and EXTRACT's results; the CSV step fails exactly when strptime refuses the stem's timestamp; the header is written exactly when the CSV file is new |
| App.PlanFinish | audio_summary_app/src/audio_summary_app/__main__.py:141-172 | the early return "No content to summarize" happens exactly when there are no summaries and no chunks, and then nothing is sent to the model |
| App.PlanStop | audio_summary_app/src/audio_summary_app/__main__.py:99-172 | ignored when not recording; otherwise nothing to summarise exactly when there are no summaries, no finalised chunks and nothing in the current chunk after the flush |
| App.StopIgnoresBufferWithSummaries | audio_summary_app/src/audio_summary_app/__main__.py:141-158 | with summaries already made, whatever is still in the buffer, the flushed text included, changes neither the result nor the requests, and REDUCE is the only request |
| App.StopSummarizesLatestChunkOnly | audio_summary_app/src/audio_summary_app/__main__.py:143-158 | without summaries only the latest chunk is summarised: one MAP request (none for a blank chunk) then one REDUCE request, and buffers that end in the same chunk stop alike |
| App.RealStampSaves | audio_summary_app/src/audio_summary_app/__main__.py:157-172 | with a file stamp that renders a real moment and something to summarise, all three files are written and the row is the flattened row (also lines 255, 295-297) |
| App.AudioSummaryApp.constructor | audio_summary_app/src/audio_summary_app/__main__.py:20-64 | not running, not recording, no threads; an empty buffer and summariser; the transcriber the intended selection builds, with the configured durations and capture rate |
| App.AudioSummaryApp.Start | audio_summary_app/src/audio_summary_app/__main__.py:66-86 | ignored while running; otherwise running with the two worker threads |
| App.AudioSummaryApp.StartRecording | audio_summary_app/src/audio_summary_app/__main__.py:88-97 | ignored while recording; otherwise recording |
| App.AudioSummaryApp.StopRecording | audio_summary_app/src/audio_summary_app/__main__.py:99-178 | the result and the model requests are PlanStop's; recording ends; the transcriber's audio is flushed; buffer and summaries are cleared only when all three files were written, and kept (with the flushed text and the new summary) when the CSV step fails |
| App.AudioSummaryApp.StopActive | audio_summary_app/src/audio_summary_app/__main__.py:106-178 | once the flag is cleared: PlanStop's result and requests, with the flush and the clears as in StopRecording |
| App.AudioSummaryApp.FinishRecording | audio_summary_app/src/audio_summary_app/__main__.py:137-178 | after the flush: PlanFinish's result and requests; cleared only on success, untouched on the early return |
| App.AudioSummaryApp.FinishSummaries | audio_summary_app/src/audio_summary_app/__main__.py:141-155 | with no summaries the latest of get_all_chunks is summarised and added, whatever its text; with no chunk either there is nothing to summarise |
| App.AudioSummaryApp.Flush | audio_summary_app/src/audio_summary_app/__main__.py:120-125 | the transcriber's remaining audio is recognised and its non-empty text added to the buffer while the summary worker runs |
| App.AudioSummaryApp.Conclude | audio_summary_app/src/audio_summary_app/__main__.py:157-176 | REDUCE and EXTRACT over the summaries, the three files, then the clears, reached only when the CSV step succeeds |
| App.AudioSummaryApp.Stop | audio_summary_app/src/audio_summary_app/__main__.py:180-192 | a recording in progress is stopped as StopRecording does; afterwards neither running nor recording |

## Left out

- The backends are abstract. `mlx_whisper.transcribe`, the Parakeet streaming context, `ollama.generate`, `OllamaLLM`/`MockLLM` and pydantic validation are function parameters. Their internals, and the availability probes `_test_*_available`, are booleans.
- Floating point is not modelled:
  - Samples are kept as their four bytes; their numeric value is a caller-supplied function, so IEEE 754 decoding is absent.
  - Amplitudes, normalisation and durations are exact reals.
  - The float product `int(chunk_duration * sample_rate)` is a real product truncated toward zero.
- Base64 decoding follows Python's non-validating `b64decode`: non-ASCII text is refused, and other characters outside the alphabet are discarded before strict decoding. Corner cases of CPython's padding handling beyond that are not modelled.
- Concurrency is left out. Threads, queues, their time-outs and sleeps, and the locks are not modelled, and neither is the window in `stop_session` between releasing the lock after "processing" and taking it again for "stopped". Every operation runs sequentially, and in the command-line application a flushed transcript reaches the buffer directly when the summary worker runs.
- File, clock and device I/O are left out:
  - audio capture, `mkdir`, `expanduser` and the file writes;
  - CSV quoting and the writer itself, and JSON serialisation;
  - `datetime.now()` and `strftime`.

  The model returns what would be written and where.
- strptime is modelled only for the fixed-width form "YYYYMMDD_HHMMSS". Python also accepts some shorter fields, and those inputs count as refused here.
- Transcripts.BufferOps: TranscriptBuffer does not define the four operations these callers use (see Findings). The intended model takes them as caller-supplied operations on a buffer value and gives them no behaviour of their own.
- Summarizer.Render models `str.format` as replacing every `{field}` with the value. It does not model the KeyError or ValueError that a custom prompt with any other brace raises at summarizer.py:158, 203 and 257, outside their `try`. It also does not model `{{` and `}}` becoming single braces. The default prompts contain no other brace (Summarizer.NoBraceInChunkPrompt, Summarizer.NoBraceInFinalPrompt), so for them Render is exact.
- Output paths are joined as text: `dir + "/" + name` in Sessions.PlanStop, Sessions.Session.Process, App.SummaryPath, App.DataPath and Recording.Outcome. pathlib's `/` also normalises the path: it drops a trailing slash of the directory and collapses repeated slashes, and an empty directory gives the bare file name. None of that is modelled.
- Transcriber.Recognize treats loading the Parakeet model as all or nothing (`loadSucceeds`), and it retries a failed load on every call. In _load_model (transcriber.py:339-347), `from_pretrained` can succeed and then `transcribe_stream` or `__enter__` raise. After that, every call skips loading because the model is set, fails on the missing streaming context, and gives "". That partial load is not modelled.
- Recording.RecordingController.Valid assumes the worker is always constructed. In start_recording (recording_controller.py:312-315), `is_recording` is set before `RecordingWorker(...)` is built. If that constructor raises (for example, the audio device or a transcriber constructor fails), the controller stays "recording" without a worker and ignores every later start and stop. The model does not include that state.
- Text.ToLower only folds the ASCII capitals; Python's `lower()` is full Unicode case mapping.
- Exception messages are left out. Errors are datatype constructors with their data, so, for example, the wrapping of an AudioFormatError raised inside decode_pcm_from_base64's own `try` is not modelled.
- Sessions.Session.Stop: "processing" exists only during the call, because the lock gap is not modelled. The invariant allows only "active", or "stopped" after "processing".
- The engine's `_append_to_csv` row (session_manager.py:411-456) and `get_session_stats` (session_manager.py:468-491) are not part of this model. Their only effect is writing a file or reporting counters; whether a row was appended is the `csvWritten` argument.
- The rest of engine/server.py is left out: the HTTP framing, authentication and backpressure. Only its rule that audio for a session that is not active is refused is modelled, in `Sessions.SessionManager.SubmitAudio`.
- transcribe_file, the WAV loader of the test client, the GUI windows, the device and service helpers, the scripts and the packaging are not part of this model.
- TestClient.ChunkAudio requires a positive chunk size. A size of zero raises ZeroDivisionError in the source, and a negative one turns the slices into Python's negative indexing, which the model does not follow.
- App.AudioSummaryApp.StopRecording: the effect on the buffer and the summaries is stated for each case (nothing to summarise, saved, CSV step failed), not as one closed formula.
- The code and the specification disagree in two places:
  - The specification says a stopped session's intermediate summaries are cleared. stop_session keeps them, and the model follows the code.
  - The specification says reaching the maximum audio duration forces transcription. The code only logs it, and the model follows the code.

## Findings

| source | as written | input that shows it | evidently intended | confidence | as-written member | corrected member |
|---|---|---|---|---|---|---|
| audio_summary_app/src/audio_summary_app/transcript_buffer.py:94-97 | `list(self.segments)[-count:]` | count = 0 on a non-empty ring returns every segment, since `[-0:]` is `[0:]` | the most recent `count` segments, none for 0 | high; not executed | `Transcripts.RecentSegmentsAsWritten` with `Transcripts.RecentAsWrittenZeroReturnsAll` | `Transcripts.RecentSegments` |
| audio_summary_app/src/audio_summary_app/engine/session_manager.py:255-261 | `ParakeetTranscriber(..., capture_sample_rate=...)`, a keyword the constructor (transcriber.py:288) does not accept | a session config with backend "parakeet" raises TypeError, in every runtime mode | a Parakeet transcriber built with `sample_rate` set to the capture rate | high; not executed | `Sessions.PlanTranscriberAsWritten` with `Sessions.ParakeetNeverStartsAsWritten` | `Sessions.PlanTranscriber` |
| audio_summary_app/src/audio_summary_app/engine/session_manager.py:341 | `session.transcript_buffer.force_finalize_chunk()`, preceded by `add` at line 338 for a non-empty flush. TranscriptBuffer (transcript_buffer.py:19-139) defines neither. Both calls come after line 331 sets the status to "processing" | stopping any active session raises AttributeError and leaves it "processing"; stopping it again raises again | the final chunk finalised and summarised, the files reported and the session marked "stopped" | high; not executed | `Sessions.StopSessionAsWritten` with `Sessions.StopNeverFinishesAsWritten` | `Sessions.Session.Stop` |
| audio_summary_app/src/audio_summary_app/engine/session_manager.py:111 | `self.transcript_buffer.add(transcript, source='capture')`, not a TranscriptBuffer method | the first audio chunk whose transcription is non-empty raises AttributeError, and that text is lost | the text added to the buffer and MAP run when the buffer asks | high; not executed | `Sessions.MapStepAsWritten` with `Sessions.TranscriptRaisesAsWritten` | `Sessions.MapStep` |
| audio_summary_app/src/audio_summary_app/gui/recording_controller.py:108 | `self.transcript_buffer.force_finalize_chunk()` inside run's `try` | every recording ends in the error signal with "'TranscriptBuffer' object has no attribute 'force_finalize_chunk'" and writes no files | the final chunk summarised, then REDUCE, EXTRACT and the files | high; not executed | `Recording.FinishRunAsWritten` with `Recording.FinishRunFailsAsWritten` | `Recording.RecordingWorker.FinishRun` |
| audio_summary_app/src/audio_summary_app/gui/recording_controller.py:168-172 | `self.transcript_buffer.add(text)` in the transcription thread, whose handler only prints | every recognised text is dropped, so no chunk summary is ever made while recording | the text added to the buffer and MAP run when the buffer asks | high; not executed | `Recording.TranscriptionStepAsWritten` with `Recording.TranscriptionDroppedAsWritten` | `Recording.TranscriptionStep` |
| audio_summary_app/src/audio_summary_app/__main__.py:52-57 | `StreamingTranscriber(..., sample_rate=...)`, a keyword the constructor (transcriber.py:20) does not accept | choosing backend "whisper", or any name but the default "parakeet", raises TypeError when the application is built | a Whisper transcriber built with `capture_sample_rate` set to the configured rate | high; not executed | `App.PlanAppTranscriberAsWritten` with `App.WhisperNeverStartsAsWritten` | `App.PlanAppTranscriber` |
