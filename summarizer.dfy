/**
 * The map-reduce summariser (summarizer.py). MAP turns one transcript chunk
 * into a short summary with one LLM call; REDUCE turns the list of
 * intermediate summaries, and nothing else, into the final summary with one
 * more call; EXTRACT asks the LLM for structured meeting data in a fixed
 * JSON schema and validates the answer.
 *
 * The LLMs are caller-supplied functions that may fail. Each operation
 * returns, beside its text, the requests it sent, so that "no LLM call" is a
 * statement about the result.
 */
module Summarizer {
  import opened Wrappers
  import opened Seqs
  import opened Text
  import opened Transcripts

  datatype Contact = Contact(name: Option<string>, role: Option<string>, location: Option<string>,
                             isDecisionMaker: Option<bool>, tenureDuration: Option<string>)

  datatype Company = Company(name: Option<string>, aum: Option<string>, icpClassification: Option<int>,
                             location: Option<string>, isClient: Option<bool>,
                             competitorProducts: Option<seq<string>>,
                             strategiesOfInterest: Option<seq<string>>)

  datatype Deal = Deal(ticketSize: Option<string>, productsOfInterest: Option<seq<string>>)

  /** The structured record extracted from a meeting. */
  datatype MeetingData = MeetingData(contacts: seq<Contact>, companies: seq<Company>, deals: seq<Deal>)

  const EmptyMeetingData: MeetingData := MeetingData([], [], [])

  /** A free-text generation request: the prompt and its token budget. */
  datatype LlmRequest = LlmRequest(prompt: string, maxTokens: int)

  /** A generation call's result: text, or an exception. */
  datatype LlmOutcome = Generated(text: string) | LlmFailed(message: string)

  /** A structured-output request to the local model server. */
  datatype ExtractionRequest = ExtractionRequest(model: string, prompt: string, temperature: real, numPredict: int)

  /** The text an operation produced and the generation requests it sent. */
  datatype Generation = Generation(text: string, requests: seq<LlmRequest>)

  /** The record an extraction produced and the structured requests it sent. */
  datatype Extraction = Extraction(data: MeetingData, requests: seq<ExtractionRequest>)

  datatype IntermediateSummary = IntermediateSummary(summary: string, timestamp: Time)

  const ChunkPromptPart1: string :=
    "Summarize the following "
    + "conversation transcript "
    + "concisely.\nFocus on key "
  const ChunkPromptPart2: string :=
    "points, topics discussed, "
    + "and any important decisions "
    + "or information.\n\n"
  const ChunkPromptPart3: string :=
    "Transcript:\n"
  const ChunkPromptHead: string := ChunkPromptPart1 + ChunkPromptPart2 + ChunkPromptPart3
  const ChunkPromptTail: string := "\n\nSummary:"
  const DefaultChunkPrompt: string := ChunkPromptHead + "{text}" + ChunkPromptTail

  const FinalPromptPart1: string :=
    "You are summarizing a "
    + "conversation that was "
    + "captured over time.\nBelow "
  const FinalPromptPart2: string :=
    "are summaries of different "
    + "segments of the "
    + "conversation.\n\nCreate a "
  const FinalPromptPart3: string :=
    "comprehensive final summary "
    + "that:\n1. Identifies the "
    + "main topics and themes "
  const FinalPromptPart4: string :=
    "discussed\n2. Highlights key "
    + "points, decisions, or "
    + "action items\n3. Notes any "
  const FinalPromptPart5: string :=
    "important information or "
    + "insights\n4. Maintains "
    + "chronological flow where "
  const FinalPromptPart6: string :=
    "relevant\n\nSegment "
    + "Summaries:\n"
  const FinalPromptHead: string := FinalPromptPart1 + FinalPromptPart2 + FinalPromptPart3 + FinalPromptPart4 + FinalPromptPart5 + FinalPromptPart6
  const FinalPromptTail: string := "\n\nFinal Comprehensive Summary:"
  const DefaultFinalPrompt: string := FinalPromptHead + "{summaries_text}" + FinalPromptTail

  const NoContentMessage: string := "No content to summarize. No intermediate summaries available."

  /** The token budget of every extraction request. */
  const ExtractionTokens: int := 2000

  datatype SummarizerConfig = SummarizerConfig(
    modelName: string, summaryInterval: int,
    chunkSummaryMaxTokens: int, finalSummaryMaxTokens: int,
    chunkSummaryPrompt: string, finalSummaryPrompt: string)

  /** `prompt or default`: a missing or empty custom prompt selects the default. */
  function PromptOrDefault(custom: Option<string>, fallback: string): (p: string)
    ensures custom.Some? && custom.value != "" ==> p == custom.value
    ensures custom.None? || custom.value == "" ==> p == fallback
  {
    if custom.Some? && custom.value != "" then custom.value else fallback
  }

  /** MapReduceSummarizer.__init__'s configuration. */
  function NewConfig(modelName: string, summaryInterval: int, chunkSummaryMaxTokens: int,
                     finalSummaryMaxTokens: int, chunkSummaryPrompt: Option<string>,
                     finalSummaryPrompt: Option<string>): SummarizerConfig
  {
    SummarizerConfig(modelName, summaryInterval, chunkSummaryMaxTokens, finalSummaryMaxTokens,
                     PromptOrDefault(chunkSummaryPrompt, DefaultChunkPrompt),
                     PromptOrDefault(finalSummaryPrompt, DefaultFinalPrompt))
  }

  /** `template.format(field=value)` for a template whose only braces are the
   *  placeholders of that one field. */
  function Render(template: string, field: string, value: string): string
  {
    ReplaceAll(template, "{" + field + "}", value)
  }

  lemma NoBraceInChunkPromptPart1()
    ensures '{' !in ChunkPromptPart1
  {
  }

  lemma NoBraceInChunkPromptPart2()
    ensures '{' !in ChunkPromptPart2
  {
  }

  lemma NoBraceInChunkPromptPart3()
    ensures '{' !in ChunkPromptPart3
  {
  }

  lemma NoBraceInFinalPromptPart1()
    ensures '{' !in FinalPromptPart1
  {
  }

  lemma NoBraceInFinalPromptPart2()
    ensures '{' !in FinalPromptPart2
  {
  }

  lemma NoBraceInFinalPromptPart3()
    ensures '{' !in FinalPromptPart3
  {
  }

  lemma NoBraceInFinalPromptPart4()
    ensures '{' !in FinalPromptPart4
  {
  }

  lemma NoBraceInFinalPromptPart5()
    ensures '{' !in FinalPromptPart5
  {
  }

  lemma NoBraceInFinalPromptPart6()
    ensures '{' !in FinalPromptPart6
  {
  }

  /** The fixed texts of the default prompts contain no brace. */
  lemma NoBraceInChunkPrompt()
    ensures '{' !in ChunkPromptHead && '{' !in ChunkPromptTail
  {
    NoBraceInChunkPromptPart1();
    NoBraceInChunkPromptPart2();
    NoBraceInChunkPromptPart3();
  }

  lemma NoBraceInFinalPrompt()
    ensures '{' !in FinalPromptHead && '{' !in FinalPromptTail
  {
    NoBraceInFinalPromptPart1();
    NoBraceInFinalPromptPart2();
    NoBraceInFinalPromptPart3();
    NoBraceInFinalPromptPart4();
    NoBraceInFinalPromptPart5();
    NoBraceInFinalPromptPart6();
  }

  /** The default prompts embed their input verbatim between fixed texts. */
  lemma DefaultChunkPromptRender(text: string)
    ensures Render(DefaultChunkPrompt, "text", text) == ChunkPromptHead + text + ChunkPromptTail
  {
    NoBraceInChunkPrompt();
    assert "{" + "text" + "}" == "{text}";
    ReplaceOne(ChunkPromptHead, "{text}", ChunkPromptTail, text);
  }

  lemma DefaultFinalPromptRender(summariesText: string)
    ensures Render(DefaultFinalPrompt, "summaries_text", summariesText) == FinalPromptHead + summariesText + FinalPromptTail
  {
    NoBraceInFinalPrompt();
    assert "{" + "summaries_text" + "}" == "{summaries_text}";
    ReplaceOne(FinalPromptHead, "{summaries_text}", FinalPromptTail, summariesText);
  }

  /**
   * summarize_chunk (MAP): blank text gives "" without calling the LLM;
   * otherwise exactly one request with the rendered chunk prompt and the chunk
   * token budget, whose answer is stripped, an exception becoming an error
   * sentinel.
   */
  function SummarizeChunk(config: SummarizerConfig, text: string, llm: LlmRequest -> LlmOutcome): (g: Generation)
    ensures IsBlank(text) ==> g == Generation("", [])
    ensures !IsBlank(text) ==>
      var request := LlmRequest(Render(config.chunkSummaryPrompt, "text", text), config.chunkSummaryMaxTokens);
      && g.requests == [request]
      && (llm(request).Generated? ==> g.text == Strip(llm(request).text))
      && (llm(request).LlmFailed? ==> g.text == "[Error summarizing chunk: " + llm(request).message + "]")
  {
    StripEmptyIffBlank(text);
    if Strip(text) == "" then Generation("", [])
    else
      var request := LlmRequest(Render(config.chunkSummaryPrompt, "text", text), config.chunkSummaryMaxTokens);
      match llm(request)
      case Generated(t) => Generation(Strip(t), [request])
      case LlmFailed(m) => Generation("[Error summarizing chunk: " + m + "]", [request])
  }

  /** A chunk summary is empty only for blank input or a blank LLM answer, and
   *  a successful one carries no surrounding whitespace. */
  lemma SummarizeChunkEmpty(config: SummarizerConfig, text: string, llm: LlmRequest -> LlmOutcome)
    ensures var g := SummarizeChunk(config, text, llm);
      (g.text == "" <==> IsBlank(text) || (llm(g.requests[0]).Generated? && IsBlank(llm(g.requests[0]).text)))
      && (g.requests != [] && llm(g.requests[0]).Generated? ==> Strip(g.text) == g.text)
  {
    var g := SummarizeChunk(config, text, llm);
    if !IsBlank(text) && llm(g.requests[0]).Generated? {
      StripEmptyIffBlank(llm(g.requests[0]).text);
      StripIdempotent(llm(g.requests[0]).text);
    }
  }

  /** The block for the summary at position `i`, numbered from 1. */
  function Block(tag: string, i: nat, s: IntermediateSummary): string
  {
    "[" + tag + NatToString(i + 1) + "] " + s.summary
  }

  /** The numbered blocks "[1] s1", "[2] s2", ... with the given tag. */
  function Blocks(tag: string, summaries: seq<IntermediateSummary>): (blocks: seq<string>)
    ensures |blocks| == |summaries|
    ensures forall i :: 0 <= i < |summaries| ==> blocks[i] == Block(tag, i, summaries[i])
  {
    seq(|summaries|, i requires 0 <= i < |summaries| => Block(tag, i, summaries[i]))
  }

  /** The REDUCE input: numbered summaries separated by blank lines. */
  function ReduceText(summaries: seq<IntermediateSummary>): string
  {
    Join(Blocks("", summaries), "\n\n")
  }

  /** The EXTRACT input: summaries numbered "[Segment i]", separated by blank lines. */
  function ExtractText(summaries: seq<IntermediateSummary>): string
  {
    Join(Blocks("Segment ", summaries), "\n\n")
  }

  /** A new summary becomes the next numbered block after all earlier ones,
   *  which are unchanged: REDUCE sees the summaries in the order added. */
  lemma BlocksAppend(tag: string, summaries: seq<IntermediateSummary>, s: IntermediateSummary)
    requires summaries != []
    ensures Join(Blocks(tag, summaries + [s]), "\n\n")
      == Join(Blocks(tag, summaries), "\n\n") + "\n\n" + Block(tag, |summaries|, s)
  {
    var b := Blocks(tag, summaries + [s]);
    var a := Blocks(tag, summaries);
    var last := Block(tag, |summaries|, s);
    assert b == a + [last] by {
      forall i | 0 <= i < |b| ensures b[i] == (a + [last])[i] {
        if i < |a| {
          assert (summaries + [s])[i] == summaries[i];
        }
      }
    }
    JoinAppend(a, "\n\n", last);
  }

  lemma PrefixOfAppend(a: string, b: string)
    ensures IsPrefix(a, a + b)
  {
    assert (a + b)[..|a|] == a;
  }

  /** The header of a generated final summary. */
  function FinalHeader(stamp: string, count: nat): string
  {
    "Summary Generated: " + stamp + "\nNumber of Segments: " + NatToString(count) + "\n\n"
  }

  /**
   * generate_final_summary (REDUCE) over the intermediate summaries only:
   * none gives the fixed no-content message without calling the LLM;
   * otherwise exactly one request with the rendered final prompt and the final
   * token budget. `stamp` is the "%Y-%m-%d %H:%M:%S" rendering of the clock.
   */
  function GenerateFinalSummary(config: SummarizerConfig, summaries: seq<IntermediateSummary>,
                                llm: LlmRequest -> LlmOutcome, stamp: string): (g: Generation)
    ensures summaries == [] ==> g == Generation(NoContentMessage, [])
    ensures summaries != [] ==>
      var request := LlmRequest(Render(config.finalSummaryPrompt, "summaries_text", ReduceText(summaries)),
                                config.finalSummaryMaxTokens);
      && g.requests == [request]
      && (llm(request).Generated? ==> g.text == FinalHeader(stamp, |summaries|) + Strip(llm(request).text) + "\n")
      && (llm(request).LlmFailed? ==> g.text == "[Error generating final summary: " + llm(request).message + "]")
  {
    if summaries == [] then Generation(NoContentMessage, [])
    else
      var request := LlmRequest(Render(config.finalSummaryPrompt, "summaries_text", ReduceText(summaries)),
                                config.finalSummaryMaxTokens);
      match llm(request)
      case Generated(t) => Generation(FinalHeader(stamp, |summaries|) + Strip(t) + "\n", [request])
      case LlmFailed(m) => Generation("[Error generating final summary: " + m + "]", [request])
  }

  /** With the default prompt the REDUCE request holds the numbered summaries
   *  and nothing but fixed text around them. */
  lemma FinalPromptHoldsSummaries(config: SummarizerConfig, summaries: seq<IntermediateSummary>,
                                  llm: LlmRequest -> LlmOutcome, stamp: string)
    requires summaries != [] && config.finalSummaryPrompt == DefaultFinalPrompt
    ensures GenerateFinalSummary(config, summaries, llm, stamp).requests[0].prompt
      == FinalPromptHead + ReduceText(summaries) + FinalPromptTail
  {
    DefaultFinalPromptRender(ReduceText(summaries));
  }

  /** A generated final summary starts with the stamp and the number of
   *  summaries (which reads back as that count, by NatToStringRoundTrip). */
  lemma FinalSummaryHeader(config: SummarizerConfig, summaries: seq<IntermediateSummary>,
                           llm: LlmRequest -> LlmOutcome, stamp: string)
    requires summaries != []
    requires llm(GenerateFinalSummary(config, summaries, llm, stamp).requests[0]).Generated?
    ensures IsPrefix(FinalHeader(stamp, |summaries|), GenerateFinalSummary(config, summaries, llm, stamp).text)
  {
    var g := GenerateFinalSummary(config, summaries, llm, stamp);
    var h := FinalHeader(stamp, |summaries|);
    var rest := Strip(llm(g.requests[0]).text) + "\n";
    assert g.text == h + rest;
    PrefixOfAppend(h, rest);
  }

  /**
   * extract_structured_data: no summaries gives the empty record without a
   * request; otherwise one structured request (rendered prompt followed by the
   * JSON schema text, temperature 0, 2000 tokens) whose answer is validated
   * against the schema. A failed request or a failed validation gives the
   * empty record.
   */
  function ExtractStructuredData(modelName: string, summaries: seq<IntermediateSummary>,
                                 extractionPrompt: string, schemaText: string,
                                 generate: ExtractionRequest -> LlmOutcome,
                                 validate: string -> Option<MeetingData>): (x: Extraction)
    ensures summaries == [] ==> x == Extraction(EmptyMeetingData, [])
    ensures summaries != [] ==>
      var request := ExtractionRequest(modelName,
        Render(extractionPrompt, "summaries_text", ExtractText(summaries)) + "\n\nJSON Schema:\n" + schemaText,
        0.0, ExtractionTokens);
      && x.requests == [request]
      && (generate(request).Generated? && validate(generate(request).text).Some? ==>
            x.data == validate(generate(request).text).value)
      && (generate(request).Generated? && validate(generate(request).text).None? ==>
            x.data == EmptyMeetingData)
      && (generate(request).LlmFailed? ==> x.data == EmptyMeetingData)
  {
    if summaries == [] then Extraction(EmptyMeetingData, [])
    else
      var request := ExtractionRequest(modelName,
        Render(extractionPrompt, "summaries_text", ExtractText(summaries)) + "\n\nJSON Schema:\n" + schemaText,
        0.0, ExtractionTokens);
      match generate(request)
      case LlmFailed(_) => Extraction(EmptyMeetingData, [request])
      case Generated(json) =>
        match validate(json)
        case None => Extraction(EmptyMeetingData, [request])
        case Some(data) => Extraction(data, [request])
  }

  /** The intermediate-summary store of a MapReduceSummarizer. */
  class MapReduceSummarizer {
    const config: SummarizerConfig
    var intermediateSummaries: seq<IntermediateSummary>

    constructor(config: SummarizerConfig)
      ensures this.config == config && intermediateSummaries == []
    {
      this.config := config;
      intermediateSummaries := [];
    }

    /** add_intermediate_summary: appends, stamped `now`; earlier entries stay. */
    method AddIntermediateSummary(summary: string, now: Time)
      modifies this
      ensures intermediateSummaries == old(intermediateSummaries) + [IntermediateSummary(summary, now)]
    {
      intermediateSummaries := intermediateSummaries + [IntermediateSummary(summary, now)];
    }

    /** clear_intermediate_summaries. */
    method ClearIntermediateSummaries()
      modifies this
      ensures intermediateSummaries == []
    {
      intermediateSummaries := [];
    }
  }
}
