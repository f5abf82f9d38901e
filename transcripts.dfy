/**
 * The in-memory transcript buffer (transcript_buffer.py): a ring of the most
 * recent transcript segments, plus a grouping of every segment, in arrival
 * order, into time-based chunks that feed the map-reduce summariser.
 *
 * The wall clock is an explicit `now` (seconds) parameter; the same instant
 * stamps a segment and, when that segment closes a chunk, starts the next one.
 */
module Transcripts {
  import opened Wrappers
  import opened Seqs
  import opened Text

  /** A wall-clock instant, in seconds. */
  type Time = real

  datatype Segment = Segment(text: string, timestamp: Time, source: string)

  /** A finalised chunk: its segments' texts joined by single spaces, the
   *  timestamps of its first and last segment, and how many segments it has. */
  datatype Chunk = Chunk(text: string, startTime: Time, endTime: Time, segmentCount: nat)

  function Texts(segments: seq<Segment>): (texts: seq<string>)
    ensures |texts| == |segments|
    ensures forall i :: 0 <= i < |segments| ==> texts[i] == segments[i].text
  {
    seq(|segments|, i requires 0 <= i < |segments| => segments[i].text)
  }

  function ChunkOf(segments: seq<Segment>): Chunk
    requires segments != []
  {
    Chunk(Join(Texts(segments), " "), segments[0].timestamp, segments[|segments| - 1].timestamp, |segments|)
  }

  /** The last `n` elements of `s` (all of them when there are fewer). */
  function LastN<T>(s: seq<T>, n: nat): (r: seq<T>)
    ensures |r| == Min(|s|, n)
    ensures r == s[|s| - |r|..]
  {
    if |s| <= n then s else s[|s| - n..]
  }

  /** `deque.append` on a deque with `maxlen`: when full, the oldest element
   *  is dropped; with `maxlen` 0 nothing is ever kept. */
  function RingAppend<T>(ring: seq<T>, x: T, maxLen: nat): seq<T>
  {
    if maxLen == 0 then [] else if |ring| < maxLen then ring + [x] else ring[|ring| - maxLen + 1..] + [x]
  }

  /** Appending to a bounded deque keeps it equal to the last `maxLen`
   *  elements of everything ever appended. */
  lemma RingAppendKeepsLast<T>(all: seq<T>, x: T, maxLen: nat)
    ensures RingAppend(LastN(all, maxLen), x, maxLen) == LastN(all + [x], maxLen)
  {
    var ring := LastN(all, maxLen);
    var s := all + [x];
    if maxLen > 0 && |ring| >= maxLen {
      assert |all| >= maxLen;
      assert ring[|ring| - maxLen + 1..] == all[|all| - maxLen + 1..];
      assert LastN(s, maxLen) == s[|s| - maxLen..];
      assert s[|s| - maxLen..] == all[|all| - maxLen + 1..] + [x];
    }
  }

  lemma ConcatOfNonEmpty<T>(xs: seq<seq<T>>)
    requires forall i :: 0 <= i < |xs| ==> xs[i] != []
    ensures Concat(xs) == [] <==> xs == []
  {
  }

  /**
   * The buffer. Besides the real fields it keeps, as ghost state, every
   * segment added since creation or the last clear, and the segments that
   * make up each finalised chunk.
   */
  /** The fields of a transcript buffer, as a value. */
  datatype BufferView = BufferView(segments: seq<Segment>, chunks: seq<Chunk>, currentChunk: seq<Segment>,
                                   chunkStartTime: Time, maxBufferSize: nat, chunkDuration: int)

  /** The text a buffer operation hands back, and the buffer afterwards. */
  datatype Taken = Taken(text: string, rest: BufferView)

  /** The buffer operations the session manager and the recording worker call
   *  but the buffer does not define:
   *  `add(buffer, text, source, now)`, `should_summarize`,
   *  `get_chunk_for_summary` and `force_finalize_chunk`. */
  datatype BufferOps = BufferOps(
    add: (BufferView, string, string, Time) -> BufferView,
    shouldSummarize: BufferView -> bool,
    getChunkForSummary: BufferView -> Taken,
    forceFinalizeChunk: BufferView -> Taken)

  /** The methods TranscriptBuffer defines (transcript_buffer.py:19-139). */
  const TranscriptBufferMethods: set<string> := {"__init__", "add_segment", "_finalize_chunk", "get_all_chunks",
    "get_recent_segments", "get_segments_since", "get_buffer_stats", "clear", "get_full_transcript"}

  /** The Python names of the four operations `BufferOps` stands for. */
  const BufferOpNames: set<string> := {"add", "should_summarize", "get_chunk_for_summary", "force_finalize_chunk"}

  /** The text of the AttributeError raised when `name` is looked up on a
   *  TranscriptBuffer that has no such attribute. */
  function MissingMethodMessage(name: string): string
  {
    "'TranscriptBuffer' object has no attribute '" + name + "'"
  }

  /** Looking up a method on a TranscriptBuffer as written: the message of the
   *  AttributeError it raises, or None when the buffer defines it. */
  function LookupAsWritten(name: string): (e: Option<string>)
    ensures e.None? <==> name in TranscriptBufferMethods
    ensures e.Some? ==> e.value == MissingMethodMessage(name)
  {
    if name in TranscriptBufferMethods then None else Some(MissingMethodMessage(name))
  }

  /** None of the four operations the session manager and the recording
   *  worker call is a method of TranscriptBuffer: each lookup raises. */
  lemma BufferOpsMissingAsWritten(name: string)
    requires name in BufferOpNames
    ensures LookupAsWritten(name) == Some(MissingMethodMessage(name))
  {
    assert name[0] != '_';
    assert name !in TranscriptBufferMethods by {
      if name == "add" {
        assert name != "add_segment" && name != "clear";
      }
    }
  }

  class TranscriptBuffer {
    const maxBufferSize: nat
    const chunkDuration: int
    var segments: seq<Segment>
    var chunks: seq<Chunk>
    var currentChunk: seq<Segment>
    var chunkStartTime: Time
    ghost var added: seq<Segment>
    ghost var chunkSegments: seq<seq<Segment>>

    /**
     * The ring holds exactly the last `maxBufferSize` segments added; every
     * segment added belongs to exactly one finalised chunk or to the current
     * chunk, in arrival order, however many the ring has dropped.
     */
    ghost predicate Valid()
      reads this
    {
      segments == LastN(added, maxBufferSize)
      && |chunks| == |chunkSegments|
      && (forall i :: 0 <= i < |chunks| ==> chunkSegments[i] != [] && chunks[i] == ChunkOf(chunkSegments[i]))
      && Concat(chunkSegments) + currentChunk == added
    }

    constructor(maxBufferSize: nat, chunkDuration: int, now: Time)
      ensures Valid()
      ensures this.maxBufferSize == maxBufferSize && this.chunkDuration == chunkDuration
      ensures segments == [] && chunks == [] && currentChunk == [] && chunkStartTime == now && added == []
    {
      this.maxBufferSize := maxBufferSize;
      this.chunkDuration := chunkDuration;
      segments := [];
      chunks := [];
      currentChunk := [];
      chunkStartTime := now;
      added := [];
      chunkSegments := [];
    }

    /** _finalize_chunk: a non-empty current chunk becomes a finalised chunk and
     *  a new chunk starts at `now`; an empty one changes nothing. */
    method FinalizeChunk(now: Time)
      requires Valid()
      modifies this
      ensures Valid()
      ensures segments == old(segments) && added == old(added)
      ensures old(currentChunk) == [] ==>
        chunks == old(chunks) && currentChunk == [] && chunkStartTime == old(chunkStartTime)
      ensures old(currentChunk) != [] ==>
        chunks == old(chunks) + [ChunkOf(old(currentChunk))] && currentChunk == [] && chunkStartTime == now
    {
      if currentChunk != [] {
        ConcatAppend(chunkSegments, currentChunk);
        chunks := chunks + [ChunkOf(currentChunk)];
        chunkSegments := chunkSegments + [currentChunk];
        currentChunk := [];
        chunkStartTime := now;
      }
    }

    /** add_segment: the segment, stamped `now`, goes into the ring and the
     *  current chunk; once `chunkDuration` seconds have passed since the chunk
     *  started, the chunk is finalised. */
    method AddSegment(text: string, source: string, now: Time)
      requires Valid()
      modifies this
      ensures Valid()
      ensures var segment := Segment(text, now, source);
        && added == old(added) + [segment]
        && segments == RingAppend(old(segments), segment, maxBufferSize)
        && if now - old(chunkStartTime) >= chunkDuration as real then
             chunks == old(chunks) + [ChunkOf(old(currentChunk) + [segment])]
             && currentChunk == [] && chunkStartTime == now
           else
             chunks == old(chunks) && currentChunk == old(currentChunk) + [segment]
             && chunkStartTime == old(chunkStartTime)
    {
      var segment := Segment(text, now, source);
      RingAppendKeepsLast(added, segment, maxBufferSize);
      segments := RingAppend(segments, segment, maxBufferSize);
      added := added + [segment];
      currentChunk := currentChunk + [segment];
      if now - chunkStartTime >= chunkDuration as real {
        FinalizeChunk(now);
      }
    }

    /** get_all_chunks: finalises the current chunk, then returns every chunk;
     *  their segments are then exactly the segments added, in order. */
    method GetAllChunks(now: Time) returns (result: seq<Chunk>)
      requires Valid()
      modifies this
      ensures Valid()
      ensures segments == old(segments) && added == old(added)
      ensures result == chunks
      ensures chunks == old(chunks) + (if old(currentChunk) == [] then [] else [ChunkOf(old(currentChunk))])
      ensures currentChunk == [] && Concat(chunkSegments) == added
      ensures added != [] <==> result != []
    {
      FinalizeChunk(now);
      result := chunks;
      assert Concat(chunkSegments) + [] == Concat(chunkSegments);
      ConcatOfNonEmpty(chunkSegments);
    }

    /** clear: forgets every segment and chunk; a new chunk starts at `now`. */
    method Clear(now: Time)
      requires Valid()
      modifies this
      ensures Valid()
      ensures segments == [] && chunks == [] && currentChunk == [] && chunkStartTime == now && added == []
    {
      segments := [];
      chunks := [];
      currentChunk := [];
      chunkStartTime := now;
      added := [];
      chunkSegments := [];
    }
  }

  /** get_recent_segments as written: the Python slice `[-count:]`, whose
   *  start is normalised like any negative slice index. */
  function RecentSegmentsAsWritten(segments: seq<Segment>, count: int): seq<Segment>
  {
    var start := -count;
    var from := if start < 0 then Max(|segments| + start, 0) else Min(start, |segments|);
    segments[from..]
  }

  /** The most recent `count` segments: none when `count` is not positive. */
  function RecentSegments(segments: seq<Segment>, count: int): (r: seq<Segment>)
    ensures |r| == if count <= 0 then 0 else Min(count, |segments|)
    ensures IsSuffix(r, segments)
  {
    if count <= 0 then [] else LastN(segments, count)
  }

  /** For a positive count the slice is the most recent `count` segments. */
  lemma RecentAsWrittenAgrees(segments: seq<Segment>, count: int)
    requires count > 0
    ensures RecentSegmentsAsWritten(segments, count) == RecentSegments(segments, count)
  {
  }

  /** For a count of 0 the slice `[-0:]` is the whole list, not an empty one. */
  lemma RecentAsWrittenZeroReturnsAll(segments: seq<Segment>)
    requires segments != []
    ensures RecentSegmentsAsWritten(segments, 0) == segments
    ensures RecentSegments(segments, 0) == []
    ensures |RecentSegmentsAsWritten(segments, 0)| > 0
  {
  }

  /** get_segments_since: the segments stamped at or after `t`, in order and
   *  with their repetitions; SegmentsSinceAppend and the one-segment case
   *  below determine it on every list. */
  function SegmentsSince(segments: seq<Segment>, t: Time): (r: seq<Segment>)
    ensures |r| <= |segments|
    ensures forall s :: s in r <==> s in segments && s.timestamp >= t
    ensures |segments| == 1 ==> r == if segments[0].timestamp >= t then segments else []
  {
    if segments == [] then []
    else
      var rest := SegmentsSince(segments[1..], t);
      assert forall s :: s in segments <==> s == segments[0] || s in segments[1..];
      if segments[0].timestamp >= t then [segments[0]] + rest else rest
  }

  /** Filtering a concatenation filters each part and keeps them in order. */
  lemma {:induction false} SegmentsSinceAppend(a: seq<Segment>, b: seq<Segment>, t: Time)
    ensures SegmentsSince(a + b, t) == SegmentsSince(a, t) + SegmentsSince(b, t)
  {
    if a == [] {
      assert a + b == b;
    } else {
      assert (a + b)[0] == a[0] && (a + b)[1..] == a[1..] + b;
      SegmentsSinceAppend(a[1..], b, t);
    }
  }

  /** The segments kept and the segments left out are, with their
   *  repetitions, exactly the ring's segments. */
  lemma {:induction false} SegmentsSinceCount(segments: seq<Segment>, t: Time)
    ensures |SegmentsSince(segments, t)| == |segments| - |SegmentsBefore(segments, t)|
    ensures multiset(SegmentsSince(segments, t)) + multiset(SegmentsBefore(segments, t)) == multiset(segments)
  {
    if segments != [] {
      SegmentsSinceCount(segments[1..], t);
      assert segments == [segments[0]] + segments[1..];
    }
  }

  /** The segments get_segments_since leaves out. */
  function SegmentsBefore(segments: seq<Segment>, t: Time): (r: seq<Segment>)
    ensures forall s :: s in r ==> s in segments && s.timestamp < t
  {
    if segments == [] then []
    else
      var rest := SegmentsBefore(segments[1..], t);
      if segments[0].timestamp < t then [segments[0]] + rest else rest
  }

  /** get_buffer_stats; the two timestamps are absent for an empty ring. */
  datatype BufferStats = BufferStats(segmentCount: nat, chunkCount: nat, totalChars: nat,
                                     bufferUsage: real, oldestTimestamp: Option<Time>,
                                     newestTimestamp: Option<Time>)

  function GetBufferStats(segments: seq<Segment>, chunks: seq<Chunk>, maxBufferSize: nat): (r: BufferStats)
    requires |segments| <= maxBufferSize
    ensures segments == [] ==> r == BufferStats(0, 0, 0, 0.0, None, None)
    ensures segments != [] ==>
      && r.segmentCount == |segments| && r.chunkCount == |chunks|
      && r.totalChars == TotalLength(Texts(segments))
      && 0.0 < r.bufferUsage <= 1.0 && r.bufferUsage * maxBufferSize as real == |segments| as real
      && r.oldestTimestamp == Some(segments[0].timestamp)
      && r.newestTimestamp == Some(segments[|segments| - 1].timestamp)
  {
    if segments == [] then BufferStats(0, 0, 0, 0.0, None, None)
    else
      BufferStats(|segments|, |chunks|, TotalLength(Texts(segments)),
                  |segments| as real / maxBufferSize as real,
                  Some(segments[0].timestamp), Some(segments[|segments| - 1].timestamp))
  }

  /** get_full_transcript: the segments' texts joined by single spaces. */
  function FullTranscript(segments: seq<Segment>): string
  {
    Join(Texts(segments), " ")
  }

  /** The full transcript is the reported character total plus one space
   *  between each pair of neighbouring segments. */
  lemma FullTranscriptLength(segments: seq<Segment>)
    ensures segments == [] ==> FullTranscript(segments) == ""
    ensures segments != [] ==>
      |FullTranscript(segments)| == TotalLength(Texts(segments)) + |segments| - 1
  {
    JoinLength(Texts(segments), " ");
  }

  /** A chunk's text is the full transcript of its segments. */
  lemma ChunkTextIsTranscript(segments: seq<Segment>)
    requires segments != []
    ensures ChunkOf(segments).text == FullTranscript(segments)
    ensures ChunkOf(segments).segmentCount == |segments|
  {
  }
}
