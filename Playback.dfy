/**
 * The playback cursor of the live session, as a specification: each decoded
 * audio chunk of the examiner's voice starts at the later of the cursor and
 * the current audio-clock time, and the cursor then moves past its end.
 * Times and durations are seconds on the output audio clock.
 */
module Playback {

  /** One decoded chunk: the audio-clock time at which it was handled, and its length. */
  datatype Chunk = Chunk(arrival: real, duration: real)

  predicate WellFormed(chunks: seq<Chunk>) {
    forall i :: 0 <= i < |chunks| ==> chunks[i].arrival >= 0.0 && chunks[i].duration >= 0.0
  }

  /** `Math.max(nextStartTime, ctx.currentTime)`: where the next chunk starts. */
  function StartOf(cursor: real, now: real): (r: real)
    ensures r >= cursor && r >= now
    ensures r == cursor || r == now
  {
    if cursor >= now then cursor else now
  }

  /** The cursor after one chunk has been started. */
  function Advance(cursor: real, c: Chunk): real {
    StartOf(cursor, c.arrival) + c.duration
  }

  /** The cursor after a sequence of chunks, none of them interrupted. */
  function CursorAfter(cursor: real, chunks: seq<Chunk>): real {
    if chunks == [] then cursor
    else Advance(CursorAfter(cursor, chunks[..|chunks| - 1]), chunks[|chunks| - 1])
  }

  /** When chunk `i` of the sequence starts playing. */
  function StartTime(cursor: real, chunks: seq<Chunk>, i: nat): real
    requires i < |chunks|
  {
    StartOf(CursorAfter(cursor, chunks[..i]), chunks[i].arrival)
  }

  function TotalDuration(chunks: seq<Chunk>): real {
    if chunks == [] then 0.0 else TotalDuration(chunks[..|chunks| - 1]) + chunks[|chunks| - 1].duration
  }

  /**
   * No chunk starts before it was handled, and no chunk starts before the
   * previous one has finished: playback never overlaps.
   */
  lemma NoOverlap(cursor: real, chunks: seq<Chunk>, i: nat)
    requires i + 1 < |chunks|
    ensures StartTime(cursor, chunks, i) >= chunks[i].arrival
    ensures StartTime(cursor, chunks, i) + chunks[i].duration <= StartTime(cursor, chunks, i + 1)
  {
    assert chunks[..i + 1][..i] == chunks[..i];
  }

  /** With non-negative durations the cursor never moves backwards. */
  lemma {:induction false} CursorGrows(cursor: real, chunks: seq<Chunk>)
    requires WellFormed(chunks)
    ensures CursorAfter(cursor, chunks) >= cursor
  {
    if chunks != [] {
      var init := chunks[..|chunks| - 1];
      assert WellFormed(init) by {
        forall i | 0 <= i < |init| ensures init[i] == chunks[i] { }
      }
      CursorGrows(cursor, init);
    }
  }

  /** Chunks handled before the queued audio runs out: each arrives no later than the cursor it meets. */
  predicate Buffered(cursor: real, chunks: seq<Chunk>) {
    forall i :: 0 <= i < |chunks| ==> chunks[i].arrival <= CursorAfter(cursor, chunks[..i])
  }

  lemma BufferedPrefix(cursor: real, chunks: seq<Chunk>, k: nat)
    requires Buffered(cursor, chunks) && k <= |chunks|
    ensures Buffered(cursor, chunks[..k])
  {
    forall i | 0 <= i < k
      ensures chunks[..k][i].arrival <= CursorAfter(cursor, chunks[..k][..i])
    {
      assert chunks[..k][..i] == chunks[..i];
    }
  }

  /** While playback is buffered the cursor moves by exactly the chunks' total duration. */
  lemma {:induction false} BufferedCursor(cursor: real, chunks: seq<Chunk>)
    requires Buffered(cursor, chunks)
    ensures CursorAfter(cursor, chunks) == cursor + TotalDuration(chunks)
  {
    if chunks != [] {
      BufferedPrefix(cursor, chunks, |chunks| - 1);
      BufferedCursor(cursor, chunks[..|chunks| - 1]);
    }
  }

  /**
   * While every chunk is handled before the audio already queued runs out,
   * playback is gapless: chunk `i` starts exactly the total length of the
   * chunks before it after the initial cursor.
   */
  lemma GaplessWhileBuffered(cursor: real, chunks: seq<Chunk>, i: nat)
    requires Buffered(cursor, chunks) && i < |chunks|
    ensures StartTime(cursor, chunks, i) == cursor + TotalDuration(chunks[..i])
  {
    BufferedPrefix(cursor, chunks, i);
    BufferedCursor(cursor, chunks[..i]);
  }
}
