/** Splitting a book into overlapping chunks, autoform/statement_extraction/chunking.py:51-80. */
module Chunking {
  import opened Wrappers
  import opened Splitting

  /** Lines are counted from one; `endLine` is the last line of the chunk. */
  datatype Chunk = Chunk(index: nat, text: string, startLine: nat, endLine: nat)

  function Min(a: int, b: int): int {
    if a < b then a else b
  }

  /** The line, counted from zero, at which chunk `k` starts: `k` steps on. */
  function Start(step: nat, k: nat): nat {
    if k == 0 then 0 else Start(step, k - 1) + step
  }

  function ChunkAt(lines: seq<string>, chunkSize: nat, step: nat, k: nat): Chunk
    requires Start(step, k) < |lines|
  {
    var end := Min(Start(step, k) + chunkSize, |lines|);
    Chunk(k, Join(lines[Start(step, k)..end], '\n'), Start(step, k) + 1, end)
  }

  /** Chunk `k` starts inside the text and is as it should be. */
  ghost predicate IsChunk(chunks: seq<Chunk>, lines: seq<string>, chunkSize: nat, step: nat, k: nat) {
    k < |chunks| && Start(step, k) < |lines| && chunks[k] == ChunkAt(lines, chunkSize, step, k)
  }

  /** All chunks are as they should be, and the next one would start at or behind the last line. */
  ghost predicate IsChunking(chunks: seq<Chunk>, lines: seq<string>, chunkSize: nat, step: nat) {
    && (forall k :: 0 <= k < |chunks| ==> IsChunk(chunks, lines, chunkSize, step, k))
    && |lines| <= Start(step, |chunks|)
  }

  /** The first chunks are as they should be, and the next one starts at `start`. */
  ghost predicate ChunkedTo(chunks: seq<Chunk>, lines: seq<string>, chunkSize: nat, step: nat, start: int) {
    && start == Start(step, |chunks|)
    && forall k :: 0 <= k < |chunks| ==> IsChunk(chunks, lines, chunkSize, step, k)
  }

  lemma {:induction false} OneMoreChunk(chunks: seq<Chunk>, lines: seq<string>, chunkSize: nat, step: nat, start: int)
    requires ChunkedTo(chunks, lines, chunkSize, step, start) && start < |lines|
    ensures ChunkedTo(chunks + [ChunkAt(lines, chunkSize, step, |chunks|)], lines, chunkSize, step, start + step)
  {
    var chunks' := chunks + [ChunkAt(lines, chunkSize, step, |chunks|)];
    forall k | 0 <= k < |chunks'| ensures IsChunk(chunks', lines, chunkSize, step, k) {
      if k < |chunks| {
        assert IsChunk(chunks, lines, chunkSize, step, k);
      }
    }
  }

  /** The chunk is number `k`, starts `k` steps on, counts its lines from one, and holds them as its text. */
  ghost predicate IsWindow(c: Chunk, lines: seq<string>, chunkSize: nat, step: int, k: nat) {
    && c.index == k && c.startLine == k * step + 1 && 0 < c.startLine <= c.endLine + 1 <= |lines| + 1
    && c.endLine == (if c.startLine - 1 + chunkSize < |lines| then c.startLine - 1 + chunkSize else |lines|)
    && c.text == Join(lines[c.startLine - 1..c.endLine], '\n')
  }

  /** Where the loop stands after so many turns, whatever the step. */
  function StartAfter(step: int, turns: nat): int {
    if turns == 0 then 0 else StartAfter(step, turns - 1) + step
  }

  /** With a step that does not go forward the loop never gets past the text, however many turns it takes. */
  lemma {:induction false} NeverEnds(lines: seq<string>, step: int, turns: nat)
    requires lines != []
    ensures step <= 0 ==> StartAfter(step, turns) < |lines|
    ensures step > 0 ==> StartAfter(step, |lines|) >= |lines|
  {
    if step <= 0 {
      GoesBack(step, turns);
    } else {
      GoesForward(step, |lines|);
    }
  }

  lemma {:induction false} GoesBack(step: int, turns: nat)
    requires step <= 0
    ensures StartAfter(step, turns) <= 0
  {
    if turns > 0 {
      GoesBack(step, turns - 1);
    }
  }

  lemma {:induction false} GoesForward(step: int, turns: nat)
    requires step > 0
    ensures StartAfter(step, turns) >= turns
  {
    if turns > 0 {
      GoesForward(step, turns - 1);
    }
  }

  /** The chunks; None stands for the loop that never ends if the chunk size does not exceed the overlap. */
  method ChunkLines(lines: seq<string>, chunkSize: nat, overlap: int) returns (result: Option<seq<Chunk>>)
    ensures result == None <==> lines != [] && chunkSize <= overlap
    ensures result.Some? && overlap < chunkSize ==> IsChunking(result.value, lines, chunkSize, chunkSize - overlap)
    ensures result.Some? && lines == [] ==> result.value == []
    ensures result.Some? ==> forall k :: 0 <= k < |result.value| ==>
              IsWindow(result.value[k], lines, chunkSize, chunkSize - overlap, k)
  {
    if lines == [] {
      return Some([]);
    }
    if chunkSize <= overlap {
      return None;
    }
    var chunks := [];
    var start, index := 0, 0;
    while start < |lines|
      invariant index == |chunks| && ChunkedTo(chunks, lines, chunkSize, chunkSize - overlap, start)
      decreases |lines| - start
    {
      OneMoreChunk(chunks, lines, chunkSize, chunkSize - overlap, start);
      var end := Min(start + chunkSize, |lines|);
      var text := Join(lines[start..end], '\n');
      chunks := chunks + [Chunk(index, text, start + 1, end)];
      index := index + 1;
      start := start + (chunkSize - overlap);
      if start >= |lines| {
        break;
      }
    }
    forall k | 0 <= k < |chunks| ensures IsWindow(chunks[k], lines, chunkSize, chunkSize - overlap, k) {
      assert IsChunk(chunks, lines, chunkSize, chunkSize - overlap, k);
      StartIsProduct(chunkSize - overlap, k);
    }
    result := Some(chunks);
  }

  lemma {:induction false} StartIsProduct(step: nat, k: nat)
    ensures Start(step, k) == k * step
  {
    if k > 0 {
      StartIsProduct(step, k - 1);
      assert k * step == (k - 1) * step + step;
    }
  }

  /** There are as many chunks as steps it takes to get past the text, no more: the quotient rounded up. */
  lemma {:induction false} ChunkCount(chunks: seq<Chunk>, lines: seq<string>, chunkSize: nat, step: nat)
    requires IsChunking(chunks, lines, chunkSize, step)
    ensures |lines| <= |chunks| * step
    ensures forall m: nat :: m < |chunks| ==> m * step < |lines|
  {
    StartIsProduct(step, |chunks|);
    forall m: nat | m < |chunks| ensures m * step < |lines| {
      assert IsChunk(chunks, lines, chunkSize, step, m);
      StartIsProduct(step, m);
    }
  }

  /** The `width` lines from `a` on, counted from zero, all lie in chunk `k`. */
  ghost predicate Holds(chunks: seq<Chunk>, k: nat, a: nat, width: nat) {
    k < |chunks| && chunks[k].startLine <= a + 1 && a + width <= chunks[k].endLine
  }

  lemma {:induction false} LastStartBefore(step: nat, a: nat, m: nat) returns (k: nat)
    requires a < Start(step, m)
    ensures k < m && Start(step, k) <= a < Start(step, k) + step
  {
    if a >= Start(step, m - 1) {
      k := m - 1;
    } else {
      k := LastStartBefore(step, a, m - 1);
    }
  }

  /** Every window of at most overlap + 1 lines lies inside one chunk. */
  lemma {:induction false} WindowsAreCovered(chunks: seq<Chunk>, lines: seq<string>, chunkSize: nat, overlap: nat,
                                             a: nat, width: nat)
    requires overlap < chunkSize && IsChunking(chunks, lines, chunkSize, chunkSize - overlap)
    requires a + width <= |lines| && 0 < width <= overlap + 1
    ensures exists k: nat :: Holds(chunks, k, a, width)
  {
    var step := chunkSize - overlap;
    var k := LastStartBefore(step, a, |chunks|);
    assert IsChunk(chunks, lines, chunkSize, step, k);
    assert Holds(chunks, k, a, width);
  }

  ghost predicate Covered(chunks: seq<Chunk>, a: nat) {
    exists k: nat :: Holds(chunks, k, a, 1)
  }

  lemma {:induction false} StartAtLeastStep(step: nat, k: nat)
    requires k > 0
    ensures Start(step, k) >= step
  {
  }

  /** Every line is in some chunk exactly when the chunks leave no gaps or one chunk is enough. */
  lemma {:induction false} LinesAreCovered(chunks: seq<Chunk>, lines: seq<string>, chunkSize: nat, overlap: int)
    requires overlap < chunkSize && IsChunking(chunks, lines, chunkSize, chunkSize - overlap)
    ensures (forall a: nat :: a < |lines| ==> Covered(chunks, a)) <==> overlap >= 0 || |lines| <= chunkSize
  {
    var step := chunkSize - overlap;
    if overlap >= 0 {
      forall a: nat | a < |lines| ensures Covered(chunks, a) {
        WindowsAreCovered(chunks, lines, chunkSize, overlap, a, 1);
      }
    } else if |lines| <= chunkSize {
      forall a: nat | a < |lines| ensures Covered(chunks, a) {
        assert |chunks| > 0;
        assert IsChunk(chunks, lines, chunkSize, step, 0);
        assert Holds(chunks, 0, a, 1);
      }
    } else {
      forall k: nat ensures !Holds(chunks, k, chunkSize, 1) {
        if k < |chunks| {
          assert IsChunk(chunks, lines, chunkSize, step, k);
          if k > 0 {
            StartAtLeastStep(step, k);
          }
        }
      }
      assert !Covered(chunks, chunkSize);
    }
  }

  function From(lines: seq<string>, known: int): seq<string> {
    if 0 <= known <= |lines| then seq(|lines| - known, j requires 0 <= j < |lines| - known => lines[known + j]) else []
  }

  /** The lines of each chunk. */
  function Parts(chunks: seq<Chunk>): (parts: seq<seq<string>>)
    ensures |parts| == |chunks|
  {
    seq(|chunks|, k requires 0 <= k < |chunks| => Split(chunks[k].text, '\n'))
  }

  /** The lines of the first `n` chunks, of each only those past the end of the chunk before it. */
  function Rebuilt(chunks: seq<Chunk>, parts: seq<seq<string>>, n: nat): seq<string>
    requires n <= |chunks| == |parts|
  {
    if n == 0 then []
    else
      var known := if n == 1 then 0 else chunks[n - 2].endLine;
      Rebuilt(chunks, parts, n - 1) + From(parts[n - 1], known + 1 - chunks[n - 1].startLine)
  }

  /** The chunks hold the whole text: their new lines, in order, are the input. */
  lemma {:induction false} ChunksRebuild(chunks: seq<Chunk>, lines: seq<string>, chunkSize: nat, overlap: nat)
    requires overlap < chunkSize && IsChunking(chunks, lines, chunkSize, chunkSize - overlap)
    requires SepFree(lines, '\n')
    ensures Rebuilt(chunks, Parts(chunks), |chunks|) == lines
  {
    if chunks != [] {
      var step := chunkSize - overlap;
      forall k | 0 <= k < |chunks| ensures IsPart(chunks, Parts(chunks), lines, chunkSize, step, k) {
        TextLines(chunks, lines, chunkSize, step, k);
        ChunkBounds(chunks, lines, chunkSize, step, k);
      }
      FrontRebuilds(chunks, Parts(chunks), lines, chunkSize, step, |chunks|);
      LastEnd(chunks, lines, chunkSize, step);
      FrontIsAll(Rebuilt(chunks, Parts(chunks), |chunks|), lines);
    }
  }

  lemma {:induction false} LastEnd(chunks: seq<Chunk>, lines: seq<string>, chunkSize: nat, step: nat)
    requires IsChunking(chunks, lines, chunkSize, step) && step <= chunkSize && chunks != []
    ensures chunks[|chunks| - 1].endLine == |lines|
  {
    ChunkBounds(chunks, lines, chunkSize, step, |chunks| - 1);
  }

  lemma {:induction false} FrontIsAll(part: seq<string>, lines: seq<string>)
    requires IsFront(part, lines, |lines|)
    ensures part == lines
  {
  }

  /** `parts[k]` are the lines of chunk `k`. */
  ghost predicate IsPart(chunks: seq<Chunk>, parts: seq<seq<string>>, lines: seq<string>, chunkSize: nat, step: nat,
                         k: nat) {
    && k < |chunks| == |parts|
    && chunks[k].startLine == Start(step, k) + 1 && Start(step, k) < |lines|
    && chunks[k].endLine == Min(Start(step, k) + chunkSize, |lines|)
    && IsStretch(parts[k], lines, Start(step, k), chunks[k].endLine)
  }

  ghost predicate IsFront(part: seq<string>, lines: seq<string>, n: nat) {
    n <= |lines| && |part| == n && forall j :: 0 <= j < n ==> part[j] == lines[j]
  }

  lemma {:induction false} FrontRebuilds(chunks: seq<Chunk>, parts: seq<seq<string>>, lines: seq<string>,
                                         chunkSize: nat, step: nat, n: nat)
    requires 0 < step <= chunkSize && 0 < n <= |chunks| == |parts|
    requires forall k :: 0 <= k < |chunks| ==> IsPart(chunks, parts, lines, chunkSize, step, k)
    ensures IsFront(Rebuilt(chunks, parts, n), lines, chunks[n - 1].endLine)
  {
    assert IsPart(chunks, parts, lines, chunkSize, step, n - 1);
    if n > 1 {
      FrontRebuilds(chunks, parts, lines, chunkSize, step, n - 1);
      assert IsPart(chunks, parts, lines, chunkSize, step, n - 2);
    }
    RebuildStep(chunks, parts, lines, chunkSize, step, n);
  }

  lemma {:induction false} RebuildStep(chunks: seq<Chunk>, parts: seq<seq<string>>, lines: seq<string>,
                                       chunkSize: nat, step: nat, n: nat)
    requires 0 < step <= chunkSize && 0 < n <= |chunks| == |parts|
    requires IsPart(chunks, parts, lines, chunkSize, step, n - 1)
    requires n > 1 ==> IsPart(chunks, parts, lines, chunkSize, step, n - 2)
    requires n > 1 ==> IsFront(Rebuilt(chunks, parts, n - 1), lines, chunks[n - 2].endLine)
    ensures IsFront(Rebuilt(chunks, parts, n), lines, chunks[n - 1].endLine)
  {
    var known := if n > 1 then chunks[n - 2].endLine else 0;
    StretchFrom(parts[n - 1], lines, Start(step, n - 1), known, chunks[n - 1].endLine);
    FrontGrows(Rebuilt(chunks, parts, n - 1), From(parts[n - 1], known - Start(step, n - 1)), lines,
               known, chunks[n - 1].endLine);
  }

  lemma {:induction false} ChunkBounds(chunks: seq<Chunk>, lines: seq<string>, chunkSize: nat, step: nat, k: nat)
    requires IsChunking(chunks, lines, chunkSize, step) && k < |chunks|
    ensures Start(step, k) < |lines| && chunks[k].startLine == Start(step, k) + 1
    ensures chunks[k].endLine == Min(Start(step, k) + chunkSize, |lines|)
  {
    assert IsChunk(chunks, lines, chunkSize, step, k);
  }

  /** The lines `part` are those from `known` to `end`. */
  ghost predicate IsStretch(part: seq<string>, lines: seq<string>, known: nat, end: nat) {
    known <= end <= |lines| && |part| == end - known && forall j :: 0 <= j < |part| ==> part[j] == lines[known + j]
  }

  lemma {:induction false} FrontGrows(front: seq<string>, part: seq<string>, lines: seq<string>, known: nat, end: nat)
    requires IsFront(front, lines, known) && IsStretch(part, lines, known, end)
    ensures IsFront(front + part, lines, end)
  {
    forall j | 0 <= j < end ensures (front + part)[j] == lines[j] {
      if j >= known {
        assert part[j - known] == lines[known + (j - known)];
      }
    }
  }

  lemma {:induction false} TextLines(chunks: seq<Chunk>, lines: seq<string>, chunkSize: nat, step: nat, k: nat)
    requires IsChunking(chunks, lines, chunkSize, step) && SepFree(lines, '\n') && k < |chunks| && chunkSize > 0
    ensures IsStretch(Split(chunks[k].text, '\n'), lines, Start(step, k), chunks[k].endLine)
  {
    assert IsChunk(chunks, lines, chunkSize, step, k);
    SplitJoin(lines[Start(step, k)..chunks[k].endLine], '\n');
  }

  lemma {:induction false} StretchFrom(part: seq<string>, lines: seq<string>, from: nat, known: nat, end: nat)
    requires IsStretch(part, lines, from, end) && from <= known <= end
    ensures IsStretch(From(part, known - from), lines, known, end)
  {
    var r := From(part, known - from);
    forall j | 0 <= j < |r| ensures r[j] == lines[known + j] {
      assert r[j] == part[known - from + j];
    }
  }
}
