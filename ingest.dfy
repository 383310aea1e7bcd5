/** Splitting documents into overlapping fixed-size chunks before embedding. */
module Ingest {
  import opened Wrappers
  import Config

  /** A loaded corpus file. */
  datatype Document = Document(content: string, source: string)

  /** A piece of a document, tagged with the file it came from. */
  datatype Chunk = Chunk(content: string, source: string)

  /** What `range()` raises for a step of zero. */
  const RangeStepError: string := "range() arg 3 must not be zero"

  const OverlapError: string := "Chunk size must be greater than chunk overlap"

  function Min(a: int, b: int): int {
    if a <= b then a else b
  }

  /** The windows `content[i:i + size]` for `i` in `range(from, len(content), step)`. */
  function WindowsFrom(content: string, source: string, size: nat, step: nat, from: nat): (w: seq<Chunk>)
    requires step > 0
    ensures forall k :: 0 <= k < |w| ==> w[k].source == source && |w[k].content| <= size
    decreases |content| - from
  {
    if from >= |content| then []
    else
      [Chunk(content[from..Min(from + size, |content|)], source)]
      + WindowsFrom(content, source, size, step, from + step)
  }

  /** `chunk_content`: a window of `size` characters every `size - overlap`
      characters; a zero step is `range()`'s error, a negative one yields nothing. */
  method ChunkContent(content: string, source: string, size: nat, overlap: nat)
    returns (r: Result<seq<Chunk>, string>)
    ensures size == overlap ==> r == Err(RangeStepError)
    ensures size < overlap ==> r == Ok([])
    ensures size > overlap ==> r == Ok(WindowsFrom(content, source, size, size - overlap, 0))
  {
    var step: int := size - overlap;
    if step == 0 {
      return Err(RangeStepError);
    }
    if step < 0 {
      return Ok([]);
    }
    var chunks: seq<Chunk> := [];
    var i: nat := 0;
    while i < |content|
      invariant chunks + WindowsFrom(content, source, size, step, i) == WindowsFrom(content, source, size, step, 0)
      decreases |content| - i
    {
      chunks := chunks + [Chunk(content[i..Min(i + size, |content|)], source)];
      i := i + step;
    }
    assert WindowsFrom(content, source, size, step, i) == [];
    assert chunks == WindowsFrom(content, source, size, step, 0);
    return Ok(chunks);
  }

  /** The chunks of every document, in document order. */
  function AllWindows(docs: seq<Document>, size: nat, step: nat): (w: seq<Chunk>)
    requires step > 0
    decreases |docs|
  {
    if |docs| == 0 then []
    else
      AllWindows(docs[..|docs| - 1], size, step)
      + WindowsFrom(docs[|docs| - 1].content, docs[|docs| - 1].source, size, step, 0)
  }

  /** `chunk_documents` as written: the guard rejects only `size < overlap`. */
  function ChunkDocumentsResult(docs: seq<Document>, size: nat, overlap: nat): Result<seq<Chunk>, string> {
    if size < overlap then Err(OverlapError)
    else if size == overlap then (if |docs| == 0 then Ok([]) else Err(RangeStepError))
    else Ok(AllWindows(docs, size, size - overlap))
  }

  /** `chunk_documents`: the guard, then each document's chunks appended in turn;
      an error from `chunk_content` propagates. */
  method ChunkDocuments(docs: seq<Document>, size: nat, overlap: nat) returns (r: Result<seq<Chunk>, string>)
    ensures r == ChunkDocumentsResult(docs, size, overlap)
  {
    if size < overlap {
      return Err(OverlapError);
    }
    var chunks: seq<Chunk> := [];
    for d := 0 to |docs|
      invariant size > overlap ==> chunks == AllWindows(docs[..d], size, size - overlap)
      invariant size == overlap ==> d == 0
      invariant d == 0 ==> chunks == []
    {
      var part := ChunkContent(docs[d].content, docs[d].source, size, overlap);
      if part.Err? {
        return Err(part.error);
      }
      assert docs[..d + 1][..d] == docs[..d];
      chunks := chunks + part.value;
    }
    assert docs[..|docs|] == docs;
    return Ok(chunks);
  }

  /** With the configured sizes, chunking never fails. */
  lemma ConfiguredChunking(docs: seq<Document>)
    ensures ChunkDocumentsResult(docs, Config.ChunkSize as nat, Config.ChunkOverlap as nat)
      == Ok(AllWindows(docs, 500, 450))
  {
  }

  // ---------------------------------------------------------------------
  // Properties of the windows

  /** The k-th window starts at `from + k * step` and takes `size` characters
      or the rest of the content. */
  lemma {:induction false} WindowAt(content: string, source: string, size: nat, step: nat, from: nat, k: nat)
    requires step > 0 && k < |WindowsFrom(content, source, size, step, from)|
    ensures from + k * step < |content|
    ensures WindowsFrom(content, source, size, step, from)[k].content
      == content[from + k * step..Min(from + k * step + size, |content|)]
    decreases k
  {
    if k > 0 {
      WindowAt(content, source, size, step, from + step, k - 1);
      assert from + step + (k - 1) * step == from + k * step;
    }
  }

  /** The chunk count is ceil(n / step): the last chunk starts below the
      length n, and the next start would not. */
  lemma {:induction false} WindowCount(content: string, source: string, size: nat, step: nat, from: nat)
    requires step > 0
    ensures var c := |WindowsFrom(content, source, size, step, from)|;
      from + c * step >= |content| && (c == 0 || from + (c - 1) * step < |content|)
    ensures |WindowsFrom(content, source, size, step, from)| == 0 <==> from >= |content|
    decreases |content| - from
  {
    if from < |content| {
      var c := |WindowsFrom(content, source, size, step, from + step)|;
      WindowCount(content, source, size, step, from + step);
      assert from + step + c * step == from + (c + 1) * step;
      assert from + step + (c - 1) * step == from + c * step;
    }
  }

  /** Every chunk has exactly `size` characters unless it reaches the end of the content. */
  lemma WindowLengths(content: string, source: string, size: nat, step: nat)
    requires step > 0
    ensures var w := WindowsFrom(content, source, size, step, 0);
      forall k :: 0 <= k < |w| ==> |w[k].content| == size || k * step + |w[k].content| == |content|
  {
    var w := WindowsFrom(content, source, size, step, 0);
    forall k | 0 <= k < |w|
      ensures |w[k].content| == size || k * step + |w[k].content| == |content|
    {
      WindowAt(content, source, size, step, 0, k);
    }
  }

  /** When the step is at most the size, every character lies in some chunk. */
  lemma {:induction false} WindowsCover(content: string, source: string, size: nat, step: nat, from: nat, p: nat)
    requires 0 < step <= size && from <= p < |content|
    ensures exists k ::
              0 <= k < |WindowsFrom(content, source, size, step, from)| &&
              from + k * step <= p < from + k * step + |WindowsFrom(content, source, size, step, from)[k].content|
    decreases |content| - from
  {
    var w := WindowsFrom(content, source, size, step, from);
    if p < from + size {
      assert w[0].content == content[from..Min(from + size, |content|)];
      assert from + 0 * step == from;
      assert exists k :: 0 <= k < |w| && from + k * step <= p < from + k * step + |w[k].content| by {
        assert 0 < |w| && from + 0 * step <= p < from + 0 * step + |w[0].content|;
      }
    } else {
      WindowsCover(content, source, size, step, from + step, p);
      var rest := WindowsFrom(content, source, size, step, from + step);
      var k :| 0 <= k < |rest| && from + step + k * step <= p < from + step + k * step + |rest[k].content|;
      assert w[k + 1] == rest[k];
      assert from + (k + 1) * step == from + step + k * step;
    }
  }

  /** A full chunk and the next one share `overlap` characters: the tail of the
      first is the head of the second. */
  lemma AdjacentOverlap(content: string, source: string, size: nat, overlap: nat, k: nat)
    requires size > overlap
    requires var w := WindowsFrom(content, source, size, size - overlap, 0);
      k + 1 < |w| && |w[k].content| == size
    ensures var w := WindowsFrom(content, source, size, size - overlap, 0);
      w[k].content[size - overlap..] <= w[k + 1].content
  {
    AdjacentFrom(content, source, size, size - overlap, 0, k);
  }

  /** `AdjacentOverlap` for the windows starting at `from`. */
  lemma {:induction false} AdjacentFrom(content: string, source: string, size: nat, step: nat, from: nat, k: nat)
    requires 0 < step <= size
    requires var w := WindowsFrom(content, source, size, step, from);
      k + 1 < |w| && |w[k].content| == size
    ensures var w := WindowsFrom(content, source, size, step, from);
      w[k].content[step..] <= w[k + 1].content
    decreases k
  {
    var w := WindowsFrom(content, source, size, step, from);
    WindowsHead(content, source, size, step, from);
    WindowsShift(content, source, size, step, from, k + 1);
    if k == 0 {
      var rest := WindowsFrom(content, source, size, step, from + step);
      assert |rest| > 0;
      WindowsHead(content, source, size, step, from + step);
      SliceOverlap(content, from, step, size, w[0].content, w[1].content);
    } else {
      WindowsShift(content, source, size, step, from, k);
      AdjacentFrom(content, source, size, step, from + step, k - 1);
    }
  }

  /** A window list that is not empty starts at `from`. */
  lemma WindowsHead(content: string, source: string, size: nat, step: nat, from: nat)
    requires step > 0 && from < |content|
    ensures var w := WindowsFrom(content, source, size, step, from);
      |w| > 0 && w[0] == Chunk(content[from..Min(from + size, |content|)], source) &&
      w[1..] == WindowsFrom(content, source, size, step, from + step)
  {
  }

  /** Window `k > 0` is window `k - 1` of the windows after the first. */
  lemma WindowsShift(content: string, source: string, size: nat, step: nat, from: nat, k: nat)
    requires step > 0 && 0 < k < |WindowsFrom(content, source, size, step, from)|
    ensures k - 1 < |WindowsFrom(content, source, size, step, from + step)|
    ensures WindowsFrom(content, source, size, step, from)[k] == WindowsFrom(content, source, size, step, from + step)[k - 1]
  {
  }

  /** The window at `a` and the one `step` further share all but `step`
      characters of the first. */
  lemma SliceOverlap(content: string, a: nat, step: nat, size: nat, x: string, y: string)
    requires a + step <= |content| && step <= size
    requires x == content[a..Min(a + size, |content|)] && |x| == size
    requires y == content[a + step..Min(a + step + size, |content|)]
    ensures x[step..] <= y
  {
    assert a + size <= |content|;
    assert x[step..] == content[a + step..a + size];
  }

  // ---------------------------------------------------------------------
  // The chunk-size guard

  /** As written, equal size and overlap pass the guard, and any document then
      fails with `range()`'s zero-step error instead of the guard's message. */
  lemma EqualSizeSlipsPastGuard(doc: Document)
    ensures ChunkDocumentsResult([doc], 50, 50) == Err(RangeStepError)
  {
  }

  /** The guard as its message states it: the size must exceed the overlap. */
  function ChunkDocumentsChecked(docs: seq<Document>, size: nat, overlap: nat): Result<seq<Chunk>, string> {
    if size <= overlap then Err(OverlapError)
    else Ok(AllWindows(docs, size, size - overlap))
  }

  /** The corrected guard reports its own error exactly when the size does not
      exceed the overlap, and agrees with the code as written everywhere else. */
  lemma ChunkDocumentsCheckedErrors(docs: seq<Document>, size: nat, overlap: nat)
    ensures ChunkDocumentsChecked(docs, size, overlap).Err? <==> size <= overlap
    ensures ChunkDocumentsChecked(docs, size, overlap).Err? ==>
      ChunkDocumentsChecked(docs, size, overlap).error == OverlapError
    ensures size != overlap ==> ChunkDocumentsChecked(docs, size, overlap) == ChunkDocumentsResult(docs, size, overlap)
  {
  }

  /** Chunks come out in document order: the chunks of a document list are
      those of its prefix followed by those of the rest. */
  lemma {:induction false} AllWindowsAppend(a: seq<Document>, b: seq<Document>, size: nat, step: nat)
    requires step > 0
    ensures AllWindows(a + b, size, step) == AllWindows(a, size, step) + AllWindows(b, size, step)
    decreases |b|
  {
    if |b| > 0 {
      var b' := b[..|b| - 1];
      assert (a + b)[..|a + b| - 1] == a + b';
      AllWindowsAppend(a, b', size, step);
    } else {
      assert a + b == a;
    }
  }
}
