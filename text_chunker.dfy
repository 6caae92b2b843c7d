/**
 * Sliding-window text chunking with overlap, boundary search and
 * row-based table chunking (backend/app/services/text_chunker.py).
 * Sizes are given in tokens and scaled by CharsPerToken to characters.
 */
module TextChunker {
  import opened Lib

  const CharsPerToken: int := 4
  const DefaultChunkSize: int := 400
  const DefaultOverlap: int := 50
  const DefaultTableRowsPerChunk: int := 5

  datatype TextChunk = TextChunk(
    index: int,
    text: string,
    charCount: int,
    tokenEstimate: int,
    startChar: int,
    endChar: int,
    isTable: bool,
    tableName: string)

  datatype ChunkError =
    | ChunkSizeNotAboveOverlap   // ValueError("chunk_size must be greater than overlap")
    | ZeroRowsPerChunk           // range() with a zero step raises ValueError
    | MissingFirstCell           // row_values[0] on an empty row raises IndexError

  /** A plain (non-table) chunk of `t` taken from [s, e) of the source. */
  function Piece(index: int, t: string, s: int, e: int): TextChunk {
    TextChunk(index, t, |t|, |t| / CharsPerToken, s, e, false, "")
  }

  // ---------------------------------------------------------------------
  // Boundary search (_find_best_boundary)
  // ---------------------------------------------------------------------

  // The boundary search works on index ranges [lo, hi) of the text rather
  // than on slices, so each helper reads the text itself.

  /** A "\n\n" starts at p and lies inside [.., hi). */
  predicate ParagraphPairAt(t: string, p: int, hi: int) {
    0 <= p && p + 1 < hi <= |t| && t[p] == '\n' && t[p + 1] == '\n'
  }

  /** End of the last match of `\n\n+` in t[lo..hi]. */
  function LastParagraphBreakEnd(t: string, lo: nat, hi: nat): (r: Option<nat>)
    requires lo <= hi <= |t|
    ensures r.Some? ==> lo + 2 <= r.value <= hi && ParagraphPairAt(t, r.value - 2, hi)
                        && (r.value == hi || t[r.value] != '\n')
    decreases hi
  {
    if hi < lo + 2 then None
    else if t[hi - 2] == '\n' && t[hi - 1] == '\n' then Some(hi)
    else LastParagraphBreakEnd(t, lo, hi - 1)
  }

  /** No "\n\n" inside [lo, hi) starts after the one LastParagraphBreakEnd found, and none at all when it found none. */
  lemma {:induction false} LastParagraphBreakIsLast(t: string, lo: nat, hi: nat)
    requires lo <= hi <= |t|
    ensures LastParagraphBreakEnd(t, lo, hi).Some? ==>
              forall p :: LastParagraphBreakEnd(t, lo, hi).value - 1 <= p ==> !ParagraphPairAt(t, p, hi)
    ensures LastParagraphBreakEnd(t, lo, hi).None? ==> forall p :: lo <= p ==> !ParagraphPairAt(t, p, hi)
    decreases hi
  {
    if hi >= lo + 2 && !(t[hi - 2] == '\n' && t[hi - 1] == '\n') {
      LastParagraphBreakIsLast(t, lo, hi - 1);
      forall p | ParagraphPairAt(t, p, hi) ensures ParagraphPairAt(t, p, hi - 1) {
        assert p + 1 != hi - 1;
      }
    }
  }

  /** One of ".!?" at q, followed by whitespace inside [.., hi). */
  predicate SentenceMarkAt(t: string, q: int, hi: int) {
    0 <= q && q + 1 < hi <= |t| && (t[q] == '.' || t[q] == '!' || t[q] == '?') && IsSpace(t[q + 1])
  }

  /** Start of the last match of `[.!?]\s+` in t[lo..hi] that begins before n. */
  function LastSentenceMark(t: string, lo: nat, n: nat, hi: nat): (r: Option<nat>)
    requires lo <= n <= hi <= |t|
    ensures r.Some? ==> lo <= r.value < n && SentenceMarkAt(t, r.value, hi)
    decreases n
  {
    if n == lo then None
    else if SentenceMarkAt(t, n - 1, hi) then Some(n - 1)
    else LastSentenceMark(t, lo, n - 1, hi)
  }

  /** No sentence mark in [lo, n) lies after the one LastSentenceMark found, and none at all when it found none. */
  lemma {:induction false} LastSentenceMarkIsLast(t: string, lo: nat, n: nat, hi: nat)
    requires lo <= n <= hi <= |t|
    ensures LastSentenceMark(t, lo, n, hi).Some? ==>
              forall q :: LastSentenceMark(t, lo, n, hi).value < q < n ==> !SentenceMarkAt(t, q, hi)
    ensures LastSentenceMark(t, lo, n, hi).None? ==> forall q :: lo <= q < n ==> !SentenceMarkAt(t, q, hi)
    decreases n
  {
    if n > lo && !SentenceMarkAt(t, n - 1, hi) {
      LastSentenceMarkIsLast(t, lo, n - 1, hi);
    }
  }

  /** First index at or after `i` that ends a whitespace run, not beyond hi. */
  function SpaceRunEnd(t: string, i: nat, hi: nat): (j: nat)
    requires i <= hi <= |t|
    ensures i <= j <= hi && (j == hi || !IsSpace(t[j]))
    decreases hi - i
  {
    if i < hi && IsSpace(t[i]) then SpaceRunEnd(t, i + 1, hi) else i
  }

  lemma {:induction false} SpaceRunEndIsRun(t: string, i: nat, hi: nat)
    requires i <= hi <= |t|
    ensures forall k :: i <= k < SpaceRunEnd(t, i, hi) ==> IsSpace(t[k])
    decreases hi - i
  {
    if i < hi && IsSpace(t[i]) {
      SpaceRunEndIsRun(t, i + 1, hi);
    }
  }

  /** Start of the whitespace run that ends at `j` (exclusive), not before lo. */
  function SpaceRunStart(t: string, lo: nat, j: nat): (i: nat)
    requires lo <= j <= |t|
    ensures lo <= i <= j && (i == lo || !IsSpace(t[i - 1]))
    decreases j
  {
    if j > lo && IsSpace(t[j - 1]) then SpaceRunStart(t, lo, j - 1) else j
  }

  lemma {:induction false} SpaceRunStartIsRun(t: string, lo: nat, j: nat)
    requires lo <= j <= |t|
    ensures forall k :: SpaceRunStart(t, lo, j) <= k < j ==> IsSpace(t[k])
    decreases j
  {
    if j > lo && IsSpace(t[j - 1]) {
      SpaceRunStartIsRun(t, lo, j - 1);
    }
  }

  /** Index of the last whitespace character in t[lo..n]. */
  function LastSpace(t: string, lo: nat, n: nat): (r: Option<nat>)
    requires lo <= n <= |t|
    ensures r.Some? ==> lo <= r.value < n && IsSpace(t[r.value])
    decreases n
  {
    if n == lo then None
    else if IsSpace(t[n - 1]) then Some(n - 1)
    else LastSpace(t, lo, n - 1)
  }

  /** No whitespace in [lo, n) lies after the one LastSpace found, and none at all when it found none. */
  lemma {:induction false} LastSpaceIsLast(t: string, lo: nat, n: nat)
    requires lo <= n <= |t|
    ensures LastSpace(t, lo, n).Some? ==> forall q :: LastSpace(t, lo, n).value < q < n ==> !IsSpace(t[q])
    ensures LastSpace(t, lo, n).None? ==> forall q :: lo <= q < n ==> !IsSpace(t[q])
    decreases n
  {
    if n > lo && !IsSpace(t[n - 1]) {
      LastSpaceIsLast(t, lo, n - 1);
    }
  }

  /** First index the boundary search looks at: `lookback` characters before `end`, but not before `start`. */
  function SearchStart(start: nat, end: nat, lookback: nat): (ss: nat)
    requires start <= end
    ensures start <= ss <= end && end - lookback <= ss
  {
    Max(start, end - lookback)
  }

  /**
   * The cut chosen inside the search window [ss, end): after the last
   * paragraph break, else after the whitespace that follows the last
   * sentence end, else at the start of the last whitespace run, else at
   * `end`.
   */
  function BoundaryFrom(text: string, ss: nat, end: nat): (r: nat)
    requires ss <= end <= |text|
    ensures ss <= r <= end
  {
    match LastParagraphBreakEnd(text, ss, end)
    case Some(p) => p
    case None =>
      match LastSentenceMark(text, ss, end, end)
      case Some(q) => SpaceRunEnd(text, q + 1, end)
      case None =>
        match LastSpace(text, ss, end)
        case Some(q) => SpaceRunStart(text, ss, q + 1)
        case None => end
  }

  /** _find_best_boundary's cut for the window that ends at `end`. */
  function BoundaryIn(text: string, start: nat, end: nat, lookback: nat): (r: nat)
    requires start <= end <= |text|
    ensures start <= r <= end
  {
    BoundaryFrom(text, SearchStart(start, end, lookback), end)
  }

  /** _find_best_boundary: the search window is the last quarter of a chunk. */
  function FindBestBoundary(text: string, start: nat, end: nat, chunkChars: nat): (r: nat)
    requires start <= end <= |text|
    ensures start <= r <= end
  {
    BoundaryIn(text, start, end, chunkChars / 4)
  }

  predicate HasParagraphBreak(t: string, lo: nat, hi: nat) { exists p :: lo <= p < hi && ParagraphPairAt(t, p, hi) }

  predicate HasSentenceMark(t: string, lo: nat, hi: nat) { exists q :: lo <= q < hi && SentenceMarkAt(t, q, hi) }

  predicate HasSpace(t: string, lo: nat, hi: nat) { exists q :: lo <= q < hi && q < |t| && IsSpace(t[q]) }

  /** With a paragraph break in the window, the cut follows the last "\n\n". */
  lemma BoundaryAfterParagraph(text: string, ss: nat, end: nat)
    requires ss <= end <= |text| && HasParagraphBreak(text, ss, end)
    ensures var r := BoundaryFrom(text, ss, end);
            r >= ss + 2 && text[r - 2] == '\n' && text[r - 1] == '\n' && (r == end || text[r] != '\n')
  {
    LastParagraphBreakIsLast(text, ss, end);
  }

  /** Without a paragraph break but with a sentence end, the cut follows the whitespace after the last one. */
  lemma BoundaryAfterSentence(text: string, ss: nat, end: nat)
    requires ss <= end <= |text| && !HasParagraphBreak(text, ss, end) && HasSentenceMark(text, ss, end)
    ensures var r := BoundaryFrom(text, ss, end);
            r >= ss + 2 && IsSpace(text[r - 1]) && (r == end || !IsSpace(text[r]))
  {
    LastParagraphBreakIsLast(text, ss, end);
    LastSentenceMarkIsLast(text, ss, end, end);
    var q := LastSentenceMark(text, ss, end, end).value;
    SpaceRunEndIsRun(text, q + 1, end);
  }

  /** With only whitespace to go by, the cut is the start of the last whitespace run. */
  lemma BoundaryAtSpace(text: string, ss: nat, end: nat)
    requires ss <= end <= |text| && !HasParagraphBreak(text, ss, end)
    requires !HasSentenceMark(text, ss, end) && HasSpace(text, ss, end)
    ensures var r := BoundaryFrom(text, ss, end);
            r < end && IsSpace(text[r]) && (r == ss || !IsSpace(text[r - 1]))
  {
    LastParagraphBreakIsLast(text, ss, end);
    LastSentenceMarkIsLast(text, ss, end, end);
    LastSpaceIsLast(text, ss, end);
    var q := LastSpace(text, ss, end).value;
    SpaceRunStartIsRun(text, ss, q + 1);
  }

  /** Every match the boundary search can find has whitespace in it. */
  lemma MatchesHaveSpace(text: string, ss: nat, end: nat)
    requires ss <= end <= |text|
    ensures LastParagraphBreakEnd(text, ss, end).Some? ==> HasSpace(text, ss, end)
    ensures LastSentenceMark(text, ss, end, end).Some? ==> HasSpace(text, ss, end)
    ensures LastSpace(text, ss, end).Some? ==> HasSpace(text, ss, end)
  {
    if LastParagraphBreakEnd(text, ss, end).Some? {
      var p := LastParagraphBreakEnd(text, ss, end).value;
      assert IsSpace(text[p - 1]);
    }
    if LastSentenceMark(text, ss, end, end).Some? {
      var q := LastSentenceMark(text, ss, end, end).value;
      assert IsSpace(text[q + 1]);
    }
  }

  /** A window without whitespace is cut at its end. */
  lemma BoundaryAtEnd(text: string, ss: nat, end: nat)
    requires ss <= end <= |text| && !HasSpace(text, ss, end)
    ensures BoundaryFrom(text, ss, end) == end
  {
    MatchesHaveSpace(text, ss, end);
  }

  /**
   * The boundary preference order inside the search window [ss, end): a
   * paragraph break wins and the cut follows a "\n\n"; otherwise a sentence
   * end, and the cut follows the whitespace after it; otherwise the cut is
   * the start of the last whitespace run; and only a window with no
   * whitespace at all is cut at `end`.
   */
  lemma BoundaryInPrefers(text: string, start: nat, end: nat, lookback: nat)
    requires start <= end <= |text|
    ensures var ss := SearchStart(start, end, lookback);
            HasParagraphBreak(text, ss, end) ==>
              var r := BoundaryIn(text, start, end, lookback);
              r >= ss + 2 && text[r - 2] == '\n' && text[r - 1] == '\n' && (r == end || text[r] != '\n')
    ensures var ss := SearchStart(start, end, lookback);
            !HasParagraphBreak(text, ss, end) && HasSentenceMark(text, ss, end) ==>
              var r := BoundaryIn(text, start, end, lookback);
              r >= ss + 2 && IsSpace(text[r - 1]) && (r == end || !IsSpace(text[r]))
    ensures var ss := SearchStart(start, end, lookback);
            !HasParagraphBreak(text, ss, end) && !HasSentenceMark(text, ss, end) && HasSpace(text, ss, end) ==>
              var r := BoundaryIn(text, start, end, lookback);
              r < end && IsSpace(text[r]) && (r == ss || !IsSpace(text[r - 1]))
    ensures !HasSpace(text, SearchStart(start, end, lookback), end) ==> BoundaryIn(text, start, end, lookback) == end
  {
    var ss := SearchStart(start, end, lookback);
    if HasParagraphBreak(text, ss, end) {
      BoundaryAfterParagraph(text, ss, end);
    } else if HasSentenceMark(text, ss, end) {
      BoundaryAfterSentence(text, ss, end);
    } else if HasSpace(text, ss, end) {
      BoundaryAtSpace(text, ss, end);
    } else {
      BoundaryAtEnd(text, ss, end);
    }
  }

  // ---------------------------------------------------------------------
  // Character-window chunking (_chunk_simple, _chunk_with_boundaries)
  // ---------------------------------------------------------------------

  /** The chunks _chunk_simple emits from window start `start` on. */
  function SimpleChunksFrom(text: string, start: nat, index: int, cc: int, oc: int): seq<TextChunk>
    requires 0 <= cc && oc < cc
    decreases |text| - start
  {
    if start >= |text| then []
    else
      var end := Min(start + cc, |text|);
      [Piece(index, text[start..end], start, end)]
      + (if end >= |text| then [] else SimpleChunksFrom(text, start + cc - oc, index + 1, cc, oc))
  }

  /** One window of _chunk_simple: the chunk it emits and where the rest starts. */
  lemma SimpleStep(text: string, start: nat, index: int, cc: int, oc: int, done: seq<TextChunk>)
    requires 0 <= cc && oc < cc && start < |text|
    ensures Min(start + cc, |text|) >= |text| ==>
      done + SimpleChunksFrom(text, start, index, cc, oc)
        == done + [Piece(index, text[start..Min(start + cc, |text|)], start, Min(start + cc, |text|))]
    ensures Min(start + cc, |text|) < |text| ==>
      done + SimpleChunksFrom(text, start, index, cc, oc)
        == (done + [Piece(index, text[start..Min(start + cc, |text|)], start, Min(start + cc, |text|))])
           + SimpleChunksFrom(text, Min(start + cc, |text|) - oc, index + 1, cc, oc)
  {
    var end := Min(start + cc, |text|);
    var c := Piece(index, text[start..end], start, end);
    if end >= |text| {
      assert SimpleChunksFrom(text, start, index, cc, oc) == [c] + [];
      assert [c] + [] == [c];
    } else {
      var rest := SimpleChunksFrom(text, end - oc, index + 1, cc, oc);
      assert SimpleChunksFrom(text, start, index, cc, oc) == [c] + rest;
      assert done + ([c] + rest) == (done + [c]) + rest;
    }
  }

  /** _chunk_simple */
  method ChunkSimple(text: string, cc: int, oc: int) returns (chunks: seq<TextChunk>)
    requires 0 <= cc && oc < cc
    ensures chunks == SimpleChunksFrom(text, 0, 0, cc, oc)
  {
    chunks := [];
    var start := 0;
    var index := 0;
    while start < |text|
      invariant 0 <= start
      invariant chunks + SimpleChunksFrom(text, start, index, cc, oc) == SimpleChunksFrom(text, 0, 0, cc, oc)
      decreases |text| - start
    {
      var end := Min(start + cc, |text|);
      var c := Piece(index, text[start..end], start, end);
      SimpleStep(text, start, index, cc, oc, chunks);
      chunks := chunks + [c];
      start := end - oc;
      if start >= |text| - oc {
        break;
      }
      index := index + 1;
    }
  }

  /** Chunk `c` is the k-th window of simple chunking started at `start`. */
  predicate SimpleWindowAt(text: string, c: TextChunk, k: nat, start: int, index: int, cc: int, oc: int)
    requires oc < cc
  {
    c.index == index + k
    && c.startChar == start + Steps(k, cc - oc)
    && c.endChar == Min(c.startChar + cc, |text|)
    && 0 <= c.startChar < |text| && c.startChar <= c.endChar
    && c.text == text[c.startChar..c.endChar]
    && !c.isTable
  }

  lemma ShiftSimpleWindow(text: string, c: TextChunk, k: nat, start: int, index: int, cc: int, oc: int)
    requires oc < cc
    requires SimpleWindowAt(text, c, k, start + (cc - oc), index + 1, cc, oc)
    ensures SimpleWindowAt(text, c, k + 1, start, index, cc, oc)
  {
    assert Steps(k + 1, cc - oc) == Steps(k, cc - oc) + (cc - oc);
  }

  /**
   * Shape of the simple chunking: chunk k has index `index + k`, starts
   * k·(cc − oc) after `start`, ends cc later or at the end of the text, and
   * holds exactly that slice of the text.
   */
  lemma {:induction false} SimpleChunksShape(text: string, start: nat, index: int, cc: int, oc: int)
    requires 0 <= cc && oc < cc
    ensures forall k :: 0 <= k < |SimpleChunksFrom(text, start, index, cc, oc)| ==>
              SimpleWindowAt(text, SimpleChunksFrom(text, start, index, cc, oc)[k], k, start, index, cc, oc)
    decreases |text| - start
  {
    if start < |text| {
      var end := Min(start + cc, |text|);
      var cs := SimpleChunksFrom(text, start, index, cc, oc);
      assert SimpleWindowAt(text, cs[0], 0, start, index, cc, oc);
      if end < |text| {
        var rest := SimpleChunksFrom(text, start + cc - oc, index + 1, cc, oc);
        var next: nat := start + cc - oc;
        SimpleChunksShape(text, next, index + 1, cc, oc);
        assert cs == [cs[0]] + rest;
        forall k | 1 <= k < |cs| ensures SimpleWindowAt(text, cs[k], k, start, index, cc, oc) {
          assert cs[k] == rest[k - 1];
          assert SimpleWindowAt(text, rest[k - 1], k - 1, start + cc - oc, index + 1, cc, oc);
          assert start + cc - oc == start + (cc - oc);
          ShiftSimpleWindow(text, cs[k], k - 1, start, index, cc, oc);
        }
      }
    }
  }

  /**
   * With a non-negative overlap simple chunking covers the text: the last
   * chunk ends at the end of a non-empty text.
   */
  lemma {:induction false} SimpleChunksReachEnd(text: string, start: nat, index: int, cc: int, oc: int)
    requires 0 <= oc < cc && start < |text|
    ensures var cs := SimpleChunksFrom(text, start, index, cc, oc);
            |cs| > 0 && cs[|cs| - 1].endChar == |text|
    decreases |text| - start
  {
    var end := Min(start + cc, |text|);
    if end < |text| {
      SimpleChunksReachEnd(text, start + cc - oc, index + 1, cc, oc);
    }
  }

  /** Where _chunk_with_boundaries cuts the window that starts at `start` (the text's end once `start` is past it). */
  function WindowEnd(text: string, start: nat, cc: nat, lookback: nat): (end: nat)
    ensures start < |text| ==> start <= end
    ensures end <= |text|
  {
    if start >= |text| then |text|
    else
      var end0 := Min(start + cc, |text|);
      if end0 < |text| then BoundaryIn(text, start, end0, lookback) else end0
  }

  /** A cut function gives each window start inside the text an end no earlier and not past the text. */
  predicate CutsInside(text: string, cut: nat -> nat) {
    forall s: nat :: s < |text| ==> s <= cut(s) <= |text|
  }

  /** The cuts _chunk_with_boundaries makes, as a function of the window start. */
  function BoundaryCut(text: string, cc: nat, lookback: nat): (cut: nat -> nat)
    ensures CutsInside(text, cut)
    ensures forall s: nat :: cut(s) == WindowEnd(text, s, cc, lookback)
  {
    s => WindowEnd(text, s, cc, lookback)
  }

  /** The stripped text of the range [a, b) of `text`, as a function of the range ("" for a range not inside the text). */
  function StripOf(text: string): (strip: (nat, nat) -> string)
    ensures forall a: nat, b: nat :: a <= b <= |text| ==> strip(a, b) == StripRange(text, a, b)
  {
    (a: nat, b: nat) => if a <= b <= |text| then StripRange(text, a, b) else []
  }

  /** The chunk the window [start, end) contributes: none when its text strips to "". */
  function WindowChunk(start: nat, end: nat, index: int, strip: (nat, nat) -> string): (here: seq<TextChunk>)
    ensures |here| <= 1
  {
    var content := strip(start, end);
    if |content| > 0 then [Piece(index, content, start, end)] else []
  }

  /**
   * The chunks emitted by windows starting at `start`, `start + step`, ...,
   * each window ending where `cut` says and contributing its range's text as
   * `strip` gives it, until a window reaches the end of the text. Chunk
   * numbers are consumed only by emitted chunks.
   */
  function ChunksAlong(text: string, start: nat, index: int, step: nat, cut: nat -> nat,
                       strip: (nat, nat) -> string): seq<TextChunk>
    requires step > 0 && CutsInside(text, cut)
    decreases |text| - start
  {
    if start >= |text| then []
    else
      var here := WindowChunk(start, cut(start), index, strip);
      if cut(start) >= |text| then here
      else here + ChunksAlong(text, start + step, index + |here|, step, cut, strip)
  }

  /** The whole of _chunk_with_boundaries. */
  function BoundaryChunks(text: string, cc: int, oc: int): seq<TextChunk>
    requires 0 <= cc && oc < cc
  {
    if |text| <= cc then [Piece(0, Strip(text), 0, |text|)]
    else ChunksAlong(text, 0, 0, cc - oc, BoundaryCut(text, cc, cc / 4), StripOf(text))
  }

  /** One window of _chunk_with_boundaries: where it ends and its stripped text. */
  method BoundaryWindow(text: string, start: nat, cc: int) returns (end: nat, content: string)
    requires 0 <= cc && start < |text|
    ensures end == WindowEnd(text, start, cc, cc / 4)
    ensures content == StripOf(text)(start, end)
  {
    end := Min(start + cc, |text|);
    if end < |text| {
      end := FindBestBoundary(text, start, end, cc);
    }
    assert end == WindowEnd(text, start, cc, cc / 4);
    content := Strip(text[start..end]);
    StripRangeIsStrip(text, start, end);
  }

  /** _chunk_with_boundaries */
  method ChunkWithBoundaries(text: string, cc: int, oc: int) returns (chunks: seq<TextChunk>)
    requires 0 <= cc && oc < cc
    ensures chunks == BoundaryChunks(text, cc, oc)
  {
    if |text| <= cc {
      return [Piece(0, Strip(text), 0, |text|)];
    }
    ghost var lookback := cc / 4;
    ghost var cut, strip := BoundaryCut(text, cc, lookback), StripOf(text);
    var step := cc - oc;
    chunks := [];
    var start := 0;
    var index := 0;
    ghost var all := ChunksAlong(text, start, index, step, cut, strip);
    assert chunks + all == all;
    while start < |text|
      invariant 0 <= start
      invariant chunks + ChunksAlong(text, start, index, step, cut, strip) == all
      decreases |text| - start
    {
      var end, content := BoundaryWindow(text, start, cc);
      ghost var before, index0 := chunks, index;
      if |content| > 0 {
        chunks := chunks + [Piece(index, content, start, end)];
        index := index + 1;
      }
      var next := start + step;
      EmitStep(text, start, end, next, index0, step, cut, strip, content, before, chunks, index, all);
      if end >= |text| {
        break;
      }
      start := next;
      if start >= |text| {
        break;
      }
    }
    if start >= |text| {
      assert ChunksAlong(text, start, index, step, cut, strip) == [];
      assert chunks + [] == chunks;
    }
  }

  /**
   * The loop step of ChunkWithBoundaries: appending the window's chunk (if
   * any) to what was emitted before leaves the chunks of the later windows
   * still to come, or none once the window reaches the end of the text.
   */
  lemma EmitStep(text: string, start: nat, end: nat, next: nat, index0: int, step: nat, cut: nat -> nat,
                 strip: (nat, nat) -> string,
                 content: string, before: seq<TextChunk>, chunks: seq<TextChunk>, index: int, all: seq<TextChunk>)
    requires step > 0 && CutsInside(text, cut) && start < |text| && end == cut(start) && next == start + step
    requires before + ChunksAlong(text, start, index0, step, cut, strip) == all
    requires content == strip(start, end)
    requires |content| > 0 ==> chunks == before + [Piece(index0, content, start, end)] && index == index0 + 1
    requires |content| == 0 ==> chunks == before && index == index0
    ensures end >= |text| ==> chunks == all
    ensures end < |text| ==> chunks + ChunksAlong(text, next, index, step, cut, strip) == all
  {
    EmittedWindow(start, end, index0, strip, content, before, chunks);
    ChunksAlongStep(text, start, end, index0, step, cut, strip);
    if end < |text| {
      SplitAppend(before, ChunksAlong(text, start, index0, step, cut, strip), WindowChunk(start, end, index0, strip),
                  ChunksAlong(text, next, index, step, cut, strip), chunks, all);
    }
  }

  /** Appending the window's chunk when its text is non-empty appends WindowChunk. */
  lemma EmittedWindow(start: nat, end: nat, index0: int, strip: (nat, nat) -> string, content: string,
                      before: seq<TextChunk>, chunks: seq<TextChunk>)
    requires content == strip(start, end)
    requires |content| > 0 ==> chunks == before + [Piece(index0, content, start, end)]
    requires |content| == 0 ==> chunks == before
    ensures chunks == before + WindowChunk(start, end, index0, strip)
  {
    if |content| == 0 {
      assert before + [] == before;
    }
  }

  /** One step of ChunksAlong, for the window [start, end): its chunk, then the chunks after it. */
  lemma ChunksAlongStep(text: string, start: nat, end: nat, index: int, step: nat, cut: nat -> nat,
                        strip: (nat, nat) -> string)
    requires step > 0 && CutsInside(text, cut) && start < |text| && end == cut(start)
    ensures end >= |text| ==>
              ChunksAlong(text, start, index, step, cut, strip) == WindowChunk(start, end, index, strip)
    ensures end < |text| ==>
              ChunksAlong(text, start, index, step, cut, strip)
              == WindowChunk(start, end, index, strip)
                 + ChunksAlong(text, start + step, index + |WindowChunk(start, end, index, strip)|, step, cut, strip)
  {
  }

  /** Bookkeeping for a loop that emits `here` from a remainder `mid` = here + rest. */
  lemma SplitAppend<T>(before: seq<T>, mid: seq<T>, here: seq<T>, rest: seq<T>, chunks: seq<T>, all: seq<T>)
    requires before + mid == all && mid == here + rest && chunks == before + here
    ensures chunks + rest == all
  {
    assert before + (here + rest) == (before + here) + rest;
  }

  /** k window advances of `step` characters each. */
  function Steps(k: nat, step: nat): (d: nat)
    ensures step > 0 ==> d >= k
  {
    if k == 0 then 0 else Steps(k - 1, step) + step
  }

  /**
   * Chunk `c` is the k-th emitted chunk of window chunking started at
   * `start` with first number `index`: numbered index + k, starting at least
   * k steps after `start`, covering a range inside the text, and holding
   * that range's text as `strip` gives it, which is not empty.
   */
  predicate BoundaryChunkAt(text: string, c: TextChunk, k: nat, start: int, index: int, step: nat,
                            strip: (nat, nat) -> string) {
    c.index == index + k
    && start + Steps(k, step) <= c.startChar
    && 0 <= c.startChar <= c.endChar <= |text|
    && c.text == strip(c.startChar, c.endChar)
    && c.text != []
    && c.charCount == |c.text|
    && !c.isTable
  }

  /** Every chunk of `cs` is the k-th chunk of window chunking started at `start`. */
  predicate AllBoundaryChunks(text: string, cs: seq<TextChunk>, start: int, index: int, step: nat,
                              strip: (nat, nat) -> string) {
    forall k :: 0 <= k < |cs| ==> BoundaryChunkAt(text, cs[k], k, start, index, step, strip)
  }

  /** The chunks of `cs` start at strictly increasing positions, none before `lo`. */
  predicate StartsIncreasingFrom(cs: seq<TextChunk>, lo: int) {
    cs == [] || (lo <= cs[0].startChar && StartsIncreasingFrom(cs[1..], cs[0].startChar + 1))
  }

  lemma {:induction false} StartsIncreasingWeaken(cs: seq<TextChunk>, lo: int, lo': int)
    requires lo' <= lo && StartsIncreasingFrom(cs, lo)
    ensures StartsIncreasingFrom(cs, lo')
  {
  }

  /** StartsIncreasingFrom spelt out: a lower bound on every start, and strict order between any two chunks. */
  lemma {:induction false} StartsIncreasingPairwise(cs: seq<TextChunk>, lo: int)
    requires StartsIncreasingFrom(cs, lo)
    ensures forall k :: 0 <= k < |cs| ==> lo <= cs[k].startChar
    ensures forall k, l :: 0 <= k < l < |cs| ==> cs[k].startChar < cs[l].startChar
  {
    if cs != [] {
      var tail := cs[1..];
      StartsIncreasingPairwise(tail, cs[0].startChar + 1);
      forall k | 0 <= k < |cs| ensures lo <= cs[k].startChar {
        if k > 0 { assert cs[k] == tail[k - 1]; }
      }
      forall k, l | 0 <= k < l < |cs| ensures cs[k].startChar < cs[l].startChar {
        assert cs[l] == tail[l - 1];
        if k > 0 { assert cs[k] == tail[k - 1]; }
      }
    }
  }

  lemma ShiftBoundaryChunk(text: string, c: TextChunk, k: nat, start: int, index: int, h: nat, step: nat,
                           strip: (nat, nat) -> string)
    requires h <= 1 && step > 0
    requires BoundaryChunkAt(text, c, k, start + step, index + h, step, strip)
    ensures BoundaryChunkAt(text, c, k + h, start, index, step, strip)
  {
    assert Steps(k + 1, step) == Steps(k, step) + step;
  }

  /** The window chunk, when there is one, is chunk 0 and starts at `start`. */
  lemma WindowChunkShape(text: string, start: nat, end: nat, index: int, step: nat, strip: (nat, nat) -> string)
    requires start <= end <= |text|
    ensures AllBoundaryChunks(text, WindowChunk(start, end, index, strip), start, index, step, strip)
  {
  }

  /** A window's chunk, if any, starts at the window's start. */
  lemma WindowChunkStarts(start: nat, end: nat, index: int, strip: (nat, nat) -> string)
    ensures StartsIncreasingFrom(WindowChunk(start, end, index, strip), start)
    ensures |WindowChunk(start, end, index, strip)| == 1 ==> WindowChunk(start, end, index, strip)[0].startChar == start
  {
  }

  lemma ConsBoundaryChunks(text: string, cs: seq<TextChunk>, here: seq<TextChunk>, rest: seq<TextChunk>, start: nat,
                           index: int, step: nat, strip: (nat, nat) -> string)
    requires cs == here + rest && |here| <= 1 && step > 0
    requires AllBoundaryChunks(text, here, start, index, step, strip)
    requires AllBoundaryChunks(text, rest, start + step, index + |here|, step, strip)
    ensures AllBoundaryChunks(text, cs, start, index, step, strip)
  {
    forall k | 0 <= k < |cs| ensures BoundaryChunkAt(text, cs[k], k, start, index, step, strip) {
      if k >= |here| {
        assert cs[k] == rest[k - |here|];
        ShiftBoundaryChunk(text, cs[k], k - |here|, start, index, |here|, step, strip);
      } else {
        assert cs[k] == here[k];
      }
    }
  }

  lemma ConsStartsIncreasing(cs: seq<TextChunk>, here: seq<TextChunk>, rest: seq<TextChunk>, start: int, next: int)
    requires cs == here + rest && |here| <= 1 && start < next
    requires StartsIncreasingFrom(here, start) && StartsIncreasingFrom(rest, next)
    requires |here| == 1 ==> here[0].startChar == start
    ensures StartsIncreasingFrom(cs, start)
  {
    if here == [] {
      assert cs == rest;
      StartsIncreasingWeaken(rest, next, start);
    } else {
      assert cs[1..] == rest;
      StartsIncreasingWeaken(rest, next, start + 1);
    }
  }

  /**
   * Every emitted chunk is the chunk of some window: numbered consecutively
   * from `index` (a window whose stripped text is empty uses no number),
   * starting no earlier than its number of steps allows, and holding its
   * range's stripped, non-empty text.
   */
  lemma {:induction false} ChunksAlongShape(text: string, start: nat, index: int, step: nat, cut: nat -> nat,
                                            strip: (nat, nat) -> string)
    requires step > 0 && CutsInside(text, cut)
    ensures AllBoundaryChunks(text, ChunksAlong(text, start, index, step, cut, strip), start, index, step, strip)
    decreases |text| - start
  {
    if start < |text| {
      var here := WindowChunk(start, cut(start), index, strip);
      if cut(start) < |text| {
        var rest := ChunksAlong(text, start + step, index + |here|, step, cut, strip);
        ChunksAlongCons(text, start, index, step, cut, strip);
        ChunksAlongShape(text, start + step, index + |here|, step, cut, strip);
        ShapeStep(text, ChunksAlong(text, start, index, step, cut, strip), here, rest, start, cut(start), index, step, strip);
      } else {
        WindowChunkShape(text, start, cut(start), index, step, strip);
      }
    }
  }

  /** A window that does not reach the end of the text is followed by the windows one step on. */
  lemma ChunksAlongCons(text: string, start: nat, index: int, step: nat, cut: nat -> nat, strip: (nat, nat) -> string)
    requires step > 0 && CutsInside(text, cut) && start < |text| && cut(start) < |text|
    ensures ChunksAlong(text, start, index, step, cut, strip) ==
      WindowChunk(start, cut(start), index, strip)
      + ChunksAlong(text, start + step, index + |WindowChunk(start, cut(start), index, strip)|, step, cut, strip)
  {
  }

  /** One window's chunk in front of well-formed later chunks gives well-formed chunks. */
  lemma ShapeStep(text: string, cs: seq<TextChunk>, here: seq<TextChunk>, rest: seq<TextChunk>, start: nat, end: nat,
                  index: int, step: nat, strip: (nat, nat) -> string)
    requires start <= end <= |text| && step > 0
    requires here == WindowChunk(start, end, index, strip) && cs == here + rest
    requires AllBoundaryChunks(text, rest, start + step, index + |here|, step, strip)
    ensures AllBoundaryChunks(text, cs, start, index, step, strip)
  {
    WindowChunkShape(text, start, end, index, step, strip);
    ConsBoundaryChunks(text, cs, here, rest, start, index, step, strip);
  }

  /** Emitted chunks start at strictly increasing positions, none before `start`. */
  lemma {:induction false} ChunksAlongIncrease(text: string, start: nat, index: int, step: nat, cut: nat -> nat,
                                               strip: (nat, nat) -> string)
    requires step > 0 && CutsInside(text, cut)
    ensures StartsIncreasingFrom(ChunksAlong(text, start, index, step, cut, strip), start)
    decreases |text| - start
  {
    if start < |text| {
      var here := WindowChunk(start, cut(start), index, strip);
      WindowChunkStarts(start, cut(start), index, strip);
      if cut(start) < |text| {
        var rest := ChunksAlong(text, start + step, index + |here|, step, cut, strip);
        ChunksAlongIncrease(text, start + step, index + |here|, step, cut, strip);
        ConsStartsIncreasing(ChunksAlong(text, start, index, step, cut, strip), here, rest, start, start + step);
      } else {
        assert ChunksAlong(text, start, index, step, cut, strip) == here;
      }
    }
  }

  /**
   * Chunk c is the k-th boundary chunk of `text` cut with window advance
   * `step`: numbered k, starting at least k steps in, over a non-empty range
   * of the text whose stripped content it holds.
   */
  predicate StrippedChunk(text: string, c: TextChunk, k: nat, step: nat)
  {
    c.index == k && Steps(k, step) <= c.startChar < c.endChar <= |text|
    && c.text == Strip(text[c.startChar..c.endChar]) && c.text != []
    && c.charCount == |c.text| && !c.isTable
  }

  /** The abstract per-chunk facts, read with the concrete strip. */
  lemma BoundaryChunkIsStripped(text: string, c: TextChunk, k: nat, step: nat)
    requires BoundaryChunkAt(text, c, k, 0, 0, step, StripOf(text))
    ensures StrippedChunk(text, c, k, step)
  {
    StripRangeIsStrip(text, c.startChar, c.endChar);
  }

  /**
   * The boundary chunks of a text longer than one window: chunk k is
   * numbered k, starts at least k steps of cc − oc into the text, covers a
   * non-empty range inside it and holds that range's stripped, non-empty
   * text.
   */
  lemma BoundaryChunksWellFormed(text: string, cc: int, oc: int)
    requires 0 <= cc && oc < cc
    ensures |text| > cc ==> forall k :: 0 <= k < |BoundaryChunks(text, cc, oc)| ==>
              StrippedChunk(text, BoundaryChunks(text, cc, oc)[k], k, cc - oc)
  {
    if |text| > cc {
      var step: nat := cc - oc;
      var cut := BoundaryCut(text, cc, cc / 4);
      var strip := StripOf(text);
      var cs := ChunksAlong(text, 0, 0, step, cut, strip);
      assert cs == BoundaryChunks(text, cc, oc);
      ChunksAlongShape(text, 0, 0, step, cut, strip);
      forall k | 0 <= k < |cs|
        ensures StrippedChunk(text, cs[k], k, step)
      {
        assert BoundaryChunkAt(text, cs[k], k, 0, 0, step, strip);
        BoundaryChunkIsStripped(text, cs[k], k, step);
      }
    }
  }

  /** Boundary chunks start at strictly increasing positions. */
  lemma BoundaryChunksOrdered(text: string, cc: int, oc: int)
    requires 0 <= cc && oc < cc
    ensures |text| > cc ==> forall k, l :: 0 <= k < l < |BoundaryChunks(text, cc, oc)| ==>
              BoundaryChunks(text, cc, oc)[k].startChar < BoundaryChunks(text, cc, oc)[l].startChar
  {
    if |text| > cc {
      ChunksAlongIncrease(text, 0, 0, cc - oc, BoundaryCut(text, cc, cc / 4), StripOf(text));
      StartsIncreasingPairwise(BoundaryChunks(text, cc, oc), 0);
    }
  }

  /** k steps of `step` characters are k·step characters. */
  lemma {:induction false} StepsIsProduct(k: nat, step: nat)
    ensures Steps(k, step) == k * step
  {
    if k > 0 {
      StepsIsProduct(k - 1, step);
    }
  }

  // ---------------------------------------------------------------------
  // chunk_text, estimate_tokens, get_chunk_stats
  // ---------------------------------------------------------------------

  /** chunk_text as a value: [] for blank text, an error when the window does not exceed the overlap. */
  function ChunksOf(text: string, chunkSize: int, overlap: int, respectBoundaries: bool): Result<seq<TextChunk>, ChunkError>
    requires chunkSize >= 0
  {
    if text == [] || Strip(text) == [] then Ok([])
    else if chunkSize * CharsPerToken <= overlap * CharsPerToken then Err(ChunkSizeNotAboveOverlap)
    else if respectBoundaries then Ok(BoundaryChunks(text, chunkSize * CharsPerToken, overlap * CharsPerToken))
    else Ok(SimpleChunksFrom(text, 0, 0, chunkSize * CharsPerToken, overlap * CharsPerToken))
  }

  /** chunk_text */
  method ChunkText(text: string, chunkSize: int, overlap: int, respectBoundaries: bool)
    returns (r: Result<seq<TextChunk>, ChunkError>)
    requires chunkSize >= 0
    ensures r == ChunksOf(text, chunkSize, overlap, respectBoundaries)
  {
    if text == [] || Strip(text) == [] {
      return Ok([]);
    }
    var chunkChars := chunkSize * CharsPerToken;
    var overlapChars := overlap * CharsPerToken;
    if chunkChars <= overlapChars {
      return Err(ChunkSizeNotAboveOverlap);
    }
    var chunks;
    if respectBoundaries {
      chunks := ChunkWithBoundaries(text, chunkChars, overlapChars);
    } else {
      chunks := ChunkSimple(text, chunkChars, overlapChars);
    }
    return Ok(chunks);
  }

  /**
   * chunk_text's outcome: blank text gives [] whatever the sizes (the blank
   * check comes first); otherwise it fails exactly when chunk_size <= overlap.
   */
  lemma ChunksOfOutcome(text: string, chunkSize: int, overlap: int, respectBoundaries: bool)
    requires chunkSize >= 0
    ensures AllSpace(text) ==> ChunksOf(text, chunkSize, overlap, respectBoundaries) == Ok([])
    ensures !AllSpace(text) ==>
              (ChunksOf(text, chunkSize, overlap, respectBoundaries).Err? <==> chunkSize <= overlap)
  {
    StripEmptyIffAllSpace(text);
  }

  /** A text no longer than one window gives exactly one chunk: the stripped text over [0, len). */
  lemma ShortTextSingleChunk(text: string, chunkSize: int, overlap: int)
    requires chunkSize >= 0 && overlap < chunkSize
    requires |text| <= chunkSize * CharsPerToken && !AllSpace(text)
    ensures ChunksOf(text, chunkSize, overlap, true)
              == Ok([TextChunk(0, Strip(text), |Strip(text)|, |Strip(text)| / 4, 0, |text|, false, "")])
  {
    StripEmptyIffAllSpace(text);
  }

  /** estimate_tokens */
  function EstimateTokens(text: string): (n: int)
    ensures 0 <= n && CharsPerToken * n <= |text| < CharsPerToken * (n + 1)
  {
    if text == [] then 0 else |text| / CharsPerToken
  }

  datatype ChunkStats = ChunkStats(
    totalChunks: int,
    totalChars: int,
    totalTokensEstimate: int,
    avgChunkSize: int,
    minChunkSize: int,
    maxChunkSize: int)

  function CharCounts(chunks: seq<TextChunk>): (r: seq<int>)
    ensures |r| == |chunks| && forall i :: 0 <= i < |r| ==> r[i] == chunks[i].charCount
  {
    if chunks == [] then [] else [chunks[0].charCount] + CharCounts(chunks[1..])
  }

  function TokenCounts(chunks: seq<TextChunk>): (r: seq<int>)
    ensures |r| == |chunks| && forall i :: 0 <= i < |r| ==> r[i] == chunks[i].tokenEstimate
  {
    if chunks == [] then [] else [chunks[0].tokenEstimate] + TokenCounts(chunks[1..])
  }

  /** Smallest element of a non-empty sequence. */
  function MinOf(xs: seq<int>): (m: int)
    requires |xs| > 0
    ensures (forall i :: 0 <= i < |xs| ==> m <= xs[i]) && exists i :: 0 <= i < |xs| && m == xs[i]
  {
    if |xs| == 1 then xs[0]
    else
      var m := MinOf(xs[1..]);
      assert forall i :: 1 <= i < |xs| ==> xs[i] == xs[1..][i - 1];
      Min(xs[0], m)
  }

  /** Largest element of a non-empty sequence. */
  function MaxOf(xs: seq<int>): (m: int)
    requires |xs| > 0
    ensures (forall i :: 0 <= i < |xs| ==> xs[i] <= m) && exists i :: 0 <= i < |xs| && m == xs[i]
  {
    if |xs| == 1 then xs[0]
    else
      var m := MaxOf(xs[1..]);
      assert forall i :: 1 <= i < |xs| ==> xs[i] == xs[1..][i - 1];
      Max(xs[0], m)
  }

  /** get_chunk_stats */
  function GetChunkStats(chunks: seq<TextChunk>): (s: ChunkStats)
    ensures chunks == [] ==> s == ChunkStats(0, 0, 0, 0, 0, 0)
    ensures chunks != [] ==>
              s.totalChunks == |chunks|
              && s.totalChars == Sum(CharCounts(chunks))
              && s.totalTokensEstimate == Sum(TokenCounts(chunks))
  {
    if chunks == [] then ChunkStats(0, 0, 0, 0, 0, 0)
    else
      var tokens := TokenCounts(chunks);
      ChunkStats(|chunks|, Sum(CharCounts(chunks)), Sum(tokens), Sum(tokens) / |chunks|,
                 MinOf(tokens), MaxOf(tokens))
  }

  /** Floor division by a positive count brackets the dividend. */
  lemma FloorDivBounds(t: int, n: int)
    requires n > 0
    ensures (t / n) * n <= t < (t / n + 1) * n
  {
    assert t == (t / n) * n + t % n;
    assert (t / n + 1) * n == (t / n) * n + n;
  }

  /** The average chunk size is the floor of the mean token estimate. */
  lemma ChunkStatsAverage(chunks: seq<TextChunk>)
    requires chunks != []
    ensures var s := GetChunkStats(chunks);
      s.avgChunkSize * |chunks| <= s.totalTokensEstimate < (s.avgChunkSize + 1) * |chunks|
  {
    FloorDivBounds(Sum(TokenCounts(chunks)), |chunks|);
  }

  /** The minimum and maximum chunk sizes bound every token estimate and are attained. */
  lemma ChunkStatsExtremes(chunks: seq<TextChunk>)
    requires chunks != []
    ensures forall i :: 0 <= i < |chunks| ==>
              GetChunkStats(chunks).minChunkSize <= chunks[i].tokenEstimate <= GetChunkStats(chunks).maxChunkSize
    ensures exists i :: 0 <= i < |chunks| && GetChunkStats(chunks).minChunkSize == chunks[i].tokenEstimate
    ensures exists i :: 0 <= i < |chunks| && GetChunkStats(chunks).maxChunkSize == chunks[i].tokenEstimate
  {
    var tokens := TokenCounts(chunks);
    var m, x := MinOf(tokens), MaxOf(tokens);
    assert forall i :: 0 <= i < |chunks| ==> tokens[i] == chunks[i].tokenEstimate;
  }

  // ---------------------------------------------------------------------
  // Table chunking (chunk_table_with_headers) and parse_text_table
  // ---------------------------------------------------------------------

  function StripAll(cells: seq<string>): (r: seq<string>)
    ensures |r| == |cells| && forall i :: 0 <= i < |r| ==> r[i] == Strip(cells[i])
  {
    if cells == [] then [] else [Strip(cells[0])] + StripAll(cells[1..])
  }

  function Repeat(c: char, n: nat): (r: string)
    ensures |r| == n && forall i :: 0 <= i < n ==> r[i] == c
  {
    if n == 0 then [] else [c] + Repeat(c, n - 1)
  }

  /** The stripped cells of a data row, padded with "" and cut to the header width. */
  function RowCells(row: seq<string>, width: nat): (r: seq<string>)
    ensures |r| == width
    ensures forall j :: 0 <= j < width ==> r[j] == (if j < |row| then Strip(row[j]) else "")
  {
    var values := StripAll(row);
    if |values| >= width then values[..width]
    else values + seq(width - |values|, _ => "")
  }

  /** `header=cell` for every non-empty data cell after the first column. */
  function Attributes(headers: seq<string>, values: seq<string>): (r: seq<string>)
    ensures |r| <= |headers| && |r| <= |values|
    decreases |headers|
  {
    if headers == [] || values == [] then []
    else (if values[0] != "" then [headers[0] + "=" + values[0]] else []) + Attributes(headers[1..], values[1..])
  }

  /** Summary lines of one chunk's rows; an empty row under an empty header fails. */
  function SummaryLines(headers: seq<string>, rows: seq<seq<string>>): Result<seq<string>, ChunkError>
  {
    if rows == [] then Ok([])
    else
      var values := StripAll(rows[0]);
      var line: Result<seq<string>, ChunkError> :=
        if |values| < |headers| then Ok([])
        else if values == [] then Err(MissingFirstCell)
        else
          var attrs := Attributes(Slice(headers, 1, |headers|), values[1..]);
          if attrs == [] then Ok([])
          else Ok(["  \U{2022} " + headers[0] + " '" + values[0] + "': " + Join(", ", attrs)]);
      match line
      case Err(e) => Err(e)
      case Ok(l) =>
        match SummaryLines(headers, rows[1..])
        case Err(e) => Err(e)
        case Ok(ls) => Ok(l + ls)
  }

  function RowTexts(rows: seq<seq<string>>, width: nat): (r: seq<string>)
    ensures |r| == |rows| && forall k :: 0 <= k < |rows| ==> r[k] == Join(" | ", RowCells(rows[k], width))
  {
    if rows == [] then [] else [Join(" | ", RowCells(rows[0], width))] + RowTexts(rows[1..], width)
  }

  /** The lines of the table chunk covering data rows i.. of `data`. */
  function TableChunkLines(tableName: string, pageNumber: int, headers: seq<string>,
                           data: seq<seq<string>>, i: nat, chunkRows: seq<seq<string>>,
                           includeSemantic: bool): Result<seq<string>, ChunkError>
  {
    var headerText := Join(" | ", headers);
    var head := ["=== " + tableName + " ===",
                 "(Page " + IntToString(pageNumber) + ", Rows " + IntToString(i + 1) + "-"
                   + IntToString(i + |chunkRows|) + " of " + IntToString(|data|) + ")",
                 "",
                 "Table Data:",
                 headerText,
                 Repeat('-', |headerText|)];
    var body := head + RowTexts(chunkRows, |headers|);
    if !includeSemantic then Ok(body)
    else
      match SummaryLines(headers, chunkRows)
      case Err(e) => Err(e)
      case Ok(summary) => Ok(body + ["", "Summary:"] + summary)
  }

  /** A table chunk: no character range, flagged as a table, named after it. */
  function TableChunk(index: int, t: string, tableName: string): TextChunk {
    TextChunk(index, t, |t|, |t| / CharsPerToken, 0, 0, true, tableName)
  }

  /** The text of the table chunk whose rows start at data row i: its lines joined by "\n". */
  function TableChunkText(tableName: string, pageNumber: int, headers: seq<string>, data: seq<seq<string>>,
                          i: nat, rpc: nat, includeSemantic: bool): Result<string, ChunkError>
  {
    match TableChunkLines(tableName, pageNumber, headers, data, i, Slice(data, i, i + rpc), includeSemantic)
    case Err(e) => Err(e)
    case Ok(lines) => Ok(Join("\n", lines))
  }

  /** TableChunkText as a function of the first row index. */
  function TableTextsOf(tableName: string, pageNumber: int, headers: seq<string>, data: seq<seq<string>>,
                        rpc: nat, includeSemantic: bool): (textAt: nat -> Result<string, ChunkError>)
    ensures forall i: nat :: textAt(i) == TableChunkText(tableName, pageNumber, headers, data, i, rpc, includeSemantic)
  {
    (i: nat) => TableChunkText(tableName, pageNumber, headers, data, i, rpc, includeSemantic)
  }

  /**
   * The table chunks for the row groups starting at i, i + rpc, ... below n,
   * numbered from `index`, each holding the text `textAt` gives for its
   * group; the first group whose text fails makes the whole fail.
   */
  function TableChunksAlong(n: nat, i: nat, rpc: nat, index: int, tableName: string,
                            textAt: nat -> Result<string, ChunkError>): Result<seq<TextChunk>, ChunkError>
    requires rpc > 0
    decreases n - i
  {
    if i >= n then Ok([])
    else
      match textAt(i)
      case Err(e) => Err(e)
      case Ok(t) => Prepend([TableChunk(index, t, tableName)], TableChunksAlong(n, i + rpc, rpc, index + 1, tableName, textAt))
  }

  /** `before` followed by the chunks of `r`, or r's error. */
  function Prepend(before: seq<TextChunk>, r: Result<seq<TextChunk>, ChunkError>): (r': Result<seq<TextChunk>, ChunkError>)
    ensures r.Err? ==> r' == r
    ensures r.Ok? ==> r' == Ok(before + r.value)
  {
    match r
    case Err(e) => Err(e)
    case Ok(cs) => Ok(before + cs)
  }

  /** Before ChunkTableWithHeaders's loop: nothing emitted, every group still to come. */
  lemma TableLoopEntry(n: nat, rpc: nat, startIndex: int, tableName: string, textAt: nat -> Result<string, ChunkError>,
                       chunks: seq<TextChunk>, all: Result<seq<TextChunk>, ChunkError>)
    requires rpc > 0 && chunks == [] && all == TableChunksAlong(n, 0, rpc, startIndex, tableName, textAt)
    ensures all == Prepend(chunks, TableChunksAlong(n, 0, rpc, startIndex + |chunks|, tableName, textAt))
  {
    if all.Ok? {
      assert [] + all.value == all.value;
    }
  }

  /** chunk_table_with_headers as a value. */
  function TableChunks(table: seq<seq<string>>, tableName: string, rowsPerChunk: int,
                       pageNumber: int, startIndex: int, includeSemantic: bool): Result<seq<TextChunk>, ChunkError>
  {
    if |table| < 2 then Ok([])
    else if rowsPerChunk == 0 then Err(ZeroRowsPerChunk)
    else if rowsPerChunk < 0 then Ok([])
    else TableChunksAlong(|table[1..]|, 0, rowsPerChunk, startIndex, tableName,
                          TableTextsOf(tableName, pageNumber, StripAll(table[0]), table[1..], rowsPerChunk,
                                       includeSemantic))
  }

  /** chunk_table_with_headers */
  method ChunkTableWithHeaders(table: seq<seq<string>>, tableName: string, rowsPerChunk: int,
                               pageNumber: int, startIndex: int, includeSemantic: bool)
    returns (r: Result<seq<TextChunk>, ChunkError>)
    ensures r == TableChunks(table, tableName, rowsPerChunk, pageNumber, startIndex, includeSemantic)
  {
    if |table| < 2 {
      return Ok([]);
    }
    if rowsPerChunk == 0 {
      return Err(ZeroRowsPerChunk);
    }
    if rowsPerChunk < 0 {
      return Ok([]);
    }
    var headers := StripAll(table[0]);
    var data := table[1..];
    ghost var textAt := TableTextsOf(tableName, pageNumber, headers, data, rowsPerChunk, includeSemantic);
    ghost var all := TableChunksAlong(|data|, 0, rowsPerChunk, startIndex, tableName, textAt);
    var chunks: seq<TextChunk> := [];
    var i := 0;
    TableLoopEntry(|data|, rowsPerChunk, startIndex, tableName, textAt, chunks, all);
    while i < |data|
      invariant all == Prepend(chunks, TableChunksAlong(|data|, i, rowsPerChunk, startIndex + |chunks|, tableName, textAt))
      decreases |data| - i
    {
      var rows := Slice(data, i, i + rowsPerChunk);
      var lines := TableChunkLines(tableName, pageNumber, headers, data, i, rows, includeSemantic);
      if lines.Err? {
        assert textAt(i) == Err(lines.error);
        TableStepFails(|data|, i, rowsPerChunk, startIndex, tableName, textAt, chunks, all);
        return Err(lines.error);
      }
      var t := Join("\n", lines.value);
      assert textAt(i) == Ok(t);
      var next := i + rowsPerChunk;
      ghost var before := chunks;
      chunks := chunks + [TableChunk(startIndex + |chunks|, t, tableName)];
      TableStep(|data|, i, next, rowsPerChunk, startIndex, tableName, textAt, before, chunks, all);
      i := next;
    }
    assert TableChunksAlong(|data|, i, rowsPerChunk, startIndex + |chunks|, tableName, textAt) == Ok([]);
    assert chunks + [] == chunks;
    return Ok(chunks);
  }

  /** The loop step of ChunkTableWithHeaders when the group's text fails: so does the whole. */
  lemma TableStepFails(n: nat, i: nat, rpc: nat, startIndex: int, tableName: string,
                       textAt: nat -> Result<string, ChunkError>,
                       chunks: seq<TextChunk>, all: Result<seq<TextChunk>, ChunkError>)
    requires rpc > 0 && i < n && textAt(i).Err?
    requires all == Prepend(chunks, TableChunksAlong(n, i, rpc, startIndex + |chunks|, tableName, textAt))
    ensures all == Err(textAt(i).error)
  {
  }

  /** The loop step of ChunkTableWithHeaders: the group's chunk joins the emitted ones. */
  lemma TableStep(n: nat, i: nat, next: nat, rpc: nat, startIndex: int, tableName: string,
                  textAt: nat -> Result<string, ChunkError>,
                  before: seq<TextChunk>, chunks: seq<TextChunk>, all: Result<seq<TextChunk>, ChunkError>)
    requires rpc > 0 && i < n && textAt(i).Ok? && next == i + rpc
    requires all == Prepend(before, TableChunksAlong(n, i, rpc, startIndex + |before|, tableName, textAt))
    requires chunks == before + [TableChunk(startIndex + |before|, textAt(i).value, tableName)]
    ensures all == Prepend(chunks, TableChunksAlong(n, next, rpc, startIndex + |chunks|, tableName, textAt))
  {
    var c := TableChunk(startIndex + |before|, textAt(i).value, tableName);
    var rest := TableChunksAlong(n, next, rpc, startIndex + |before| + 1, tableName, textAt);
    assert TableChunksAlong(n, i, rpc, startIndex + |before|, tableName, textAt) == Prepend([c], rest);
    assert startIndex + |chunks| == startIndex + |before| + 1;
    if rest.Ok? {
      assert before + ([c] + rest.value) == chunks + rest.value;
    }
  }

  /** Chunk `c` is the k-th table chunk of the row groups from i: numbered index + k, holding group k's text. */
  predicate TableChunkAt(c: TextChunk, k: nat, i: nat, rpc: nat, index: int, tableName: string,
                         textAt: nat -> Result<string, ChunkError>) {
    textAt(i + Steps(k, rpc)).Ok?
    && c.index == index + k && c.text == textAt(i + Steps(k, rpc)).value && c.charCount == |c.text|
    && c.isTable && c.tableName == tableName && c.startChar == 0 && c.endChar == 0
  }

  /**
   * A successful table chunking of row groups from i below n yields one
   * chunk per group: as many chunks as steps of rpc from i are needed to
   * reach n (ceil((n − i)/rpc)); chunk k is numbered index + k, is a table
   * chunk carrying the table name and no character range, and holds the
   * text of the group starting k steps of rpc after i.
   */
  lemma {:induction false} TableChunksShape(n: nat, i: nat, rpc: nat, index: int, tableName: string,
                                            textAt: nat -> Result<string, ChunkError>)
    requires rpc > 0
    requires TableChunksAlong(n, i, rpc, index, tableName, textAt).Ok?
    ensures n <= i + Steps(|TableChunksAlong(n, i, rpc, index, tableName, textAt).value|, rpc)
    ensures |TableChunksAlong(n, i, rpc, index, tableName, textAt).value| > 0 ==>
              i + Steps(|TableChunksAlong(n, i, rpc, index, tableName, textAt).value| - 1, rpc) < n
    ensures forall k :: 0 <= k < |TableChunksAlong(n, i, rpc, index, tableName, textAt).value| ==>
              TableChunkAt(TableChunksAlong(n, i, rpc, index, tableName, textAt).value[k], k, i, rpc, index,
                           tableName, textAt)
    decreases n - i
  {
    if i < n {
      var cs := TableChunksAlong(n, i, rpc, index, tableName, textAt).value;
      var rest := TableChunksAlong(n, i + rpc, rpc, index + 1, tableName, textAt).value;
      TableChunksShape(n, i + rpc, rpc, index + 1, tableName, textAt);
      assert cs == [TableChunk(index, textAt(i).value, tableName)] + rest;
      StepsShift(|rest|, rpc);
      forall k | 0 <= k < |cs| ensures TableChunkAt(cs[k], k, i, rpc, index, tableName, textAt) {
        if k > 0 {
          assert cs[k] == rest[k - 1];
          assert TableChunkAt(rest[k - 1], k - 1, i + rpc, rpc, index + 1, tableName, textAt);
          StepsShift(k - 1, rpc);
        }
      }
    }
  }

  /** k + 1 steps are one step followed by k steps. */
  lemma {:induction false} StepsShift(k: nat, step: nat)
    ensures Steps(k + 1, step) == step + Steps(k, step)
  {
    if k > 0 {
      StepsShift(k - 1, step);
    }
  }

  /**
   * Every data row line of a table chunk has exactly one entry per header:
   * the row's stripped cells, cut or padded with "".
   */
  lemma TableRowLines(tableName: string, pageNumber: int, headers: seq<string>,
                      data: seq<seq<string>>, i: nat, rows: seq<seq<string>>, includeSemantic: bool)
    requires TableChunkLines(tableName, pageNumber, headers, data, i, rows, includeSemantic).Ok?
    ensures var lines := TableChunkLines(tableName, pageNumber, headers, data, i, rows, includeSemantic).value;
            |lines| >= 6 + |rows|
            && lines[4] == Join(" | ", headers)
            && |lines[5]| == |lines[4]|
            && forall k :: 0 <= k < |rows| ==>
                 lines[6 + k] == Join(" | ", RowCells(rows[k], |headers|))
                 && |RowCells(rows[k], |headers|)| == |headers|
  {
    var lines := TableChunkLines(tableName, pageNumber, headers, data, i, rows, includeSemantic).value;
    var head := ["=== " + tableName + " ===",
                 "(Page " + IntToString(pageNumber) + ", Rows " + IntToString(i + 1) + "-"
                   + IntToString(i + |rows|) + " of " + IntToString(|data|) + ")",
                 "",
                 "Table Data:",
                 Join(" | ", headers),
                 Repeat('-', |Join(" | ", headers)|)];
    var body := head + RowTexts(rows, |headers|);
    assert lines[..|body|] == body;
    forall k | 0 <= k < |rows| ensures lines[6 + k] == Join(" | ", RowCells(rows[k], |headers|)) {
      assert lines[6 + k] == body[6 + k];
    }
  }

  /** Python's `re.split(r'  +', s)`: split on runs of two or more spaces. */
  function SplitOnSpaceRuns(s: string): (r: seq<string>)
    ensures |r| >= 1
    decreases |s|
  {
    if |s| < 2 then [s]
    else if s[0] == ' ' && s[1] == ' ' then
      var e := SpaceOnlyRunEnd(s, 2);
      [""] + SplitOnSpaceRuns(s[e..])
    else
      var rest := SplitOnSpaceRuns(s[1..]);
      [[s[0]] + rest[0]] + rest[1..]
  }

  function SpaceOnlyRunEnd(s: string, i: nat): (j: nat)
    requires i <= |s|
    ensures i <= j <= |s|
    decreases |s| - i
  {
    if i < |s| && s[i] == ' ' then SpaceOnlyRunEnd(s, i + 1) else i
  }

  function NonEmptyOnly(cells: seq<string>): (r: seq<string>)
    ensures forall k :: 0 <= k < |r| ==> r[k] != ""
    ensures forall k :: 0 <= k < |r| ==> r[k] in cells
  {
    if cells == [] then []
    else (if cells[0] != "" then [cells[0]] else []) + NonEmptyOnly(cells[1..])
  }

  /** The cells parse_text_table reads from one stripped, non-empty line. */
  function LineCells(line: string): seq<string> {
    if '|' in line then NonEmptyOnly(StripAll(SplitOn(line, '|')))
    else if '\t' in line then StripAll(SplitOn(line, '\t'))
    else StripAll(SplitOnSpaceRuns(line))
  }

  /** The row parse_text_table builds from one line: none for a blank line or one without cells. */
  function LineRow(line: string): (row: seq<seq<string>>)
    ensures |row| <= 1 && [] !in row
  {
    var l := Strip(line);
    if l == [] || LineCells(l) == [] then [] else [LineCells(l)]
  }

  /** The rows `rowOf` builds from lines k.. of `lines`, in order. */
  function RowsFrom(lines: seq<string>, k: nat, rowOf: string -> seq<seq<string>>): seq<seq<string>>
    decreases |lines| - k
  {
    if k >= |lines| then [] else rowOf(lines[k]) + RowsFrom(lines, k + 1, rowOf)
  }

  /** Line k contributes its rows ahead of the later lines'. */
  lemma RowsFromStep(lines: seq<string>, k: nat, rowOf: string -> seq<seq<string>>)
    requires k < |lines|
    ensures RowsFrom(lines, k, rowOf) == rowOf(lines[k]) + RowsFrom(lines, k + 1, rowOf)
  {
  }

  /** The rows parse_text_table builds from the given lines. */
  function TableRowsOf(lines: seq<string>): seq<seq<string>> {
    RowsFrom(lines, 0, LineRow)
  }

  /** parse_text_table */
  method ParseTextTable(tableText: string) returns (rows: seq<seq<string>>)
    ensures rows == TableRowsOf(SplitOn(Strip(tableText), '\n'))
  {
    var lines := SplitOn(Strip(tableText), '\n');
    rows := [];
    var k := 0;
    while k < |lines|
      invariant rows + RowsFrom(lines, k, LineRow) == RowsFrom(lines, 0, LineRow)
      decreases |lines| - k
    {
      ghost var before := rows;
      var line := Strip(lines[k]);
      if line != [] {
        var cells := LineCells(line);
        if cells != [] {
          rows := rows + [cells];
        }
      }
      assert rows == before + LineRow(lines[k]);
      var next := k + 1;
      RowsFromStep(lines, k, LineRow);
      SplitAppend(before, RowsFrom(lines, k, LineRow), LineRow(lines[k]), RowsFrom(lines, next, LineRow), rows,
                  RowsFrom(lines, 0, LineRow));
      k := next;
    }
    assert rows + [] == rows;
  }

  /** Rows built one line at a time, at most one per line and none empty, are at most as many as the lines and none empty. */
  lemma {:induction false} RowsFromWellFormed(lines: seq<string>, k: nat, rowOf: string -> seq<seq<string>>)
    requires forall l :: |rowOf(l)| <= 1 && [] !in rowOf(l)
    ensures k <= |lines| ==> |RowsFrom(lines, k, rowOf)| <= |lines| - k
    ensures [] !in RowsFrom(lines, k, rowOf)
    decreases |lines| - k
  {
    if k < |lines| {
      RowsFromWellFormed(lines, k + 1, rowOf);
    }
  }

  /** parse_text_table never yields an empty row and never more rows than lines. */
  lemma TableRowsWellFormed(lines: seq<string>)
    ensures |TableRowsOf(lines)| <= |lines|
    ensures forall j :: 0 <= j < |TableRowsOf(lines)| ==> TableRowsOf(lines)[j] != []
  {
    RowsFromWellFormed(lines, 0, LineRow);
  }

  /** A line with a '|' is read as pipe-separated cells: each non-empty and free of '|'. */
  lemma PipeCellsClean(line: string)
    requires '|' in line
    ensures forall k :: 0 <= k < |LineCells(line)| ==>
              LineCells(line)[k] != "" && '|' !in LineCells(line)[k]
  {
    var parts := SplitOn(line, '|');
    var stripped := StripAll(parts);
    forall k | 0 <= k < |stripped| ensures '|' !in stripped[k] {
      var p := parts[k];
      assert stripped[k] == p[StripStart(p)..StripEnd(p)];
      forall m | 0 <= m < |stripped[k]| ensures stripped[k][m] != '|' {
        assert stripped[k][m] == p[StripStart(p) + m];
      }
    }
  }
}
