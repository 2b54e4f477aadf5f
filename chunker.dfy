/**
 * The three text chunkers of the document processor and the dispatch between
 * them: a sliding window with sentence/line snapping and overlap ("general"),
 * an accumulator between legal-section markers ("statute"), and a split on
 * page markers and numbered paragraphs ("letter").
 *
 * Regular-expression splitting is not modelled: the section splitter, the
 * section-marker test and the paragraph splitter are given as functions.
 */
module Chunker {
  import opened Wrappers
  import opened Text

  // ================================================================ general chunking

  /** A sentence end or a line end: the characters a window may be cut after. */
  predicate IsBreak(c: char)
  {
    c == '.' || c == '\n'
  }

  /** `max(w.rfind('.'), w.rfind('\n'))`: the index of the last break in `w`, or -1. */
  function BestBreak(w: string): (b: int)
    ensures -1 <= b < |w|
    ensures b >= 0 ==> IsBreak(w[b])
    ensures forall j :: b < j < |w| ==> !IsBreak(w[j])
  {
    var p, n := RFind(w, '.'), RFind(w, '\n');
    if p >= n then p else n
  }

  /**
   * Where a window that starts at `start` and does not reach the end of the
   * text is cut. The window is `text[start..start + size]`; it is shortened to
   * end just after its last break only when that break's index WITHIN the
   * window exceeds `start + size / 2`, a position counted from the start of
   * the text. So windows are only ever shortened while `start` is small.
   */
  function CutEnd(text: string, size: nat, start: nat): (e: nat)
    requires 1 <= size && start + size < |text|
    ensures start < e <= start + size
    ensures e < start + size ==> IsBreak(text[e - 1]) && 2 * start + size / 2 < e - 1
    ensures forall k :: e <= k < start + size ==> !IsBreak(text[k])
    ensures (exists k :: 2 * start + size / 2 < k < start + size && IsBreak(text[k]))
         ==> IsBreak(text[e - 1]) && 2 * start + size / 2 < e - 1
    ensures e < start + size ==> start + size / 2 + 1 < size
  {
    var w := text[start..start + size];
    var b := BestBreak(w);
    assert forall k :: start <= k < start + size ==> w[k - start] == text[k];
    if b > start + size / 2 then start + b + 1 else start + size
  }

  /** The chunk sizes and overlaps for which the loop as written stops on every text. */
  predicate ValidWindow(size: nat, overlap: nat)
  {
    1 <= size && overlap < size && overlap <= size / 2 + 1
  }

  /**
   * The start of the next window: `end - overlap` as in the source, except that
   * it moves on to `end` where the overlap would not leave `start` behind.
   */
  function Advance(start: nat, end: nat, overlap: nat): (next: nat)
    requires start < end
    ensures start < next <= end
    ensures next == end - overlap || next == end
    ensures end - overlap > start ==> next == end - overlap
  {
    if end - overlap > start then end - overlap else end
  }

  /** `CutEnd` is the cut the source's loop body computes from the window's best break. */
  lemma CutEndIs(text: string, size: nat, start: nat, b: int)
    requires 1 <= size && start + size < |text| && b == BestBreak(text[start..start + size])
    ensures CutEnd(text, size, start) == if b > start + size / 2 then start + b + 1 else start + size
  {
  }

  /** Under `ValidWindow` the correction in `Advance` never applies. */
  lemma ValidWindowAdvances(text: string, size: nat, overlap: nat, start: nat)
    requires ValidWindow(size, overlap) && start + size < |text|
    ensures Advance(start, CutEnd(text, size, start), overlap) == CutEnd(text, size, start) - overlap
  {
  }

  /** A window `text[lo..hi]`. */
  datatype Span = Span(lo: nat, hi: nat)

  /**
   * The windows of the general chunker from `start` on: each at most `size`
   * long, each non-final one cut by `CutEnd` and followed by one starting at
   * `Advance`, the final one running to the end of the text.
   */
  function Spans(text: string, size: nat, overlap: nat, start: nat): (r: seq<Span>)
    requires 1 <= size && start < |text|
    ensures |r| >= 1 && r[0].lo == start
    decreases |text| - start
  {
    if start + size >= |text| then [Span(start, |text|)]
    else
      var e := CutEnd(text, size, start);
      [Span(start, e)] + Spans(text, size, overlap, Advance(start, e, overlap))
  }

  /**
   * Windows that tile `text`: each non-empty and at most `size` long, starting
   * strictly after the previous one starts and no later than it ends, every
   * one but the last ending before the end of the text with room for a full
   * window, the last one running to the end.
   */
  ghost predicate Tiling(text: string, size: nat, r: seq<Span>)
  {
    && |r| >= 1
    && r[|r| - 1].hi == |text| && r[|r| - 1].lo + size >= |text|
    && (forall k :: 0 <= k < |r| ==> r[k].lo < r[k].hi <= r[k].lo + size && r[k].hi <= |text|)
    && (forall k :: 0 <= k < |r| - 1 ==> r[k].lo + size < |text|)
    && (forall j, k :: 0 <= j < k < |r| ==> r[j].lo < r[k].lo)
    && Chained(r, |text|)
  }

  /** The windows of the general chunker tile the text from `start` on. */
  lemma {:induction false} SpansTile(text: string, size: nat, overlap: nat, start: nat)
    requires 1 <= size && start < |text|
    ensures Tiling(text, size, Spans(text, size, overlap, start))
    decreases |text| - start
  {
    if start + size < |text| {
      var e := CutEnd(text, size, start);
      var n := Advance(start, e, overlap);
      SpansTile(text, size, overlap, n);
      TilingCons(text, size, Span(start, e), Spans(text, size, overlap, n));
    }
  }

  /** A window placed in front of a tiling, ending no earlier than the tiling starts, extends it. */
  lemma TilingCons(text: string, size: nat, s: Span, rest: seq<Span>)
    requires Tiling(text, size, rest)
    requires s.lo < s.hi <= s.lo + size && s.lo + size < |text|
    requires s.lo < rest[0].lo <= s.hi
    ensures Tiling(text, size, [s] + rest)
  {
    var r := [s] + rest;
    assert forall k :: 1 <= k < |r| ==> r[k] == rest[k - 1];
  }

  /** Each non-final window is cut by `CutEnd` and the next one starts at `Advance`. */
  lemma {:induction false} SpansStep(text: string, size: nat, overlap: nat, start: nat, k: nat)
    requires 1 <= size && start < |text|
    requires Tiling(text, size, Spans(text, size, overlap, start))
    requires k + 1 < |Spans(text, size, overlap, start)|
    ensures var r := Spans(text, size, overlap, start);
      r[k].hi == CutEnd(text, size, r[k].lo) && r[k + 1].lo == Advance(r[k].lo, r[k].hi, overlap)
    decreases |text| - start
  {
    var r := Spans(text, size, overlap, start);
    var e := CutEnd(text, size, start);
    var n := Advance(start, e, overlap);
    assert r == [Span(start, e)] + Spans(text, size, overlap, n);
    if k > 0 {
      SpansTile(text, size, overlap, n);
      SpansStep(text, size, overlap, n, k - 1);
    }
  }

  /**
   * Windows in which each one starts no later than the previous one ends and
   * the last one ends at `n`.
   */
  ghost predicate Chained(r: seq<Span>, n: nat)
  {
    && |r| >= 1
    && r[|r| - 1].hi == n
    && forall j, k :: 0 <= j < k < |r| && k == j + 1 ==> r[k].lo <= r[j].hi
  }

  /** Chained windows cover every position from the start of any one of them to `n`. */
  lemma {:induction false} ChainedCover(r: seq<Span>, n: nat, k: nat, i: nat)
    requires Chained(r, n) && k < |r| && r[k].lo <= i < n
    ensures exists j :: 0 <= j < |r| && r[j].lo <= i < r[j].hi
    decreases |r| - k
  {
    if r[k].hi <= i {
      assert r[k + 1].lo <= r[k].hi;
      ChainedCover(r, n, k + 1, i);
    }
  }

  /** The text of each window. */
  function Slices(text: string, spans: seq<Span>): (r: seq<string>)
    requires forall k :: 0 <= k < |spans| ==> spans[k].lo <= spans[k].hi <= |text|
    ensures |r| == |spans|
    ensures forall k :: 0 <= k < |r| ==> r[k] == text[spans[k].lo..spans[k].hi]
  {
    seq(|spans|, k requires 0 <= k < |spans| => text[spans[k].lo..spans[k].hi])
  }

  /** The raw chunks of a text longer than `size`: the text of each window. */
  function Pieces(text: string, size: nat, overlap: nat): (r: seq<string>)
    requires 1 <= size < |text|
    ensures |r| == |Spans(text, size, overlap, 0)|
  {
    SpansTile(text, size, overlap, 0);
    Slices(text, Spans(text, size, overlap, 0))
  }

  /** Each raw chunk is the text of its window, and no longer than `size`. */
  lemma PieceIs(text: string, size: nat, overlap: nat, k: nat)
    requires 1 <= size < |text| && k < |Spans(text, size, overlap, 0)|
    ensures var w := Spans(text, size, overlap, 0)[k];
      w.lo < w.hi <= |text| && Pieces(text, size, overlap)[k] == text[w.lo..w.hi] && w.hi - w.lo <= size
  {
    SpansTile(text, size, overlap, 0);
  }

  /** `[c.strip() for c in raw if c.strip()]`: the pieces stripped, blank ones dropped. */
  function Clean(raw: seq<string>): (r: seq<string>)
    ensures |r| <= |raw|
    ensures forall k :: 0 <= k < |r| ==> r[k] != [] && IsTrimmed(r[k])
  {
    if raw == [] then []
    else (if Strip(raw[0]) == [] then [] else [Strip(raw[0])]) + Clean(raw[1..])
  }

  /** Cleaning keeps the stripped form of every piece that is not blank. */
  lemma {:induction false} CleanKeeps(raw: seq<string>, j: nat)
    requires j < |raw| && !IsBlank(raw[j])
    ensures Strip(raw[j]) in Clean(raw)
  {
    if j > 0 {
      CleanKeeps(raw[1..], j - 1);
      assert raw[1..][j - 1] == raw[j];
    }
  }

  /** Stripping never lengthens a piece, so cleaning keeps a bound on the pieces' lengths. */
  lemma {:induction false} CleanWithin(raw: seq<string>, n: nat)
    requires forall j :: 0 <= j < |raw| ==> |raw[j]| <= n
    ensures forall k :: 0 <= k < |Clean(raw)| ==> |Clean(raw)[k]| <= n
  {
    if raw != [] {
      CleanWithin(raw[1..], n);
      assert |Strip(raw[0])| <= |raw[0]|;
    }
  }

  /**
   * The general chunker. A text no longer than `size` is returned whole and
   * unstripped (so "" gives [""]); a longer one is cut into windows, which are
   * stripped, blank ones dropped.
   */
  function GeneralChunks(text: string, size: nat, overlap: nat): (r: seq<string>)
    requires 1 <= size
    ensures |text| <= size ==> r == [text]
    ensures forall k :: 0 <= k < |r| ==> |r[k]| <= size
    ensures |text| > size ==> forall k :: 0 <= k < |r| ==> r[k] != [] && IsTrimmed(r[k])
  {
    if |text| <= size then [text]
    else
      var raw := Pieces(text, size, overlap);
      assert forall k :: 0 <= k < |raw| ==> |raw[k]| <= size by {
        forall k | 0 <= k < |raw| ensures |raw[k]| <= size {
          PieceIs(text, size, overlap, k);
        }
      }
      CleanWithin(raw, size);
      Clean(raw)
  }

  /** `sub` occurs in `text` at a position that includes index `i`. */
  ghost predicate HoldsAt(text: string, sub: string, i: int)
  {
    exists a :: a <= i < a + |sub| && OccursAt(text, sub, a)
  }

  /** A slice holding a character that is not whitespace is not blank, and that character survives stripping. */
  lemma PieceKeeps(text: string, lo: nat, hi: nat, i: nat)
    requires lo <= i < hi <= |text| && !IsSpace(text[i])
    ensures !IsBlank(text[lo..hi])
    ensures HoldsAt(text, Strip(text[lo..hi]), i)
  {
    var s := text[lo..hi];
    assert s[i - lo] == text[i];
    var c := Strip(s);
    var n := LeadingSpaces(s);
    assert n <= i - lo < n + |c|;
    assert forall x :: 0 <= x < |c| ==> text[lo + n + x] == s[n + x] == c[x];
    assert text[lo + n..lo + n + |c|] == c;
    assert OccursAt(text, c, lo + n);
  }

  /** Some window of a text longer than `size` holds position `i`. */
  lemma WindowHolds(text: string, size: nat, overlap: nat, i: nat)
    requires 1 <= size && i < |text|
    ensures exists j :: 0 <= j < |Spans(text, size, overlap, 0)|
                     && Spans(text, size, overlap, 0)[j].lo <= i < Spans(text, size, overlap, 0)[j].hi
  {
    SpansTile(text, size, overlap, 0);
    ChainedCover(Spans(text, size, overlap, 0), |text|, 0, i);
  }

  /**
   * Chunking loses nothing but whitespace: every other character of the text
   * lies inside some chunk, at its own position in the text.
   */
  lemma GeneralChunksCover(text: string, size: nat, overlap: nat, i: nat)
    requires 1 <= size && i < |text| && !IsSpace(text[i])
    ensures exists k :: 0 <= k < |GeneralChunks(text, size, overlap)|
                     && HoldsAt(text, GeneralChunks(text, size, overlap)[k], i)
  {
    var r := GeneralChunks(text, size, overlap);
    if |text| <= size {
      assert text[0..|text|] == text;
      assert OccursAt(text, r[0], 0);
    } else {
      var spans := Spans(text, size, overlap, 0);
      var raw := Pieces(text, size, overlap);
      WindowHolds(text, size, overlap, i);
      var j :| 0 <= j < |spans| && spans[j].lo <= i < spans[j].hi;
      PieceIs(text, size, overlap, j);
      PieceKeeps(text, spans[j].lo, spans[j].hi, i);
      CleanKeeps(raw, j);
      var k :| 0 <= k < |r| && r[k] == Strip(raw[j]);
    }
  }

  /** In a tiling, the window that reaches the end of the text is the last one. */
  lemma TilingLast(text: string, size: nat, r: seq<Span>, k: nat)
    requires Tiling(text, size, r) && k < |r| && r[k].lo + size >= |text|
    ensures k == |r| - 1 && r[k].hi == |text|
  {
  }

  /** In a tiling, a window that does not reach the end is not the last one. */
  lemma TilingNotLast(text: string, size: nat, r: seq<Span>, k: nat)
    requires Tiling(text, size, r) && k < |r| && r[k].lo + size < |text|
    ensures k + 1 < |r|
  {
  }

  /** A sequence is its prefix followed by its last element. */
  lemma SplitLast<T>(s: seq<T>, k: nat)
    requires k + 1 == |s|
    ensures s == s[..k] + [s[k]]
  {
  }

  /** A prefix one longer is the shorter prefix followed by one more element. */
  lemma PrefixNext<T>(s: seq<T>, k: nat)
    requires k < |s|
    ensures s[..k + 1] == s[..k] + [s[k]]
  {
  }

  /** The window that reaches the end of the text is the last one. */
  lemma WindowLast(text: string, size: nat, overlap: nat, k: nat)
    requires 1 <= size < |text|
    requires k < |Spans(text, size, overlap, 0)| && Spans(text, size, overlap, 0)[k].lo + size >= |text|
    ensures k == |Spans(text, size, overlap, 0)| - 1 && Spans(text, size, overlap, 0)[k].lo < |text|
    ensures var all := Pieces(text, size, overlap);
      all == all[..k] + [text[Spans(text, size, overlap, 0)[k].lo..]]
  {
    var spans := Spans(text, size, overlap, 0);
    SpansTile(text, size, overlap, 0);
    TilingLast(text, size, spans, k);
    PieceIs(text, size, overlap, k);
    var all := Pieces(text, size, overlap);
    var lo, hi := spans[k].lo, spans[k].hi;
    assert all[k] == text[lo..hi] && hi == |text|;
    assert text[lo..hi] == text[lo..];
    SplitLast(all, k);
  }

  /** A window that does not reach the end is cut by `CutEnd` and followed by one at `Advance`. */
  lemma WindowNext(text: string, size: nat, overlap: nat, k: nat)
    requires 1 <= size < |text|
    requires k < |Spans(text, size, overlap, 0)| && Spans(text, size, overlap, 0)[k].lo + size < |text|
    ensures var spans := Spans(text, size, overlap, 0); var all := Pieces(text, size, overlap);
      var e := CutEnd(text, size, spans[k].lo);
      k + 1 < |spans| && spans[k + 1].lo == Advance(spans[k].lo, e, overlap)
      && all[..k + 1] == all[..k] + [text[spans[k].lo..e]]
  {
    var spans := Spans(text, size, overlap, 0);
    SpansTile(text, size, overlap, 0);
    TilingNotLast(text, size, spans, k);
    SpansStep(text, size, overlap, 0, k);
    PieceIs(text, size, overlap, k);
    PrefixNext(Pieces(text, size, overlap), k);
  }

  /**
   * The end of the window at `start`, as the loop body computes it: just
   * after the window's last break when that break lies far enough along.
   */
  method CutWindow(text: string, size: nat, start: nat) returns (end: nat)
    requires 1 <= size && start + size < |text|
    ensures end == CutEnd(text, size, start)
  {
    end := start + size;
    var b := BestBreak(text[start..end]);
    CutEndIs(text, size, start, b);
    if b > start + size / 2 {
      end := start + b + 1;
    }
  }

  /**
   * The general chunker's loop: windows are sliced off one by one, then
   * stripped and filtered.
   */
  method ChunkGeneral(text: string, size: nat, overlap: nat) returns (chunks: seq<string>)
    requires 1 <= size
    ensures chunks == GeneralChunks(text, size, overlap)
  {
    if |text| <= size {
      return [text];
    }
    ghost var spans := Spans(text, size, overlap, 0);
    ghost var all := Pieces(text, size, overlap);
    ghost var k := 0;
    var raw: seq<string> := [];
    var start: nat := 0;
    while start < |text|
      invariant start <= |text|
      invariant start < |text| ==> k < |spans| && start == spans[k].lo && raw == all[..k]
      invariant start == |text| ==> raw == all
      decreases |text| - start
    {
      var end := start + size;
      if end >= |text| {
        WindowLast(text, size, overlap, k);
        raw := raw + [text[start..]];
        break;
      }
      end := CutWindow(text, size, start);
      WindowNext(text, size, overlap, k);
      assert raw + [text[start..end]] == all[..k + 1];
      raw := raw + [text[start..end]];
      start := Advance(start, end, overlap);
      k := k + 1;
    }
    chunks := Clean(raw);
  }

  // ================================================================ the loop as written

  /** What one pass of the source's loop body does: stop with the tail, or cut a chunk and move `start`. */
  datatype Pass = Last(tail: string) | Cut(chunk: string, next: int)

  /**
   * One pass of the source's loop body exactly as written, on unbounded
   * integers with Python's slicing, from any integer `start` (negative
   * included) and with `end - overlap` as the next start.
   */
  function PassAsWritten(text: string, size: int, overlap: int, start: int): (p: Pass)
    ensures p.Cut? ==> start + size < |text|
    ensures p.Cut? && 0 <= size ==> p.next <= start + size - overlap
  {
    var end := start + size;
    if end >= |text| then Last(PySlice(text, start, |text|))
    else
      var b := BestBreak(PySlice(text, start, end));
      var cut := if b > start + size / 2 then start + b + 1 else end;
      Cut(PySlice(text, start, cut), cut - overlap)
  }

  /** The loop's condition and one pass: the next value of `start`, or `None` once the loop stops. */
  function NextAsWritten(text: string, size: int, overlap: int, start: int): Option<int>
  {
    if start >= |text| then None
    else match PassAsWritten(text, size, overlap, start)
      case Last(_) => None
      case Cut(_, next) => Some(next)
  }

  /** `NextAsWritten` as a function value. */
  function AsWrittenStep(text: string, size: int, overlap: int): int -> Option<int>
  {
    s => NextAsWritten(text, size, overlap, s)
  }

  /** The value after `n` rounds of `next` from `start0`, or `None` once a round stops. */
  function Iterate(next: int -> Option<int>, start0: int, n: nat): Option<int>
  {
    if n == 0 then Some(start0)
    else match Iterate(next, start0, n - 1)
      case None => None
      case Some(s) => next(s)
  }

  /**
   * The value of `start` after `n` passes of the source's loop, or `None` once
   * the loop has stopped, by its condition or through the tail branch.
   */
  function StartAfter(text: string, size: int, overlap: int, n: nat): Option<int>
  {
    Iterate(AsWrittenStep(text, size, overlap), 0, n)
  }

  /** A round that never moves up from a non-positive value keeps the value non-positive for ever. */
  lemma {:induction false} IterateStaysNonPositive(next: int -> Option<int>, n: nat)
    requires forall s :: s <= 0 ==> next(s).Some? && next(s).value <= s
    ensures Iterate(next, 0, n).Some? && Iterate(next, 0, n).value <= 0
  {
    if n > 0 {
      IterateStaysNonPositive(next, n - 1);
    }
  }

  /** A round that maps 0 to itself repeats for ever. */
  lemma {:induction false} IterateStalls(next: int -> Option<int>, n: nat)
    requires next(0) == Some(0)
    ensures Iterate(next, 0, n) == Some(0)
  {
    if n > 0 {
      IterateStalls(next, n - 1);
    }
  }

  /**
   * With an overlap at least as large as the chunk size (the settings accept a
   * chunk size of 100 with an overlap of 500), a text longer than the chunk
   * size is never finished: `start` never rises above 0, so no pass reaches
   * the end of the text.
   */
  lemma AsWrittenNeverEnds(text: string, size: int, overlap: int, n: nat)
    requires 0 <= size <= overlap && |text| > size
    ensures StartAfter(text, size, overlap, n).Some?
    ensures StartAfter(text, size, overlap, n).value <= 0
  {
    var next := AsWrittenStep(text, size, overlap);
    forall s | s <= 0 ensures next(s).Some? && next(s).value <= s {
      var p := PassAsWritten(text, size, overlap, s);
      assert p.Cut?;
    }
    IterateStaysNonPositive(next, n);
  }

  /**
   * The overlap bound `overlap < size` is not enough either: with size 10 and
   * overlap 7, a window of "aaaaaa.aaaaa" snaps after its '.', and the next
   * start is 0 again.
   */
  lemma AsWrittenStalls(n: nat)
    ensures StartAfter("aaaaaa.aaaaa", 10, 7, n) == Some(0)
  {
    var text := "aaaaaa.aaaaa";
    var w := text[0..10];
    assert PySlice(text, 0, 10) == w;
    assert RFind(w, '.') == 6 by {
      assert w[6] == '.' && w[7] != '.' && w[8] != '.' && w[9] != '.';
    }
    assert RFind(w, '\n') == -1 by {
      assert forall j :: 0 <= j < 10 ==> w[j] != '\n';
    }
    assert NextAsWritten(text, 10, 7, 0) == Some(0);
    IterateStalls(AsWrittenStep(text, 10, 7), n);
  }

  /**
   * The correction in `Advance` also changes runs that finish. With size 10
   * and overlap 8, the first window of "aaaaaa.aaaaaaaaaaaaa" snaps after its
   * '.' at 7. As written, `start` becomes -1: the pass cuts the empty chunk
   * `text[-1:9]`, and the loop goes on from 1, cutting `text[1:11]` again over
   * text already chunked. The corrected loop goes on from 7.
   */
  lemma AsWrittenRepeats()
    ensures StartAfter("aaaaaa.aaaaaaaaaaaaa", 10, 8, 1) == Some(-1)
    ensures PassAsWritten("aaaaaa.aaaaaaaaaaaaa", 10, 8, -1) == Cut([], 1)
    ensures StartAfter("aaaaaa.aaaaaaaaaaaaa", 10, 8, 2) == Some(1)
    ensures Spans("aaaaaa.aaaaaaaaaaaaa", 10, 8, 0)[..2] == [Span(0, 7), Span(7, 17)]
  {
    var text := "aaaaaa.aaaaaaaaaaaaa";
    RepeatsFirstPass(text);
    RepeatsSecondPass(text);
    RepeatsCorrected(text);
    var next := AsWrittenStep(text, 10, 8);
    assert Iterate(next, 0, 1) == next(0);
    assert Iterate(next, 0, 2) == next(-1);
  }

  /** The first pass over the text of `AsWrittenRepeats` snaps after the '.' and moves `start` to -1. */
  lemma RepeatsFirstPass(text: string)
    requires text == "aaaaaa.aaaaaaaaaaaaa"
    ensures NextAsWritten(text, 10, 8, 0) == Some(-1)
  {
    var w := text[0..10];
    assert PySlice(text, 0, 10) == w;
    assert RFind(w, '.') == 6 by {
      assert w[6] == '.' && w[7] != '.' && w[8] != '.' && w[9] != '.';
    }
    assert RFind(w, '\n') == -1 by {
      assert forall j :: 0 <= j < 10 ==> w[j] != '\n';
    }
  }

  /** The second pass cuts the empty slice `text[-1:9]` and moves `start` to 1. */
  lemma RepeatsSecondPass(text: string)
    requires text == "aaaaaa.aaaaaaaaaaaaa"
    ensures PassAsWritten(text, 10, 8, -1) == Cut([], 1)
    ensures NextAsWritten(text, 10, 8, -1) == Some(1)
  {
    assert PySlice(text, -1, 9) == [];
    assert RFind([], '.') == -1 && RFind([], '\n') == -1;
  }

  /** The corrected loop's second window starts where the first one was cut. */
  lemma RepeatsCorrected(text: string)
    requires text == "aaaaaa.aaaaaaaaaaaaa"
    ensures Spans(text, 10, 8, 0)[..2] == [Span(0, 7), Span(7, 17)]
  {
    RepeatsFirstCut(text);
    RepeatsSecondCut(text);
  }

  /** The corrected loop cuts the first window after the '.'. */
  lemma RepeatsFirstCut(text: string)
    requires text == "aaaaaa.aaaaaaaaaaaaa"
    ensures CutEnd(text, 10, 0) == 7
  {
    var w := text[0..10];
    assert RFind(w, '.') == 6 by {
      assert w[6] == '.' && w[7] != '.' && w[8] != '.' && w[9] != '.';
    }
    assert RFind(w, '\n') == -1 by {
      assert forall j :: 0 <= j < 10 ==> w[j] != '\n';
    }
  }

  /** The window from 7 holds no break and is cut at full length. */
  lemma RepeatsSecondCut(text: string)
    requires text == "aaaaaa.aaaaaaaaaaaaa"
    ensures CutEnd(text, 10, 7) == 17
  {
    var v := text[7..17];
    assert RFind(v, '.') == -1 by {
      assert forall j :: 0 <= j < 10 ==> v[j] != '.';
    }
    assert RFind(v, '\n') == -1 by {
      assert forall j :: 0 <= j < 10 ==> v[j] != '\n';
    }
  }

  /**
   * Under `ValidWindow`, a pass from a start inside the text ends the loop when
   * the window reaches the end, and otherwise moves on by `Advance` from `CutEnd`.
   */
  lemma NextFollowsCut(text: string, size: nat, overlap: nat, start: nat)
    requires ValidWindow(size, overlap) && start < |text|
    ensures start + size >= |text| ==> NextAsWritten(text, size, overlap, start) == None
    ensures start + size < |text| ==>
      NextAsWritten(text, size, overlap, start) == Some(Advance(start, CutEnd(text, size, start), overlap))
  {
    if start + size < |text| {
      PassFollowsCut(text, size, overlap, start);
      ValidWindowAdvances(text, size, overlap, start);
    }
  }

  /** A pass from inside the text that does not reach its end cuts at `CutEnd`. */
  lemma PassFollowsCut(text: string, size: nat, overlap: nat, start: nat)
    requires 1 <= size && start + size < |text|
    ensures PassAsWritten(text, size, overlap, start)
         == Cut(text[start..CutEnd(text, size, start)], CutEnd(text, size, start) - overlap)
  {
    CutEndIs(text, size, start, BestBreak(text[start..start + size]));
    PassCuts(text, size, overlap, start, CutEnd(text, size, start));
  }

  /** A pass from inside the text that does not reach its end, with its cut written out. */
  lemma PassCuts(text: string, size: nat, overlap: nat, start: nat, e: nat)
    requires 1 <= size && start + size < |text|
    requires var b := BestBreak(text[start..start + size]);
      e == if b > start + size / 2 then start + b + 1 else start + size
    ensures start < e <= |text|
    ensures PassAsWritten(text, size, overlap, start) == Cut(text[start..e], e - overlap)
  {
    assert PySlice(text, start, start + size) == text[start..start + size];
    PassCutsAt(text, size, overlap, start, e);
  }

  /** The cut pass in the source's own slicing terms, before slices are simplified. */
  lemma PassCutsAt(text: string, size: nat, overlap: nat, start: nat, e: nat)
    requires 1 <= size && start + size < |text|
    requires var b := BestBreak(PySlice(text, start, start + size));
      e == if b > start + size / 2 then start + b + 1 else start + size
    ensures PassAsWritten(text, size, overlap, start) == Cut(PySlice(text, start, e), e - overlap)
  {
  }

  /**
   * `next` walks through `starts` one element per round and stops after the
   * last one.
   */
  ghost predicate Follows(next: int -> Option<int>, starts: seq<int>)
  {
    && |starts| >= 1
    && next(starts[|starts| - 1]) == None
    && forall j, k :: 0 <= j < k < |starts| && k == j + 1 ==> next(starts[j]) == Some(starts[k])
  }

  /** Iterating a round that follows `starts` visits them in order, then stops. */
  lemma {:induction false} IterateFollows(next: int -> Option<int>, starts: seq<int>, n: nat)
    requires Follows(next, starts)
    ensures n < |starts| ==> Iterate(next, starts[0], n) == Some(starts[n])
    ensures n >= |starts| ==> Iterate(next, starts[0], n) == None
  {
    if n > 0 {
      IterateFollows(next, starts, n - 1);
      if n < |starts| {
        assert next(starts[n - 1]) == Some(starts[n]);
      }
    }
  }

  /**
   * Where the settings satisfy `ValidWindow`, the source's passes are exactly
   * the windows of `Spans`: pass `n` starts at the `n`-th window, and the loop
   * stops right after the last one.
   */
  lemma AsWrittenFollowsSpans(text: string, size: nat, overlap: nat, n: nat)
    requires ValidWindow(size, overlap) && |text| > size
    ensures var r := Spans(text, size, overlap, 0);
      (n < |r| ==> StartAfter(text, size, overlap, n) == Some(r[n].lo))
      && (n >= |r| ==> StartAfter(text, size, overlap, n) == None)
  {
    var r := Spans(text, size, overlap, 0);
    SpansTile(text, size, overlap, 0);
    var next := AsWrittenStep(text, size, overlap);
    var starts := seq(|r|, j requires 0 <= j < |r| => r[j].lo);
    forall j, k | 0 <= j < k < |starts| && k == j + 1 ensures next(starts[j]) == Some(starts[k]) {
      NextFollowsCut(text, size, overlap, r[j].lo);
      SpansStep(text, size, overlap, 0, j);
    }
    NextFollowsCut(text, size, overlap, r[|r| - 1].lo);
    IterateFollows(next, starts, n);
  }

  // ================================================================ legal chunking

  /** The legal chunker's state: the chunks emitted so far and the accumulator. */
  datatype Acc = Acc(chunks: seq<string>, current: string)

  /** Every chunk is already stripped. */
  predicate AllTrimmed(chunks: seq<string>)
  {
    forall k :: 0 <= k < |chunks| ==> IsTrimmed(chunks[k])
  }

  /** `[c for c in chunks if c.strip()]`. */
  function KeepNonBlank(chunks: seq<string>): (r: seq<string>)
    ensures |r| <= |chunks|
    ensures forall k :: 0 <= k < |r| ==> !IsBlank(r[k])
  {
    if chunks == [] then []
    else (if IsBlank(chunks[0]) then [] else [chunks[0]]) + KeepNonBlank(chunks[1..])
  }

  /** Filtering keeps every chunk that is not blank, in order, and nothing else. */
  lemma {:induction false} KeepNonBlankKeeps(chunks: seq<string>)
    ensures forall c :: c in KeepNonBlank(chunks) <==> c in chunks && !IsBlank(c)
  {
    if chunks != [] {
      KeepNonBlankKeeps(chunks[1..]);
      assert chunks == [chunks[0]] + chunks[1..];
    }
  }

  /**
   * One pass of the legal chunker's loop over a section. A marker flushes a
   * non-empty accumulator, stripped, and starts a new one as the marker and a
   * space. Other text is appended to the accumulator; once that is longer than
   * twice the chunk size, it is chunked by the general chunker, all chunks but
   * the last are emitted and the last one (or "" when there is none) becomes
   * the accumulator.
   */
  function LegalStep(acc: Acc, section: string, isMarker: string -> bool, size: nat, overlap: nat): (a: Acc)
    requires 1 <= size
    ensures |acc.chunks| <= |a.chunks| && a.chunks[..|acc.chunks|] == acc.chunks
    ensures isMarker(section) ==> a.current == section + " "
    ensures isMarker(section) ==> a.chunks == acc.chunks + (if acc.current != [] then [Strip(acc.current)] else [])
    ensures !isMarker(section) && |acc.current + section| <= 2 * size ==> a == Acc(acc.chunks, acc.current + section)
    ensures !isMarker(section) && |acc.current + section| > 2 * size
      ==> var sub := GeneralChunks(acc.current + section, size, overlap);
          if sub == [] then a == Acc(acc.chunks, []) else a.chunks + [a.current] == acc.chunks + sub
    ensures !isMarker(section) ==> |a.current| <= 2 * size
    ensures AllTrimmed(acc.chunks) ==> AllTrimmed(a.chunks)
  {
    if isMarker(section) then
      Acc(acc.chunks + (if acc.current != [] then [Strip(acc.current)] else []), section + " ")
    else
      var cur := acc.current + section;
      if |cur| <= 2 * size then Acc(acc.chunks, cur)
      else
        var sub := GeneralChunks(cur, size, overlap);
        if sub == [] then Acc(acc.chunks, [])
        else
          assert sub[..|sub| - 1] + [sub[|sub| - 1]] == sub;
          Acc(acc.chunks + sub[..|sub| - 1], sub[|sub| - 1])
  }

  /** Character `c` lies in one of `chunks`. */
  predicate Shown(chunks: seq<string>, c: char)
  {
    exists k :: 0 <= k < |chunks| && c in chunks[k]
  }

  /** Character `c` lies in an emitted chunk or in the accumulator. */
  predicate Keeps(a: Acc, c: char)
  {
    Shown(a.chunks, c) || c in a.current
  }

  /** Stripping keeps every character that is not whitespace. */
  lemma StripKeeps(s: string, i: nat)
    requires i < |s| && !IsSpace(s[i])
    ensures s[i] in Strip(s)
  {
    var n := LeadingSpaces(s);
    var r := Strip(s);
    assert forall j :: n + |r| <= j < |s| ==> IsSpace(s[j]) by {
      forall j | n + |r| <= j < |s| ensures IsSpace(s[j]) {
        assert s[n + |r|..][j - n - |r|] == s[j];
      }
    }
    assert n <= i < n + |r|;
    assert r[i - n] == s[i];
  }

  /** The general chunker keeps every character that is not whitespace. */
  lemma GeneralChunksShow(text: string, size: nat, overlap: nat, i: nat)
    requires 1 <= size && i < |text| && !IsSpace(text[i])
    ensures Shown(GeneralChunks(text, size, overlap), text[i])
  {
    GeneralChunksCover(text, size, overlap, i);
    var r := GeneralChunks(text, size, overlap);
    var k :| 0 <= k < |r| && HoldsAt(text, r[k], i);
    var a :| a <= i < a + |r[k]| && OccursAt(text, r[k], a);
    assert text[a..a + |r[k]|][i - a] == text[i];
  }

  /** A chunk already emitted stays emitted: later passes only append. */
  lemma ShownPrefix(before: seq<string>, after: seq<string>, c: char)
    requires Shown(before, c) && |before| <= |after| && after[..|before|] == before
    ensures Shown(after, c)
  {
    var k :| 0 <= k < |before| && c in before[k];
    assert after[k] == after[..|before|][k];
  }

  /**
   * One pass loses no character that is not whitespace: what the chunks or
   * the accumulator held, and every character of the section, is afterwards
   * in the chunks or the accumulator.
   */
  lemma LegalStepKeeps(acc: Acc, section: string, isMarker: string -> bool, size: nat, overlap: nat, c: char)
    requires 1 <= size && !IsSpace(c) && (Keeps(acc, c) || c in section)
    ensures Keeps(LegalStep(acc, section, isMarker, size, overlap), c)
  {
    var a := LegalStep(acc, section, isMarker, size, overlap);
    if Shown(acc.chunks, c) {
      ShownPrefix(acc.chunks, a.chunks, c);
    } else if isMarker(section) {
      if c in acc.current {
        var p :| 0 <= p < |acc.current| && acc.current[p] == c;
        StripKeeps(acc.current, p);
        assert a.chunks[|acc.chunks|] == Strip(acc.current);
      } else {
        assert c in section + " ";
      }
    } else {
      var cur := acc.current + section;
      assert c in cur;
      if |cur| > 2 * size {
        var p :| 0 <= p < |cur| && cur[p] == c;
        var sub := GeneralChunks(cur, size, overlap);
        GeneralChunksShow(cur, size, overlap, p);
        var k :| 0 <= k < |sub| && c in sub[k];
        if k < |sub| - 1 {
          assert a.chunks == acc.chunks + sub[..|sub| - 1];
          assert a.chunks[|acc.chunks| + k] == sub[k];
        }
      }
    }
  }

  /** The state after the loop has run over `sections`. */
  function LegalFold(sections: seq<string>, isMarker: string -> bool, size: nat, overlap: nat): (a: Acc)
    requires 1 <= size
    ensures sections != [] && !isMarker(sections[|sections| - 1]) ==> |a.current| <= 2 * size
    ensures sections != [] && isMarker(sections[|sections| - 1]) ==> a.current == sections[|sections| - 1] + " "
  {
    if sections == [] then Acc([], [])
    else LegalStep(LegalFold(sections[..|sections| - 1], isMarker, size, overlap), sections[|sections| - 1], isMarker, size, overlap)
  }

  /** Every chunk the loop emits is already stripped. */
  lemma {:induction false} LegalFoldTrimmed(sections: seq<string>, isMarker: string -> bool, size: nat, overlap: nat)
    requires 1 <= size
    ensures AllTrimmed(LegalFold(sections, isMarker, size, overlap).chunks)
  {
    if sections != [] {
      LegalFoldTrimmed(sections[..|sections| - 1], isMarker, size, overlap);
    }
  }

  /** The loop's chunks followed by the stripped final accumulator, if any. */
  function LegalFlush(a: Acc): (r: seq<string>)
    ensures |r| == |a.chunks| + (if a.current != [] then 1 else 0)
    ensures r[..|a.chunks|] == a.chunks
  {
    a.chunks + (if a.current != [] then [Strip(a.current)] else [])
  }

  /**
   * The legal chunker over the sections the section pattern splits the text
   * into: every chunk is non-empty and stripped.
   */
  function LegalChunks(sections: seq<string>, isMarker: string -> bool, size: nat, overlap: nat): (r: seq<string>)
    requires 1 <= size
    ensures forall k :: 0 <= k < |r| ==> r[k] != [] && IsTrimmed(r[k])
  {
    var a := LegalFold(sections, isMarker, size, overlap);
    var flushed := LegalFlush(a);
    LegalFoldTrimmed(sections, isMarker, size, overlap);
    assert forall k :: 0 <= k < |flushed| ==> IsTrimmed(flushed[k]) by {
      forall k | 0 <= k < |flushed| ensures IsTrimmed(flushed[k]) {
        if k < |a.chunks| {
          assert flushed[k] == flushed[..|a.chunks|][k];
        }
      }
    }
    KeepNonBlankKeeps(flushed);
    var r := KeepNonBlank(flushed);
    assert forall k :: 0 <= k < |r| ==> r[k] in flushed;
    r
  }

  /** After the loop, every character of every section that is not whitespace is in the chunks or the accumulator. */
  lemma {:induction false} LegalFoldKeeps(sections: seq<string>, isMarker: string -> bool, size: nat, overlap: nat, j: nat, i: nat)
    requires 1 <= size && j < |sections| && i < |sections[j]| && !IsSpace(sections[j][i])
    ensures Keeps(LegalFold(sections, isMarker, size, overlap), sections[j][i])
  {
    var n := |sections| - 1;
    var c := sections[j][i];
    var prev := LegalFold(sections[..n], isMarker, size, overlap);
    if j < n {
      assert sections[..n][j] == sections[j];
      LegalFoldKeeps(sections[..n], isMarker, size, overlap, j, i);
    }
    LegalStepKeeps(prev, sections[n], isMarker, size, overlap, c);
    LegalFoldKeepsLast(sections, isMarker, size, overlap, c);
  }

  /** What the loop's last pass keeps, the loop keeps. */
  lemma LegalFoldKeepsLast(sections: seq<string>, isMarker: string -> bool, size: nat, overlap: nat, c: char)
    requires 1 <= size && sections != []
    requires Keeps(LegalStep(LegalFold(sections[..|sections| - 1], isMarker, size, overlap), sections[|sections| - 1], isMarker, size, overlap), c)
    ensures Keeps(LegalFold(sections, isMarker, size, overlap), c)
  {
  }

  /**
   * Legal chunking drops nothing but whitespace: every other character of
   * every section, markers included, lies in some chunk.
   */
  lemma LegalChunksCover(sections: seq<string>, isMarker: string -> bool, size: nat, overlap: nat, j: nat, i: nat)
    requires 1 <= size && j < |sections| && i < |sections[j]| && !IsSpace(sections[j][i])
    ensures Shown(LegalChunks(sections, isMarker, size, overlap), sections[j][i])
  {
    var c := sections[j][i];
    var a := LegalFold(sections, isMarker, size, overlap);
    LegalFoldKeeps(sections, isMarker, size, overlap, j, i);
    var flushed := LegalFlush(a);
    var k: nat;
    if Shown(a.chunks, c) {
      k :| k < |a.chunks| && c in a.chunks[k];
      assert flushed[k] == flushed[..|a.chunks|][k];
    } else {
      var p :| 0 <= p < |a.current| && a.current[p] == c;
      StripKeeps(a.current, p);
      k := |a.chunks|;
    }
    var q :| 0 <= q < |flushed[k]| && flushed[k][q] == c;
    assert !IsBlank(flushed[k]);
    KeepNonBlankKeeps(flushed);
    LegalChunksIs(sections, isMarker, size, overlap);
    var r := LegalChunks(sections, isMarker, size, overlap);
    assert flushed[k] in r;
    var m :| 0 <= m < |r| && r[m] == flushed[k];
  }

  /** One more section is one more pass of the loop. */
  lemma LegalFoldNext(sections: seq<string>, isMarker: string -> bool, size: nat, overlap: nat, i: nat)
    requires 1 <= size && i < |sections|
    ensures LegalFold(sections[..i + 1], isMarker, size, overlap)
         == LegalStep(LegalFold(sections[..i], isMarker, size, overlap), sections[i], isMarker, size, overlap)
  {
    assert sections[..i + 1][..i] == sections[..i];
  }

  /** The legal chunker flushes the state after the loop and drops blank chunks. */
  lemma LegalChunksIs(sections: seq<string>, isMarker: string -> bool, size: nat, overlap: nat)
    requires 1 <= size
    ensures LegalChunks(sections, isMarker, size, overlap)
         == KeepNonBlank(LegalFlush(LegalFold(sections, isMarker, size, overlap)))
  {
  }

  /** One pass of the legal chunker's loop over `section`. */
  method LegalPass(chunks: seq<string>, current: string, section: string, isMarker: string -> bool, size: nat, overlap: nat)
    returns (chunks': seq<string>, current': string)
    requires 1 <= size
    ensures Acc(chunks', current') == LegalStep(Acc(chunks, current), section, isMarker, size, overlap)
  {
    chunks', current' := chunks, current;
    if isMarker(section) {
      if current' != [] {
        chunks' := chunks' + [Strip(current')];
      }
      current' := section + " ";
    } else {
      current' := current' + section;
      if |current'| > 2 * size {
        var sub := ChunkGeneral(current', size, overlap);
        if sub == [] {
          current' := [];
        } else {
          chunks' := chunks' + sub[..|sub| - 1];
          current' := sub[|sub| - 1];
        }
      }
    }
  }

  /**
   * The legal chunker's loop: the accumulator grows section by section and is
   * handed to the general chunker when it gets too long.
   */
  method ChunkLegal(sections: seq<string>, isMarker: string -> bool, size: nat, overlap: nat) returns (chunks: seq<string>)
    requires 1 <= size
    ensures chunks == LegalChunks(sections, isMarker, size, overlap)
  {
    chunks := [];
    var current: string := [];
    for i := 0 to |sections|
      invariant Acc(chunks, current) == LegalFold(sections[..i], isMarker, size, overlap)
    {
      LegalFoldNext(sections, isMarker, size, overlap, i);
      chunks, current := LegalPass(chunks, current, sections[i], isMarker, size, overlap);
    }
    assert sections[..|sections|] == sections;
    ghost var a := Acc(chunks, current);
    if current != [] {
      chunks := chunks + [Strip(current)];
    }
    assert chunks == LegalFlush(a);
    LegalChunksIs(sections, isMarker, size, overlap);
    chunks := KeepNonBlank(chunks);
  }

  // ================================================================ letter chunking

  /** The page marker the document readers write before each page's text. */
  const PageMarker: string := "--- Page "

  /** A chunk of the letter chunker: non-empty, stripped and no longer than `size`. */
  predicate LetterChunkOk(c: string, size: nat)
  {
    c != [] && IsTrimmed(c) && |c| <= size
  }

  /** The lists of `s` one after the other. */
  function Flatten<T>(s: seq<seq<T>>): (r: seq<T>)
  {
    if s == [] then [] else Flatten(s[..|s| - 1]) + s[|s| - 1]
  }

  /** One more list is appended at the end of the flattening. */
  lemma FlattenNext<T>(s: seq<seq<T>>, i: nat)
    requires i < |s|
    ensures Flatten(s[..i + 1]) == Flatten(s[..i]) + s[i]
  {
    assert s[..i + 1][..i] == s[..i];
  }

  /** Every element of a flattening comes from one of its lists. */
  lemma {:induction false} FlattenFrom<T>(s: seq<seq<T>>, x: T)
    requires x in Flatten(s)
    ensures exists i :: 0 <= i < |s| && x in s[i]
  {
    if x !in s[|s| - 1] {
      FlattenFrom(s[..|s| - 1], x);
      var i :| 0 <= i < |s| - 1 && x in s[..|s| - 1][i];
    }
  }

  /** A flattening of lists of letter chunks holds only letter chunks. */
  lemma FlattenOk(s: seq<seq<string>>, size: nat)
    requires forall i, k :: 0 <= i < |s| && 0 <= k < |s[i]| ==> LetterChunkOk(s[i][k], size)
    ensures forall c :: c in Flatten(s) ==> LetterChunkOk(c, size)
  {
    forall c | c in Flatten(s) ensures LetterChunkOk(c, size) {
      FlattenFrom(s, c);
      var i :| 0 <= i < |s| && c in s[i];
      var k :| 0 <= k < |s[i]| && s[i][k] == c;
    }
  }

  /** The chunks of one paragraph: none when it is blank, itself stripped when short, else the general chunks. */
  function ParagraphChunks(paragraph: string, size: nat, overlap: nat): (r: seq<string>)
    requires 1 <= size
    ensures forall k :: 0 <= k < |r| ==> LetterChunkOk(r[k], size)
  {
    var p := Strip(paragraph);
    if p == [] then []
    else if |p| > size then GeneralChunks(p, size, overlap)
    else [p]
  }

  /** The chunk lists of the paragraphs `splitParagraphs` cuts a page into. */
  function ParagraphLists(page: string, splitParagraphs: string -> seq<string>, size: nat, overlap: nat): (r: seq<seq<string>>)
    requires 1 <= size
    ensures |r| == |splitParagraphs(page)|
    ensures forall j :: 0 <= j < |r| ==> r[j] == ParagraphChunks(splitParagraphs(page)[j], size, overlap)
  {
    var ps := splitParagraphs(page);
    seq(|ps|, j requires 0 <= j < |ps| => ParagraphChunks(ps[j], size, overlap))
  }

  /** The chunks of one page: none when it is blank, else its paragraphs' chunks in order. */
  function PageChunks(page: string, splitParagraphs: string -> seq<string>, size: nat, overlap: nat): (r: seq<string>)
    requires 1 <= size
    ensures IsBlank(page) ==> r == []
    ensures forall c :: c in r ==> LetterChunkOk(c, size)
  {
    if IsBlank(page) then []
    else
      var lists := ParagraphLists(page, splitParagraphs, size, overlap);
      FlattenOk(lists, size);
      Flatten(lists)
  }

  /** The chunk lists of the pieces of `text` between page markers. */
  function PageLists(text: string, splitParagraphs: string -> seq<string>, size: nat, overlap: nat): (r: seq<seq<string>>)
    requires 1 <= size
    ensures |r| == |SplitOn(text, PageMarker)|
    ensures forall i :: 0 <= i < |r| ==> r[i] == PageChunks(SplitOn(text, PageMarker)[i], splitParagraphs, size, overlap)
  {
    var pages := SplitOn(text, PageMarker);
    seq(|pages|, i requires 0 <= i < |pages| => PageChunks(pages[i], splitParagraphs, size, overlap))
  }

  /** The letter chunker: page by page, paragraph by paragraph. */
  function LetterChunks(text: string, splitParagraphs: string -> seq<string>, size: nat, overlap: nat): (r: seq<string>)
    requires 1 <= size
    ensures forall c :: c in r ==> LetterChunkOk(c, size)
  {
    var pages := PageLists(text, splitParagraphs, size, overlap);
    assert forall i, k :: 0 <= i < |pages| && 0 <= k < |pages[i]| ==> LetterChunkOk(pages[i][k], size) by {
      forall i, k | 0 <= i < |pages| && 0 <= k < |pages[i]| ensures LetterChunkOk(pages[i][k], size) {
        assert pages[i][k] in PageChunks(SplitOn(text, PageMarker)[i], splitParagraphs, size, overlap);
      }
    }
    FlattenOk(pages, size);
    Flatten(pages)
  }

  /** The inner loop of the letter chunker over the paragraphs of one page that is not blank. */
  method ChunkParagraphs(page: string, splitParagraphs: string -> seq<string>, size: nat, overlap: nat) returns (chunks: seq<string>)
    requires 1 <= size
    ensures chunks == Flatten(ParagraphLists(page, splitParagraphs, size, overlap))
  {
    var paragraphs := splitParagraphs(page);
    ghost var lists := ParagraphLists(page, splitParagraphs, size, overlap);
    chunks := [];
    for j := 0 to |paragraphs|
      invariant chunks == Flatten(lists[..j])
    {
      FlattenNext(lists, j);
      var paragraph := Strip(paragraphs[j]);
      if paragraph == [] {
        continue;
      }
      if |paragraph| > size {
        var sub := ChunkGeneral(paragraph, size, overlap);
        chunks := chunks + sub;
      } else {
        chunks := chunks + [paragraph];
      }
    }
    assert lists[..|paragraphs|] == lists;
  }

  /**
   * The letter chunker's loop over pages: pages split on the page marker,
   * blank pages skipped, the paragraphs of the others chunked in order.
   */
  method ChunkLetter(text: string, splitParagraphs: string -> seq<string>, size: nat, overlap: nat) returns (chunks: seq<string>)
    requires 1 <= size
    ensures chunks == LetterChunks(text, splitParagraphs, size, overlap)
  {
    var pages := SplitOn(text, PageMarker);
    ghost var pageLists := PageLists(text, splitParagraphs, size, overlap);
    chunks := [];
    for i := 0 to |pages|
      invariant chunks == Flatten(pageLists[..i])
    {
      FlattenNext(pageLists, i);
      if IsBlank(pages[i]) {
        continue;
      }
      var pageChunks := ChunkParagraphs(pages[i], splitParagraphs, size, overlap);
      chunks := chunks + pageChunks;
    }
    assert pageLists[..|pages|] == pageLists;
  }

  // ================================================================ dispatch

  /**
   * The regular-expression splits of the source, which are not modelled: the
   * split of a text into sections and section markers, the test for a section
   * marker, and the split of a page into numbered paragraphs.
   */
  datatype Patterns = Patterns(
    splitSections: string -> seq<string>,
    isMarker: string -> bool,
    splitParagraphs: string -> seq<string>)

  /**
   * The chunker for a mode: "statute" chunks by legal sections, "letter" by
   * pages and paragraphs, and every other mode (including "letter/report")
   * by the general window.
   */
  function ChunkText(text: string, mode: string, patterns: Patterns, size: nat, overlap: nat): (r: seq<string>)
    requires 1 <= size
    ensures mode == "statute" ==> forall k :: 0 <= k < |r| ==> r[k] != [] && IsTrimmed(r[k])
    ensures mode == "letter" ==> forall k :: 0 <= k < |r| ==> LetterChunkOk(r[k], size)
    ensures mode != "statute" && mode != "letter" ==> forall k :: 0 <= k < |r| ==> |r[k]| <= size
    ensures mode != "statute" && mode != "letter" && |text| <= size ==> r == [text]
  {
    if mode == "statute" then LegalChunks(patterns.splitSections(text), patterns.isMarker, size, overlap)
    else if mode == "letter" then
      LetterChunks(text, patterns.splitParagraphs, size, overlap)
    else GeneralChunks(text, size, overlap)
  }

  /** The dispatch on the chunking mode. */
  method ApplyChunkingStrategy(text: string, mode: string, patterns: Patterns, size: nat, overlap: nat) returns (chunks: seq<string>)
    requires 1 <= size
    ensures chunks == ChunkText(text, mode, patterns, size, overlap)
  {
    if mode == "statute" {
      chunks := ChunkLegal(patterns.splitSections(text), patterns.isMarker, size, overlap);
    } else if mode == "letter" {
      chunks := ChunkLetter(text, patterns.splitParagraphs, size, overlap);
    } else {
      chunks := ChunkGeneral(text, size, overlap);
    }
  }
}
