/**
 * The search for a chunk's end and the character-window loop, shared by
 * both chunkers (their `_find_chunk_end` bodies are the same). The token
 * counter is a parameter: `count(s)` is the number of tokens of `s`.
 */
module ChunkSearch {

  /** `count(content[origin:e]) <= budget` */
  predicate Fits(count: string -> nat, content: string, origin: nat, e: nat, budget: int)
    requires origin <= e <= |content|
  {
    count(content[origin..e]) <= budget
  }

  /** Token counts never drop as the slice from `origin` grows. */
  predicate PrefixMonotone(count: string -> nat, content: string, origin: nat) {
    forall i, j :: origin <= i <= j <= |content| ==> count(content[origin..i]) <= count(content[origin..j])
  }

  /** One probe of the binary search between `lo` and `hi`, counting the
      slice from `origin`: the end found, or the narrowed bounds. */
  datatype Probe = Found(end: nat) | Narrow(lo: nat, hi: int)

  function SearchStep(count: string -> nat, content: string, origin: nat, lo: nat, hi: int, budget: int): (p: Probe)
    requires origin <= lo <= hi <= |content|
    ensures p.Found? ==> lo <= p.end <= hi
    ensures p.Narrow? ==> lo <= p.lo && p.hi <= hi && p.hi - p.lo < hi - lo
  {
    var mid := (lo + hi) / 2;
    if count(content[origin..mid]) <= budget then
      if mid == hi || count(content[origin..mid + 1]) > budget then Found(mid) else Narrow(mid + 1, hi)
    else Narrow(lo, mid - 1)
  }

  // ---------------------------------------------------------------------
  // The search as written

  /** The loop of `_find_chunk_end` as written: after a probe that fits,
      the lower bound moves to `mid + 1`, and every later probe counts the
      slice from that moved bound, not from the chunk's start. */
  function SearchAsWritten(count: string -> nat, content: string, lo: nat, hi: int, budget: int): (r: nat)
    requires hi <= |content|
    ensures lo <= |content| ==> lo <= r <= |content|
    ensures lo > |content| ==> r == lo
    decreases hi - lo + 1
  {
    if lo > hi then lo
    else match SearchStep(count, content, lo, lo, hi, budget)
      case Found(m) => m
      case Narrow(l, h) => SearchAsWritten(count, content, l, h, budget)
  }

  /** The length of a string as its token count: monotone, yet the search
      as written returns an end whose slice does not fit, where the
      anchored search returns the largest end that fits. */
  lemma AsWrittenOvershoots()
    ensures var count := (s: string) => |s|;
      PrefixMonotone(count, "aaaa", 0) &&
      SearchAsWritten(count, "aaaa", 0, 4, 3) == 4 && !Fits(count, "aaaa", 0, 4, 3) &&
      ChunkEnd(count, "aaaa", 0, 3) == 3 && Fits(count, "aaaa", 0, 3, 3)
  {
    var count := (s: string) => |s|;
    var c := "aaaa";
    assert SearchStep(count, c, 4, 4, 4, 3) == Found(4);
    assert SearchStep(count, c, 3, 3, 4, 3) == Narrow(4, 4);
    assert SearchStep(count, c, 0, 0, 4, 3) == Narrow(3, 4);
    assert SearchAsWritten(count, c, 3, 4, 3) == SearchAsWritten(count, c, 4, 4, 3);
    assert SearchAsWritten(count, c, 0, 4, 3) == SearchAsWritten(count, c, 3, 4, 3);
    assert SearchStep(count, c, 0, 3, 4, 3) == Found(3);
    assert Search(count, c, 0, 0, 4, 3) == Search(count, c, 0, 3, 4, 3);
  }

  // ---------------------------------------------------------------------
  // The search anchored at the chunk's start

  /** The binary search with every probe counted from `origin`. */
  function Search(count: string -> nat, content: string, origin: nat, lo: nat, hi: int, budget: int): (r: nat)
    requires origin <= lo && hi <= |content|
    ensures lo <= |content| ==> lo <= r <= |content|
    ensures lo > |content| ==> r == lo
    decreases hi - lo + 1
  {
    if lo > hi then lo
    else match SearchStep(count, content, origin, lo, hi, budget)
      case Found(m) => m
      case Narrow(l, h) => Search(count, content, origin, l, h, budget)
  }

  /** The corrected `_find_chunk_end(content, start, budget)`: every probe
      counts the slice from `start`. */
  function ChunkEnd(count: string -> nat, content: string, start: nat, budget: int): nat {
    Search(count, content, start, start, |content|, budget)
  }

  /** The bounds bracket the answer: the slice up to `lo` fits, and the
      one up to `hi + 1` does not (or `hi` is the content's end). */
  predicate Brackets(count: string -> nat, content: string, origin: nat, lo: nat, hi: int, budget: int) {
    origin <= lo <= |content| && lo <= hi + 1 && hi <= |content| &&
    Fits(count, content, origin, lo, budget) &&
    (hi == |content| || (hi + 1 >= origin && !Fits(count, content, origin, hi + 1, budget)))
  }

  /** `r` is an answer: its slice fits and one more character would not,
      unless `r` is the content's end. */
  predicate Settled(count: string -> nat, content: string, origin: nat, r: nat, budget: int) {
    origin <= r <= |content| && Fits(count, content, origin, r, budget) &&
    (r == |content| || !Fits(count, content, origin, r + 1, budget))
  }

  lemma StepKeepsBrackets(count: string -> nat, content: string, origin: nat, lo: nat, hi: int, budget: int)
    requires Brackets(count, content, origin, lo, hi, budget) && lo <= hi
    ensures var p := SearchStep(count, content, origin, lo, hi, budget);
      (p.Found? ==> Settled(count, content, origin, p.end, budget)) &&
      (p.Narrow? ==> Brackets(count, content, origin, p.lo, p.hi, budget))
  {
  }

  /** While the bounds bracket the answer, the search ends at a fitting
      end whose next character would not fit. */
  lemma {:induction false} SearchFinds(count: string -> nat, content: string, origin: nat, lo: nat, hi: int, budget: int)
    requires Brackets(count, content, origin, lo, hi, budget)
    ensures Settled(count, content, origin, Search(count, content, origin, lo, hi, budget), budget)
    decreases hi - lo + 1
  {
    if lo > hi {
      assert false;
    }
    StepKeepsBrackets(count, content, origin, lo, hi, budget);
    var p := SearchStep(count, content, origin, lo, hi, budget);
    if p.Narrow? {
      assert Search(count, content, origin, lo, hi, budget) == Search(count, content, origin, p.lo, p.hi, budget);
      SearchFinds(count, content, origin, p.lo, p.hi, budget);
    } else {
      assert Search(count, content, origin, lo, hi, budget) == p.end;
    }
  }

  /** When the empty slice fits, the end found fits and one more
      character would not. */
  lemma ChunkEndFits(count: string -> nat, content: string, start: nat, budget: int)
    requires start <= |content| && count("") <= budget
    ensures var r := ChunkEnd(count, content, start, budget);
      start <= r <= |content| && count(content[start..r]) <= budget &&
      (r == |content| || count(content[start..r + 1]) > budget)
  {
    assert content[start..start] == "";
    SearchFinds(count, content, start, start, |content|, budget);
  }

  /** For a monotone counter the end found is the largest that fits: an
      end fits exactly when it is at most the one found. */
  lemma ChunkEndLargest(count: string -> nat, content: string, start: nat, budget: int)
    requires start <= |content| && count("") <= budget && PrefixMonotone(count, content, start)
    ensures var r := ChunkEnd(count, content, start, budget);
      forall e :: start <= e <= |content| ==> (count(content[start..e]) <= budget <==> e <= r)
  {
    ChunkEndFits(count, content, start, budget);
    var r := ChunkEnd(count, content, start, budget);
    forall e | start <= e <= |content|
      ensures count(content[start..e]) <= budget <==> e <= r
    {
      if e <= r {
        assert count(content[start..e]) <= count(content[start..r]);
      } else {
        assert count(content[start..r + 1]) <= count(content[start..e]);
      }
    }
  }

  /** Everything from `start` fits: the end is the content's length. */
  lemma ChunkEndAllFits(count: string -> nat, content: string, start: nat, budget: int)
    requires start <= |content| && count("") <= budget && PrefixMonotone(count, content, start)
    requires count(content[start..]) <= budget
    ensures ChunkEnd(count, content, start, budget) == |content|
  {
    ChunkEndLargest(count, content, start, budget);
    assert content[start..|content|] == content[start..];
  }

  /** An empty content ends at 0. */
  lemma ChunkEndEmpty(count: string -> nat, budget: int)
    ensures ChunkEnd(count, "", 0, budget) == 0
  {
  }

  /** A zero budget where the first character costs a token ends at the
      start. */
  lemma ChunkEndZeroBudget(count: string -> nat, content: string)
    requires |content| > 0 && count("") == 0 && count(content[..1]) > 0 && PrefixMonotone(count, content, 0)
    ensures ChunkEnd(count, content, 0, 0) == 0
  {
    ChunkEndLargest(count, content, 0, 0);
    assert content[0..1] == content[..1];
  }

  /** `_find_chunk_end`: a binary search for the largest end from `start`
      whose slice fits the budget. */
  method FindChunkEnd(count: string -> nat, content: string, start: nat, budget: int) returns (r: nat)
    ensures r == ChunkEnd(count, content, start, budget)
  {
    var lo: nat, hi: int := start, |content|;
    while lo <= hi
      invariant start <= lo && hi <= |content|
      invariant Search(count, content, start, lo, hi, budget) == ChunkEnd(count, content, start, budget)
      decreases hi - lo + 1
    {
      var probe := SearchStep(count, content, start, lo, hi, budget);
      if probe.Found? {
        return probe.end;
      }
      lo, hi := probe.lo, probe.hi;
    }
    return lo;
  }

  // ---------------------------------------------------------------------
  // The character windows

  /** The windows `(start, end)` the chunking loop takes, from `start` on:
      each ends where the search says, the last at the content's end, and
      each next one starts `overlap` before the previous end but at least
      one past the previous start. */
  function Windows(count: string -> nat, content: string, budget: int, overlap: int, start: nat): seq<(nat, nat)>
    decreases |content| - start
  {
    if start >= |content| then []
    else
      var e := ChunkEnd(count, content, start, budget);
      if e == |content| then [(start, e)]
      else [(start, e)] + Windows(count, content, budget, overlap, NextStart(start, e, overlap))
  }

  /** `max(chunk_end - overlap, start + 1)` */
  function NextStart(start: nat, chunkEnd: nat, overlap: int): nat {
    if chunkEnd - overlap >= start + 1 then chunkEnd - overlap else start + 1
  }

  /** `content[w.0:w.1]` for a window inside the content. */
  function Slice(content: string, w: (nat, nat)): string {
    if w.0 <= w.1 <= |content| then content[w.0..w.1] else ""
  }

  /** The slices of the windows, in order. */
  function Bodies(content: string, ws: seq<(nat, nat)>): (bs: seq<string>)
    ensures |bs| == |ws|
  {
    if ws == [] then [] else Bodies(content, ws[..|ws| - 1]) + [Slice(content, ws[|ws| - 1])]
  }

  /** Window `k` from `start` lies in the content, from `start` on, and
      begins before the content's end. */
  lemma {:induction false} WindowInside(count: string -> nat, content: string, budget: int, overlap: int, start: nat, k: nat)
    requires k < |Windows(count, content, budget, overlap, start)|
    ensures var w := Windows(count, content, budget, overlap, start)[k];
      start <= w.0 <= w.1 <= |content| && w.0 < |content| && Slice(content, w) == content[w.0..w.1]
    decreases |content| - start
  {
    if k > 0 {
      var e := ChunkEnd(count, content, start, budget);
      WindowInside(count, content, budget, overlap, NextStart(start, e, overlap), k - 1);
    }
  }

  /** There are windows exactly while `start` is inside the content, and
      the first starts there. */
  lemma WindowsStart(count: string -> nat, content: string, budget: int, overlap: int, start: nat)
    ensures var ws := Windows(count, content, budget, overlap, start);
      (ws == [] <==> start >= |content|) && (ws != [] ==> ws[0].0 == start)
  {
  }

  /** The loop stops at the last window because it reached the content's
      end, or because the next start would be past it. */
  lemma {:induction false} WindowsLast(count: string -> nat, content: string, budget: int, overlap: int, start: nat)
    requires start < |content|
    ensures var ws := Windows(count, content, budget, overlap, start); var w := ws[|ws| - 1];
      w.1 == |content| || (w.1 < |content| && NextStart(w.0, w.1, overlap) >= |content|)
    decreases |content| - start
  {
    var e := ChunkEnd(count, content, start, budget);
    var next := NextStart(start, e, overlap);
    if e != |content| && next < |content| {
      WindowsLast(count, content, budget, overlap, next);
    }
  }

  /** A window followed by another ends before the content does, and the
      next one starts where `max(chunk_end - overlap, start + 1)` says. */
  lemma {:induction false} WindowsStep(count: string -> nat, content: string, budget: int, overlap: int, start: nat, k: nat)
    requires k + 1 < |Windows(count, content, budget, overlap, start)|
    ensures var ws := Windows(count, content, budget, overlap, start);
      ws[k].1 < |content| && ws[k + 1].0 == NextStart(ws[k].0, ws[k].1, overlap)
    decreases |content| - start
  {
    var e := ChunkEnd(count, content, start, budget);
    var next := NextStart(start, e, overlap);
    if k == 0 {
      WindowsStart(count, content, budget, overlap, next);
    } else {
      WindowsStep(count, content, budget, overlap, next, k - 1);
    }
  }

  /** Consecutive windows: the start strictly increases, and after a
      non-empty window the next one leaves no gap and shares at most
      `overlap` characters with it. */
  lemma WindowsOverlap(count: string -> nat, content: string, budget: int, overlap: int, k: nat)
    requires overlap >= 0
    requires k + 1 < |Windows(count, content, budget, overlap, 0)|
    ensures var ws := Windows(count, content, budget, overlap, 0);
      ws[k].0 < ws[k + 1].0 &&
      (ws[k].0 < ws[k].1 ==> ws[k + 1].0 <= ws[k].1 && ws[k].1 - ws[k + 1].0 <= overlap)
  {
    WindowInside(count, content, budget, overlap, 0, k);
    WindowsStep(count, content, budget, overlap, 0, k);
  }

  /** Every window ends where the search from its own start says. */
  lemma {:induction false} WindowIsSearch(count: string -> nat, content: string, budget: int, overlap: int, start: nat, k: nat)
    requires k < |Windows(count, content, budget, overlap, start)|
    ensures var w := Windows(count, content, budget, overlap, start)[k];
      w.0 < |content| && w.1 == ChunkEnd(count, content, w.0, budget)
    decreases |content| - start
  {
    WindowsUnfold(count, content, budget, overlap, start);
    if k > 0 {
      var e := ChunkEnd(count, content, start, budget);
      WindowIsSearch(count, content, budget, overlap, NextStart(start, e, overlap), k - 1);
    }
  }

  /** Window `k`'s slice fits the budget, and one more character would not
      unless the window ends the content (when the empty slice fits). */
  lemma WindowFits(count: string -> nat, content: string, budget: int, overlap: int, k: nat)
    requires count("") <= budget
    requires k < |Windows(count, content, budget, overlap, 0)|
    ensures var w := Windows(count, content, budget, overlap, 0)[k];
      w.0 <= w.1 <= |content| && count(content[w.0..w.1]) <= budget &&
      (w.1 == |content| || count(content[w.0..w.1 + 1]) > budget)
  {
    WindowIsSearch(count, content, budget, overlap, 0, k);
    var w := Windows(count, content, budget, overlap, 0)[k];
    ChunkEndFits(count, content, w.0, budget);
  }

  /** The slices of one more window are those before, then its own. */
  lemma BodiesSnoc(content: string, ws: seq<(nat, nat)>, w: (nat, nat))
    ensures Bodies(content, ws + [w]) == Bodies(content, ws) + [Slice(content, w)]
  {
    assert (ws + [w])[..|ws|] == ws;
  }

  /** The windows from inside the content: the one found there, then,
      unless it reached the end, those from the next start. */
  lemma WindowsUnfold(count: string -> nat, content: string, budget: int, overlap: int, start: nat)
    requires start < |content|
    ensures var e := ChunkEnd(count, content, start, budget);
      start <= e <= |content| &&
      Windows(count, content, budget, overlap, start) ==
        [(start, e)] + (if e == |content| then [] else Windows(count, content, budget, overlap, NextStart(start, e, overlap)))
  {
  }

  /** One turn of the chunking loop: the window from `start` is taken,
      and the rest follow from the next start unless it was the last. */
  lemma TakeWindow(count: string -> nat, content: string, budget: int, overlap: int, taken: seq<(nat, nat)>, start: nat, e: nat)
    requires start < |content| && e == ChunkEnd(count, content, start, budget)
    requires Windows(count, content, budget, overlap, 0) == taken + Windows(count, content, budget, overlap, start)
    ensures Windows(count, content, budget, overlap, 0) ==
      (taken + [(start, e)]) + (if e == |content| then [] else Windows(count, content, budget, overlap, NextStart(start, e, overlap)))
  {
    WindowsUnfold(count, content, budget, overlap, start);
    var rest := if e == |content| then [] else Windows(count, content, budget, overlap, NextStart(start, e, overlap));
    assert taken + ([(start, e)] + rest) == (taken + [(start, e)]) + rest;
  }

  // ---------------------------------------------------------------------
  // The character windows as written

  /** The windows the chunking loop takes when each end comes from the
      search as written: the same loop, with `SearchAsWritten` in place of
      the corrected search. */
  function WindowsAsWritten(count: string -> nat, content: string, budget: int, overlap: int, start: nat): seq<(nat, nat)>
    decreases |content| - start
  {
    if start >= |content| then []
    else
      var e := SearchAsWritten(count, content, start, |content|, budget);
      if e == |content| then [(start, e)]
      else [(start, e)] + WindowsAsWritten(count, content, budget, overlap, NextStart(start, e, overlap))
  }

  /** The windows as written also lie in the content, each begins before
      its end, and a window followed by another ends before the content
      does, the next one starting at `max(chunk_end - overlap, start + 1)`. */
  lemma {:induction false} WindowsAsWrittenInside(count: string -> nat, content: string, budget: int, overlap: int, start: nat, k: nat)
    requires k < |WindowsAsWritten(count, content, budget, overlap, start)|
    ensures var ws := WindowsAsWritten(count, content, budget, overlap, start);
      start <= ws[k].0 <= ws[k].1 <= |content| && ws[k].0 < |content| &&
      (k + 1 < |ws| ==> ws[k].1 < |content| && ws[k + 1].0 == NextStart(ws[k].0, ws[k].1, overlap))
    decreases |content| - start
  {
    var e := SearchAsWritten(count, content, start, |content|, budget);
    var next := NextStart(start, e, overlap);
    if e != |content| {
      if k > 0 {
        WindowsAsWrittenInside(count, content, budget, overlap, next, k - 1);
      } else if 1 < |WindowsAsWritten(count, content, budget, overlap, start)| {
        WindowsAsWrittenInside(count, content, budget, overlap, next, 0);
      }
    }
  }

  /** The length of a string as its token count. */
  function Length(s: string): nat { |s| }

  /** The loop as written on `"aaaa"` with budget 3 takes the whole text. */
  lemma AaaaAsWritten()
    ensures WindowsAsWritten(Length, "aaaa", 3, 0, 0) == [(0, 4)]
  {
    var c := "aaaa";
    assert SearchStep(Length, c, 0, 0, 4, 3) == Narrow(3, 4);
    assert SearchStep(Length, c, 3, 3, 4, 3) == Narrow(4, 4);
    assert SearchStep(Length, c, 4, 4, 4, 3) == Found(4);
    assert SearchAsWritten(Length, c, 4, 4, 3) == 4;
    assert SearchAsWritten(Length, c, 3, 4, 3) == 4;
    assert SearchAsWritten(Length, c, 0, 4, 3) == 4;
  }

  /** The corrected loop on `"aaaa"` with budget 3 takes `[0, 3)`, then `[3, 4)`. */
  lemma AaaaCorrected()
    ensures Windows(Length, "aaaa", 3, 0, 0) == [(0, 3), (3, 4)]
  {
    var c := "aaaa";
    assert SearchStep(Length, c, 0, 0, 4, 3) == Narrow(3, 4);
    assert SearchStep(Length, c, 0, 3, 4, 3) == Found(3);
    assert ChunkEnd(Length, c, 0, 3) == 3;
    assert NextStart(0, 3, 0) == 3;
    assert SearchStep(Length, c, 3, 3, 4, 3) == Narrow(4, 4);
    assert SearchStep(Length, c, 3, 4, 4, 3) == Found(4);
    assert ChunkEnd(Length, c, 3, 3) == 4;
    assert Windows(Length, c, 3, 0, 3) == [(3, 4)];
  }

  /** With the length as token count, `"aaaa"`, budget 3 and no overlap, the
      loop as written takes one window, the whole text, whose slice does
      not fit; the corrected loop takes `"aaa"` and then `"a"`, both fitting. */
  lemma WindowsAsWrittenOvershoot()
    ensures Bodies("aaaa", WindowsAsWritten(Length, "aaaa", 3, 0, 0)) == ["aaaa"] && Length("aaaa") > 3
    ensures Bodies("aaaa", Windows(Length, "aaaa", 3, 0, 0)) == ["aaa", "a"]
  {
    var c := "aaaa";
    AaaaAsWritten();
    assert Bodies(c, [(0, 4)]) == [c[0..4]];
    assert c[0..4] == c;
    AaaaCorrected();
    assert [(0, 3), (3, 4)][..1] == [(0, 3)];
    assert Bodies(c, [(0, 3), (3, 4)]) == [c[0..3], c[3..4]];
    assert c[0..3] == "aaa" && c[3..4] == "a";
  }

  /** `create_text_chunks` of the sentence chunker's file, over the
      corrected search: the slices of the windows; none for empty content. */
  method TextChunks(count: string -> nat, content: string, budget: int, overlap: int) returns (chunks: seq<string>)
    ensures chunks == Bodies(content, Windows(count, content, budget, overlap, 0))
  {
    chunks := [];
    ghost var taken: seq<(nat, nat)> := [];
    var start: nat := 0;
    while |content| > 0 && start < |content|
      invariant Windows(count, content, budget, overlap, 0) == taken + Windows(count, content, budget, overlap, start)
      invariant chunks == Bodies(content, taken)
      decreases |content| - start
    {
      var chunkEnd := FindChunkEnd(count, content, start, budget);
      TakeWindow(count, content, budget, overlap, taken, start, chunkEnd);
      BodiesSnoc(content, taken, (start, chunkEnd));
      chunks := chunks + [content[start..chunkEnd]];
      taken := taken + [(start, chunkEnd)];
      if chunkEnd == |content| {
        assert taken + [] == taken;
        return;
      }
      start := NextStart(start, chunkEnd, overlap);
    }
    assert taken + [] == taken;
  }
}
