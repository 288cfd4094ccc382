/**
 * The sentence-aware chunker and embedder of
 * `graph_rag/processor/content_chunker_and_embedder.py`: markdown cleaning,
 * token-budgeted chunks cut at the last sentence end, the metadata prefix
 * every chunk carries, and the pass that chunks and embeds every page or
 * database. The tokenizer and the embedding service are parameters.
 */
module SentenceChunker {
  import opened Wrappers
  import opened Text
  import opened TextCleaning
  import opened GraphDataClasses
  import opened Embeddings

  // ---------------------------------------------------------------------
  // `TextCleaner.clean_markdown`

  predicate IsHash(c: char) { c == '#' }
  predicate NotNewline(c: char) { c != '\n' }

  /** The length of the longest prefix of `s` whose characters all satisfy `p`. */
  function Span(s: string, p: char -> bool): (n: nat)
    ensures n <= |s|
    ensures forall i :: 0 <= i < n ==> p(s[i])
    ensures n == |s| || !p(s[n])
  {
    if s != [] && p(s[0]) then 1 + Span(s[1..], p) else 0
  }

  /** Where the heading text starts: after the `#` run and the whitespace
      that follows it. */
  function TextStart(s: string): (w: nat)
    ensures w <= |s|
  {
    var h := Span(s, IsHash);
    h + Span(s[h..], IsSpace)
  }

  /** Where the heading's line ends: at the first line break after the
      heading text, or at the end. */
  function LineEnd(s: string): (t: nat)
    ensures TextStart(s) <= t <= |s|
  {
    TextStart(s) + Span(s[TextStart(s)..], NotNewline)
  }

  /** `re.sub(r'^#+\s*(.*?)$', r'\1.', s, flags=re.MULTILINE)`, scanning from
      a position that is a line start exactly when `atLineStart`. A match
      takes the `#` run, then all whitespace (line breaks included), then the
      rest of that line, and leaves the line break after it in place. */
  function HeadingsFrom(s: string, atLineStart: bool): string
    decreases |s|
  {
    if s == [] then []
    else if atLineStart && s[0] == '#' then
      s[TextStart(s)..LineEnd(s)] + "." + HeadingsFrom(s[LineEnd(s)..], false)
    else [s[0]] + HeadingsFrom(s[1..], s[0] == '\n')
  }

  function Headings(s: string): string {
    HeadingsFrom(s, true)
  }

  /** The class `[a-zA-Z0-9\s.,!?;:/+\-]` that `clean_markdown` keeps. */
  predicate MarkdownKept(c: char) {
    IsAsciiLetter(c) || IsDigit(c) || IsSpace(c) || c in ".,!?;:/+-"
  }

  /** `clean_markdown`: headings become sentences, characters outside the
      class go, whitespace runs become one space, and the ends are stripped. */
  function CleanMarkdown(s: string): string {
    CleanWith(Headings(s), MarkdownKept)
  }

  /** A heading line `#... text` becomes `text.`, and the line break after it
      stays; the line after it is again a line start. */
  lemma HeadingBecomesSentence(hashes: string, spaces: string, text: string, rest: string)
    requires hashes != [] && forall i :: 0 <= i < |hashes| ==> hashes[i] == '#'
    requires forall i :: 0 <= i < |spaces| ==> IsSpace(spaces[i])
    requires text != [] && !IsSpace(text[0]) && (spaces != [] || text[0] != '#')
    requires forall i :: 0 <= i < |text| ==> text[i] != '\n'
    ensures HeadingsFrom(hashes + (spaces + (text + ("\n" + rest))), true) ==
      text + "." + ("\n" + HeadingsFrom(rest, true))
  {
    HeadingMatch(hashes, spaces, text, "\n" + rest);
    LineBreakStep(rest);
  }

  /** The match itself: the text between the whitespace and the line break
      (or the end) is kept, followed by a full stop. */
  lemma HeadingMatch(hashes: string, spaces: string, text: string, tail: string)
    requires hashes != [] && forall i :: 0 <= i < |hashes| ==> hashes[i] == '#'
    requires forall i :: 0 <= i < |spaces| ==> IsSpace(spaces[i])
    requires text != [] && !IsSpace(text[0]) && (spaces != [] || text[0] != '#')
    requires forall i :: 0 <= i < |text| ==> text[i] != '\n'
    requires tail == [] || tail[0] == '\n'
    ensures HeadingsFrom(hashes + (spaces + (text + tail)), true) == text + "." + HeadingsFrom(tail, false)
  {
    HeadingLayout(hashes, spaces, text, tail);
    HeadingAt(hashes + (spaces + (text + tail)), |hashes|, |hashes| + |spaces|, |hashes| + |spaces| + |text|, text, tail);
  }

  /** A heading line laid out as its parts meets the conditions of `HeadingAt`. */
  lemma HeadingLayout(hashes: string, spaces: string, text: string, tail: string)
    requires hashes != [] && forall i :: 0 <= i < |hashes| ==> hashes[i] == '#'
    requires forall i :: 0 <= i < |spaces| ==> IsSpace(spaces[i])
    requires text != [] && !IsSpace(text[0]) && (spaces != [] || text[0] != '#')
    requires forall i :: 0 <= i < |text| ==> text[i] != '\n'
    requires tail == [] || tail[0] == '\n'
    ensures var s, w := hashes + (spaces + (text + tail)), |hashes| + |spaces|;
      s[0] == '#' && Span(s, IsHash) == |hashes| && Span(s[|hashes|..], IsSpace) == |spaces| &&
      Span(s[w..], NotNewline) == |text| && s[w..w + |text|] == text && s[w + |text|..] == tail
  {
    HeadingParts(hashes, spaces, text, tail);
    HeadingSpans(hashes, spaces, text, tail);
  }

  /** The three runs of a heading line end where its parts end. */
  lemma HeadingSpans(hashes: string, spaces: string, text: string, tail: string)
    requires hashes != [] && forall i :: 0 <= i < |hashes| ==> hashes[i] == '#'
    requires forall i :: 0 <= i < |spaces| ==> IsSpace(spaces[i])
    requires text != [] && !IsSpace(text[0]) && (spaces != [] || text[0] != '#')
    requires forall i :: 0 <= i < |text| ==> text[i] != '\n'
    requires tail == [] || tail[0] == '\n'
    ensures Span(hashes + (spaces + (text + tail)), IsHash) == |hashes|
    ensures Span(spaces + (text + tail), IsSpace) == |spaces|
    ensures Span(text + tail, NotNewline) == |text|
  {
    HashRunExact(hashes, spaces + (text + tail));
    SpaceRunExact(spaces, text + tail);
    LineRunExact(text, tail);
  }

  /** After a line break the scan is again at a line start. */
  lemma LineBreakStep(rest: string)
    ensures HeadingsFrom("\n" + rest, false) == "\n" + HeadingsFrom(rest, true)
  {
    assert ("\n" + rest)[1..] == rest;
  }

  /** The slices of a heading line laid out as its parts. */
  lemma HeadingParts(hashes: string, spaces: string, text: string, tail: string)
    ensures (hashes + (spaces + (text + tail)))[|hashes|..] == spaces + (text + tail)
    ensures (hashes + (spaces + (text + tail)))[|hashes| + |spaces|..] == text + tail
    ensures (hashes + (spaces + (text + tail)))[|hashes| + |spaces|..|hashes| + |spaces| + |text|] == text
    ensures (hashes + (spaces + (text + tail)))[|hashes| + |spaces| + |text|..] == tail
  {
    var s := hashes + (spaces + (text + tail));
    assert s == (hashes + spaces + text) + tail;
    assert s == (hashes + spaces) + (text + tail);
  }

  lemma {:induction false} HashRunExact(hashes: string, after: string)
    requires forall i :: 0 <= i < |hashes| ==> hashes[i] == '#'
    requires after == [] || after[0] != '#'
    ensures Span(hashes + after, IsHash) == |hashes|
  {
    if hashes != [] {
      assert (hashes + after)[1..] == hashes[1..] + after;
      HashRunExact(hashes[1..], after);
    } else {
      assert hashes + after == after;
    }
  }

  lemma {:induction false} SpaceRunExact(spaces: string, after: string)
    requires forall i :: 0 <= i < |spaces| ==> IsSpace(spaces[i])
    requires after == [] || !IsSpace(after[0])
    ensures Span(spaces + after, IsSpace) == |spaces|
  {
    if spaces != [] {
      assert (spaces + after)[1..] == spaces[1..] + after;
      SpaceRunExact(spaces[1..], after);
    } else {
      assert spaces + after == after;
    }
  }

  lemma {:induction false} LineRunExact(text: string, tail: string)
    requires forall i :: 0 <= i < |text| ==> text[i] != '\n'
    requires tail == [] || tail[0] == '\n'
    ensures Span(text + tail, NotNewline) == |text|
  {
    if text != [] {
      assert (text + tail)[1..] == text[1..] + tail;
      LineRunExact(text[1..], tail);
    } else {
      assert text + tail == tail;
    }
  }

  /** One heading match: the `#` run ends at `h`, the whitespace after it at
      `w`, and the line at `t`; the match becomes `text.` and the scan goes
      on with `tail`. */
  lemma HeadingAt(s: string, h: nat, w: nat, t: nat, text: string, tail: string)
    requires s != [] && s[0] == '#' && 0 < h <= w <= t <= |s|
    requires Span(s, IsHash) == h && Span(s[h..], IsSpace) == w - h && Span(s[w..], NotNewline) == t - w
    requires s[w..t] == text && s[t..] == tail
    ensures HeadingsFrom(s, true) == text + "." + HeadingsFrom(tail, false)
  {
    assert TextStart(s) == w;
    assert LineEnd(s) == t;
  }

  /** Text without a `#` has no headings: it is left as it is. */
  lemma {:induction false} NoHashUnchanged(s: string, atLineStart: bool)
    requires forall i :: 0 <= i < |s| ==> s[i] != '#'
    ensures HeadingsFrom(s, atLineStart) == s
    decreases |s|
  {
    if s != [] {
      NoHashUnchanged(s[1..], s[0] == '\n');
    }
  }

  /** A cleaned markdown text holds only the kept characters and single
      spaces, never at either end, and every kept non-whitespace character
      of the heading-rewritten text, in order. */
  lemma CleanMarkdownShape(s: string)
    ensures Cleaned(CleanMarkdown(s), MarkdownKept)
    ensures KeepOnly(CleanMarkdown(s), NotSpace) == KeepOnly(KeepOnly(Headings(s), MarkdownKept), NotSpace)
  {
    CleanWithShape(Headings(s), MarkdownKept);
    CleanWithKeeps(Headings(s), MarkdownKept);
  }

  /** Cleaning a cleaned text changes nothing. */
  lemma CleanMarkdownIdempotent(s: string)
    ensures CleanMarkdown(CleanMarkdown(s)) == CleanMarkdown(s)
  {
    var r := CleanMarkdown(s);
    assert Cleaned(r, MarkdownKept) by {
      CleanWithShape(Headings(s), MarkdownKept);
    }
    assert Headings(r) == r by {
      CleanedHasNoHash(r);
      NoHashUnchanged(r, true);
    }
    CleanWithFixes(r, MarkdownKept);
  }

  /** A cleaned markdown text has no `#`: the class does not keep it. */
  lemma CleanedHasNoHash(r: string)
    requires Cleaned(r, MarkdownKept)
    ensures forall i :: 0 <= i < |r| ==> r[i] != '#'
  {
  }

  // ---------------------------------------------------------------------
  // Tokens and Python slices

  /** The tokenizer: `encoder.encode` and `encoder.decode`. */
  datatype Tokenizer = Tokenizer(encode: string -> seq<int>, decode: seq<int> -> string)

  /** `TokenCounter.count` */
  function Count(tk: Tokenizer, s: string): nat {
    |tk.encode(s)|
  }

  /** Where the bound `n` of a slice falls in a sequence of length `len`:
      negative bounds count from the end, and both are clamped. */
  function PyBound(n: int, len: nat): (b: nat)
    ensures b <= len
  {
    if n >= 0 then (if n <= len then n else len)
    else if len + n >= 0 then len + n else 0
  }

  /** `xs[:n]` */
  function PyPrefix<T>(xs: seq<T>, n: int): seq<T> {
    xs[..PyBound(n, |xs|)]
  }

  /** `xs[k:]` */
  function PySuffix<T>(xs: seq<T>, k: int): seq<T> {
    xs[PyBound(k, |xs|)..]
  }

  /** `xs[:n]` holds the first `n` elements, or all of them, when `n` is not
      negative; `xs[:n] + xs[n:]` is `xs`. */
  lemma PySlices<T>(xs: seq<T>, n: int)
    ensures n >= 0 ==> |PyPrefix(xs, n)| == (if n <= |xs| then n else |xs|)
    ensures PyPrefix(xs, n) + PySuffix(xs, n) == xs
  {
  }

  /** A suffix as long as the sequence is the sequence: a loop whose state
      is `xs[k:]` and keeps its length repeats the same state. */
  lemma PySuffixSameLength<T>(xs: seq<T>, k: int)
    ensures |PySuffix(xs, k)| <= |xs|
    ensures |PySuffix(xs, k)| == |xs| ==> PySuffix(xs, k) == xs
  {
  }

  // ---------------------------------------------------------------------
  // The cut at the last sentence end

  /** `t.rfind(c)` */
  function RFind(t: string, c: char): (i: int)
    ensures -1 <= i < |t|
    ensures i >= 0 ==> t[i] == c
    ensures forall j :: i < j < |t| ==> t[j] != c
  {
    if t == [] then -1
    else if t[|t| - 1] == c then |t| - 1
    else RFind(t[..|t| - 1], c)
  }

  function Max(a: int, b: int): int { if a >= b then a else b }

  predicate IsStop(c: char) { c == '.' || c == '?' || c == '!' || c == '\n' }

  /** `max(t.rfind("."), t.rfind("?"), t.rfind("!"), t.rfind("\n"))` */
  function LastStop(t: string): int {
    Max(Max(RFind(t, '.'), RFind(t, '?')), Max(RFind(t, '!'), RFind(t, '\n')))
  }

  /** The greatest of the four searches is the last sentence end of `t`, or
      -1 when `t` has none. */
  lemma LastStopMeaning(t: string)
    ensures -1 <= LastStop(t) < |t|
    ensures LastStop(t) >= 0 ==> IsStop(t[LastStop(t)])
    ensures forall j :: LastStop(t) < j < |t| ==> !IsStop(t[j])
  {
  }

  /** `chunk_text[: last_punctuation + 1]` when a sentence end was found. */
  function Cut(t: string): string {
    if LastStop(t) != -1 then t[..LastStop(t) + 1] else t
  }

  /** The cut is a prefix of the text; with a sentence end in the text it
      ends with the last one, and without one it is the whole text. */
  lemma CutShape(t: string)
    ensures |Cut(t)| <= |t| && Cut(t) == t[..|Cut(t)|]
    ensures (exists j :: 0 <= j < |t| && IsStop(t[j])) ==>
      Cut(t) != [] && IsStop(Cut(t)[|Cut(t)| - 1]) && forall j :: |Cut(t)| <= j < |t| ==> !IsStop(t[j])
    ensures (forall j :: 0 <= j < |t| ==> !IsStop(t[j])) ==> Cut(t) == t
  {
    LastStopMeaning(t);
  }

  /** `chunk_text and not chunk_text.isspace()` */
  predicate Emits(t: string) {
    t != [] && !IsSpaceOnly(t)
  }

  // ---------------------------------------------------------------------
  // `create_sentence_aware_chunks`

  /** How a loop ends: with a value, or never (the same state comes back). */
  datatype Loop<T> = Ends(value: T) | Loops

  /** The overlap after the guard: 0 when the budget does not exceed it. */
  function EffectiveOverlap(available: int, overlap: int): int {
    if available <= overlap then 0 else overlap
  }

  /** The text one turn takes from `tokens`: the decoded first `available`
      tokens, cut after the last sentence end. */
  function ChunkText(tk: Tokenizer, tokens: seq<int>, available: int): string {
    Cut(tk.decode(PyPrefix(tokens, available)))
  }

  /** The tokens the next turn starts from, when the loop goes on. */
  function NextTokens(tk: Tokenizer, tokens: seq<int>, available: int, overlap: int): seq<int> {
    PySuffix(tokens, Count(tk, ChunkText(tk, tokens, available)) - overlap)
  }

  /** The texts the loop emits from `tokens` on; `Loops` when a turn leaves
      the tokens as they were, after which the loop repeats forever. */
  function SentenceRun(tk: Tokenizer, tokens: seq<int>, available: int, overlap: int): Loop<seq<string>>
    decreases |tokens|
  {
    if tokens == [] then Ends([])
    else
      var text := ChunkText(tk, tokens, available);
      var emitted := if Emits(text) then [text] else [];
      if Count(tk, text) >= |tokens| then Ends(emitted)
      else
        var rest := NextTokens(tk, tokens, available, overlap);
        if |rest| >= |tokens| then Loops
        else match SentenceRun(tk, rest, available, overlap)
          case Loops => Loops
          case Ends(cs) => Ends(emitted + cs)
  }

  /** `create_sentence_aware_chunks(content, available_tokens)` */
  function SentenceChunks(tk: Tokenizer, content: string, available: int, chunkOverlap: int): Loop<seq<string>> {
    SentenceRun(tk, tk.encode(content), available, EffectiveOverlap(available, chunkOverlap))
  }

  /** Texts emitted so far, then those of the rest of the loop. */
  function Then(done: seq<string>, rest: Loop<seq<string>>): Loop<seq<string>> {
    match rest
    case Loops => Loops
    case Ends(cs) => Ends(done + cs)
  }

  /** Texts emitted in two stretches. */
  lemma ThenThen(a: seq<string>, b: seq<string>, rest: Loop<seq<string>>)
    ensures Then(a, Then(b, rest)) == Then(a + b, rest)
  {
    if rest.Ends? {
      assert a + (b + rest.value) == (a + b) + rest.value;
    }
  }

  /** One turn that goes on: the emitted text, if any, then the rest. */
  lemma RunStep(tk: Tokenizer, tokens: seq<int>, available: int, overlap: int)
    requires tokens != [] && Count(tk, ChunkText(tk, tokens, available)) < |tokens|
    requires |NextTokens(tk, tokens, available, overlap)| < |tokens|
    ensures var text := ChunkText(tk, tokens, available);
      SentenceRun(tk, tokens, available, overlap) ==
        Then(if Emits(text) then [text] else [], SentenceRun(tk, NextTokens(tk, tokens, available, overlap), available, overlap))
  {
  }

  /** The last turn: the text took every token that was left. */
  lemma RunLast(tk: Tokenizer, tokens: seq<int>, available: int, overlap: int)
    requires tokens != [] && Count(tk, ChunkText(tk, tokens, available)) >= |tokens|
    ensures var text := ChunkText(tk, tokens, available);
      SentenceRun(tk, tokens, available, overlap) == Ends(if Emits(text) then [text] else [])
  {
  }

  /** A turn that keeps every token starts the same turn again. */
  lemma RunStuck(tk: Tokenizer, tokens: seq<int>, available: int, overlap: int)
    requires tokens != [] && Count(tk, ChunkText(tk, tokens, available)) < |tokens|
    requires |NextTokens(tk, tokens, available, overlap)| >= |tokens|
    ensures SentenceRun(tk, tokens, available, overlap) == Loops
  {
  }

  /** Nothing emitted before the rest. */
  lemma ThenNothing(rest: Loop<seq<string>>)
    ensures Then([], rest) == rest
  {
    if rest.Ends? {
      assert [] + rest.value == rest.value;
    }
  }

  /** One turn's text: the decoded first `available` tokens, cut after the
      last sentence end when there is one. */
  method TakeText(tk: Tokenizer, tokens: seq<int>, available: int) returns (chunkText: string)
    ensures chunkText == ChunkText(tk, tokens, available)
  {
    var chunk := PyPrefix(tokens, available);
    chunkText := tk.decode(chunk);
    var lastPunctuation := LastStop(chunkText);
    if lastPunctuation != -1 {
      chunkText := chunkText[..lastPunctuation + 1];
    }
  }

  /** The loop of `create_sentence_aware_chunks`. */
  method CreateSentenceAwareChunks(tk: Tokenizer, content: string, available: int, chunkOverlap: int)
    returns (r: Loop<seq<string>>)
    ensures r == SentenceChunks(tk, content, available, chunkOverlap)
  {
    var overlap := chunkOverlap;
    if available <= overlap {
      overlap := 0;
    }
    var chunks: seq<string> := [];
    var tokens := tk.encode(content);
    ThenNothing(SentenceRun(tk, tokens, available, overlap));
    while tokens != []
      invariant overlap == EffectiveOverlap(available, chunkOverlap)
      invariant SentenceChunks(tk, content, available, chunkOverlap) == Then(chunks, SentenceRun(tk, tokens, available, overlap))
      decreases |tokens|
    {
      ghost var old_chunks := chunks;
      var chunkText := TakeText(tk, tokens, available);
      ghost var emitted := if Emits(chunkText) then [chunkText] else [];
      if chunkText != [] && !IsSpaceOnly(chunkText) {
        chunks := chunks + [chunkText];
      }
      assert chunks == old_chunks + emitted;
      var chunkSize := |tk.encode(chunkText)|;
      if chunkSize >= |tokens| {
        RunLast(tk, tokens, available, overlap);
        return Ends(chunks);
      }
      var rest := PySuffix(tokens, chunkSize - overlap);
      assert rest == NextTokens(tk, tokens, available, overlap);
      if |rest| >= |tokens| {
        RunStuck(tk, tokens, available, overlap);
        return Loops;
      }
      calc {
        SentenceChunks(tk, content, available, chunkOverlap);
        Then(old_chunks, SentenceRun(tk, tokens, available, overlap));
      == { RunStep(tk, tokens, available, overlap); }
        Then(old_chunks, Then(emitted, SentenceRun(tk, rest, available, overlap)));
      == { ThenThen(old_chunks, emitted, SentenceRun(tk, rest, available, overlap)); }
        Then(chunks, SentenceRun(tk, rest, available, overlap));
      }
      tokens := rest;
    }
    assert chunks + [] == chunks;
    return Ends(chunks);
  }

  /** A turn that goes on shrinks the tokens exactly when the text it took is
      not `overlap` tokens long and, when it is shorter, the `overlap -
      size` last tokens kept are fewer than those there are. */
  lemma StepShrinks(tk: Tokenizer, tokens: seq<int>, available: int, overlap: int)
    requires Count(tk, ChunkText(tk, tokens, available)) < |tokens|
    ensures var size := Count(tk, ChunkText(tk, tokens, available));
      |NextTokens(tk, tokens, available, overlap)| < |tokens| <==> size != overlap && overlap - size < |tokens|
  {
  }

  /** `t` is what a turn takes from some suffix of `tokens`. */
  predicate TakenFrom(tk: Tokenizer, tokens: seq<int>, available: int, t: string) {
    exists k :: 0 <= k <= |tokens| && t == ChunkText(tk, tokens[k..], available)
  }

  /** Every text of `cs` is neither empty nor whitespace only, and is what a
      turn takes from some suffix of `tokens`. */
  predicate AllTaken(tk: Tokenizer, tokens: seq<int>, available: int, cs: seq<string>) {
    forall i :: 0 <= i < |cs| ==> Emits(cs[i]) && TakenFrom(tk, tokens, available, cs[i])
  }

  /** Every emitted text is neither empty nor whitespace only, and is what a
      turn takes from some suffix of the tokens. */
  lemma {:induction false} RunTexts(tk: Tokenizer, tokens: seq<int>, available: int, overlap: int)
    requires SentenceRun(tk, tokens, available, overlap).Ends?
    ensures AllTaken(tk, tokens, available, SentenceRun(tk, tokens, available, overlap).value)
    decreases |tokens|
  {
    if tokens != [] {
      var text := ChunkText(tk, tokens, available);
      var emitted := if Emits(text) then [text] else [];
      assert AllTaken(tk, tokens, available, emitted) by {
        assert tokens[0..] == tokens;
      }
      if Count(tk, text) < |tokens| {
        var rest := NextTokens(tk, tokens, available, overlap);
        var b := PyBound(Count(tk, text) - overlap, |tokens|);
        assert rest == tokens[b..];
        RunTexts(tk, rest, available, overlap);
        var more := SentenceRun(tk, rest, available, overlap).value;
        TakenSuffix(tk, tokens, b, available, more);
        assert SentenceRun(tk, tokens, available, overlap).value == emitted + more;
        AllTakenJoin(tk, tokens, available, emitted, more);
      }
    }
  }

  /** What is taken from a suffix is taken from the whole. */
  lemma TakenSuffix(tk: Tokenizer, tokens: seq<int>, b: nat, available: int, cs: seq<string>)
    requires b <= |tokens| && AllTaken(tk, tokens[b..], available, cs)
    ensures AllTaken(tk, tokens, available, cs)
  {
    forall i | 0 <= i < |cs| ensures TakenFrom(tk, tokens, available, cs[i]) {
      var k :| 0 <= k <= |tokens[b..]| && cs[i] == ChunkText(tk, tokens[b..][k..], available);
      assert tokens[b..][k..] == tokens[b + k..];
    }
  }

  lemma AllTakenJoin(tk: Tokenizer, tokens: seq<int>, available: int, a: seq<string>, b: seq<string>)
    requires AllTaken(tk, tokens, available, a) && AllTaken(tk, tokens, available, b)
    ensures AllTaken(tk, tokens, available, a + b)
  {
    forall i | 0 <= i < |a + b| ensures Emits((a + b)[i]) && TakenFrom(tk, tokens, available, (a + b)[i]) {
      if i >= |a| {
        assert (a + b)[i] == b[i - |a|];
      }
    }
  }

  /** With a zero budget and a tokenizer that maps nothing to nothing, a
      content with any token never finishes: each turn takes the empty
      text and drops no token. */
  lemma ZeroBudgetLoops(tk: Tokenizer, content: string, chunkOverlap: int)
    requires tk.decode([]) == "" && tk.encode("") == []
    requires chunkOverlap >= 0 && tk.encode(content) != []
    ensures SentenceChunks(tk, content, 0, chunkOverlap) == Loops
  {
    var tokens := tk.encode(content);
    assert PyPrefix(tokens, 0) == [];
    assert LastStop("") == -1;
    assert ChunkText(tk, tokens, 0) == "";
    assert NextTokens(tk, tokens, 0, 0) == tokens;
  }

  // ---------------------------------------------------------------------
  // `ChunkCreator.create_chunks`

  /** `f"{value}"` for an optional string: `None` prints as "None". */
  function OptionalText(o: Option<string>): string {
    match o
    case None => "None"
    case Some(s) => s
  }

  /** `_create_constant_part(page)` */
  function ConstantPart(page: GraphPage): string {
    "Title: " + page.title + "\nLast edited time: " + OptionalText(page.lastEditedTime) + "\n"
  }

  /** `_create_constant_part_for_content(page)` */
  function ContentConstantPart(page: GraphPage): string {
    ConstantPart(page) + "\nContent:\n"
  }

  /** How `create_chunks` ends: with its chunks, with an exception (the page
      has no content to encode), or never. */
  datatype Chunking = Chunked(chunks: seq<string>) | Raises | Hangs

  /** Each text after the prefix. */
  function WithPrefix(prefix: string, texts: seq<string>): (r: seq<string>)
    ensures |r| == |texts|
    ensures forall i :: 0 <= i < |texts| ==> r[i] == prefix + texts[i]
  {
    if texts == [] then [] else [prefix + texts[0]] + WithPrefix(prefix, texts[1..])
  }

  /** The budget left for content once the prefix is counted. */
  function Available(tk: Tokenizer, chunkSize: int, page: GraphPage): int {
    chunkSize - Count(tk, ContentConstantPart(page))
  }

  /** `create_chunks(page)` */
  function PageChunks(tk: Tokenizer, chunkSize: int, chunkOverlap: int, page: GraphPage): Chunking {
    if page.content.None? then Raises
    else match SentenceChunks(tk, page.content.value, Available(tk, chunkSize, page), chunkOverlap)
      case Loops => Hangs
      case Ends(cs) => if cs == [] then Chunked([ConstantPart(page)]) else Chunked(WithPrefix(ContentConstantPart(page), cs))
  }

  method CreateChunks(tk: Tokenizer, chunkSize: int, chunkOverlap: int, page: GraphPage) returns (r: Chunking)
    ensures r == PageChunks(tk, chunkSize, chunkOverlap, page)
  {
    var constantPart := ContentConstantPart(page);
    var availableTokens := chunkSize - |tk.encode(constantPart)|;
    if page.content.None? {
      return Raises;
    }
    var contentChunks := CreateSentenceAwareChunks(tk, page.content.value, availableTokens, chunkOverlap);
    if contentChunks.Loops? {
      return Hangs;
    }
    if contentChunks.value != [] {
      return Chunked(WithPrefix(constantPart, contentChunks.value));
    }
    return Chunked([ConstantPart(page)]);
  }

  /** A page with content that finishes gets at least one chunk: the
      metadata alone when no text was emitted, otherwise every emitted text
      after the content prefix, each neither empty nor blank. A page
      without content raises. */
  lemma PageChunksShape(tk: Tokenizer, chunkSize: int, chunkOverlap: int, page: GraphPage)
    ensures PageChunks(tk, chunkSize, chunkOverlap, page).Raises? <==> page.content.None?
    ensures PageChunks(tk, chunkSize, chunkOverlap, page).Chunked? ==>
      var cs := PageChunks(tk, chunkSize, chunkOverlap, page).chunks;
      cs != [] &&
      (cs == [ConstantPart(page)] ||
       forall i :: 0 <= i < |cs| ==>
         StartsWith(cs[i], ContentConstantPart(page)) && Emits(cs[i][|ContentConstantPart(page)|..]))
  {
    if page.content.Some? {
      var available := Available(tk, chunkSize, page);
      var run := SentenceChunks(tk, page.content.value, available, chunkOverlap);
      if run.Ends? && run.value != [] {
        RunTexts(tk, tk.encode(page.content.value), available, EffectiveOverlap(available, chunkOverlap));
        var p := ContentConstantPart(page);
        var cs := WithPrefix(p, run.value);
        forall i | 0 <= i < |cs| ensures StartsWith(cs[i], p) && Emits(cs[i][|p|..]) {
          assert cs[i] == p + run.value[i];
          assert cs[i][..|p|] == p;
          assert cs[i][|p|..] == run.value[i];
        }
      }
    }
  }

  // ---------------------------------------------------------------------
  // `ContentChunkerAndEmbedder.process` and `_process_page`

  /** Only pages and databases are chunked. */
  predicate Chunkable(page: GraphPage) {
    page.pageType == PAGE || page.pageType == DATABASE
  }

  /** What the pass makes of one stored page when chunking finishes. */
  predicate Settled(tk: Tokenizer, chunkSize: int, chunkOverlap: int, embed: seq<string> -> seq<Embedding>,
                    before: GraphPage, after: GraphPage)
  {
    if Chunkable(before) then
      PageChunks(tk, chunkSize, chunkOverlap, before).Chunked? &&
      after == Embedded(before, PageChunks(tk, chunkSize, chunkOverlap, before).chunks, CleanMarkdown, embed)
    else after == before
  }

  /** How the pass ends. */
  datatype Pass = Done | PassRaises | PassHangs

  /** `_process_page(page)` */
  method ProcessPage(tk: Tokenizer, chunkSize: int, chunkOverlap: int, embed: seq<string> -> seq<Embedding>, page: GraphPage)
    returns (r: Option<GraphPage>, pass: Pass)
    ensures r.Some? <==> PageChunks(tk, chunkSize, chunkOverlap, page).Chunked?
    ensures r.Some? ==> r.value == Embedded(page, PageChunks(tk, chunkSize, chunkOverlap, page).chunks, CleanMarkdown, embed) && pass == Done
    ensures r.None? ==> pass == (if PageChunks(tk, chunkSize, chunkOverlap, page).Raises? then PassRaises else PassHangs)
  {
    var chunks := CreateChunks(tk, chunkSize, chunkOverlap, page);
    if chunks.Raises? {
      return None, PassRaises;
    }
    if chunks.Hangs? {
      return None, PassHangs;
    }
    var cleanedChunks := MapAll(chunks.chunks, CleanMarkdown);
    var chunkEmbeddings := embed(cleanedChunks);
    return Some(page.(chunks := Zip(chunks.chunks, chunkEmbeddings))), Done;
  }

  /** `process(processed_content)` without its cache: every page or database
      gets its chunks; anything else is skipped. The pass stops at the first
      page that raises or hangs, leaving the pages done before it updated. */
  method Process(data: ProcessedData, tk: Tokenizer, chunkSize: int, chunkOverlap: int, embed: seq<string> -> seq<Embedding>)
    returns (pass: Pass)
    modifies data
    ensures data.relations == old(data.relations)
    ensures data.pages.Keys == old(data.pages).Keys
    ensures forall id :: id in data.pages ==>
      data.pages[id] == old(data.pages)[id] || Settled(tk, chunkSize, chunkOverlap, embed, old(data.pages)[id], data.pages[id])
    ensures pass == Done <==> forall id :: id in old(data.pages) && Chunkable(old(data.pages)[id]) ==>
      PageChunks(tk, chunkSize, chunkOverlap, old(data.pages)[id]).Chunked?
    ensures pass == Done ==> forall id :: id in data.pages ==>
      Settled(tk, chunkSize, chunkOverlap, embed, old(data.pages)[id], data.pages[id])
  {
    var todo := data.pages.Keys;
    while todo != {}
      invariant todo <= data.pages.Keys
      invariant data.relations == old(data.relations)
      invariant data.pages.Keys == old(data.pages).Keys
      invariant forall id :: id in data.pages && id in todo ==> data.pages[id] == old(data.pages)[id]
      invariant forall id :: id in data.pages && id !in todo ==>
        Settled(tk, chunkSize, chunkOverlap, embed, old(data.pages)[id], data.pages[id])
      decreases todo
    {
      var id :| id in todo;
      var page := data.pages[id];
      if Chunkable(page) {
        var updated, outcome := ProcessPage(tk, chunkSize, chunkOverlap, embed, page);
        if updated.None? {
          return outcome;
        }
        data.pages := data.pages[id := updated.value];
      }
      todo := todo - {id};
    }
    return Done;
  }
}
