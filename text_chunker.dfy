/**
 * The older, character-window chunker and embedder of
 * `graph_rag/processor/content_chnker_and_embedder.py`: plain-text cleaning,
 * chunks that are the longest slices fitting the token budget after a
 * metadata prefix, and the pass that chunks and embeds every page or
 * database. The token counter and the embedding service are parameters.
 */
module TextChunker {
  import opened Wrappers
  import opened Text
  import opened TextCleaning
  import opened GraphDataClasses
  import opened Embeddings
  import opened ChunkSearch
  import SentenceChunker

  // ---------------------------------------------------------------------
  // `TextCleaner.clean`

  /** The class `[a-zA-Z0-9\s.,!?]` the cleaner keeps. */
  predicate TextKept(c: char) {
    IsAsciiLetter(c) || IsDigit(c) || IsSpace(c) || c in ".,!?"
  }

  /** `clean(text)`: characters outside the class dropped, whitespace runs
      made one space, the ends stripped. */
  function Clean(s: string): string {
    CleanWith(s, TextKept)
  }

  /** A cleaned text holds only kept characters and single spaces, never at
      either end, and keeps every kept non-whitespace character of the
      input, in order. */
  lemma CleanShape(s: string)
    ensures Cleaned(Clean(s), TextKept)
    ensures KeepOnly(Clean(s), NotSpace) == KeepOnly(KeepOnly(s, TextKept), NotSpace)
  {
    CleanWithShape(s, TextKept);
    CleanWithKeeps(s, TextKept);
  }

  /** Cleaning a cleaned text changes nothing. */
  lemma CleanIdempotent(s: string)
    ensures Clean(Clean(s)) == Clean(s)
  {
    assert Cleaned(Clean(s), TextKept) by {
      CleanWithShape(s, TextKept);
    }
    CleanWithFixes(Clean(s), TextKept);
  }

  // ---------------------------------------------------------------------
  // `ChunkCreator.create_chunks`

  /** `_create_constant_part(page)` */
  function ConstantPart(page: GraphPage): string {
    "Title: " + page.title + "\nLast edited time: " + SentenceChunker.OptionalText(page.lastEditedTime) + "\n\nContent:\n"
  }

  /** `page.content or ''` */
  function ContentText(page: GraphPage): string {
    if page.content.Some? then page.content.value else ""
  }

  /** The budget left for content once the prefix is counted. */
  function Available(count: string -> nat, chunkSize: int, page: GraphPage): int {
    chunkSize - count(ConstantPart(page))
  }

  /** The windows the loop takes over the page's content. */
  function PageWindows(count: string -> nat, chunkSize: int, chunkOverlap: int, page: GraphPage): seq<(nat, nat)> {
    Windows(count, ContentText(page), Available(count, chunkSize, page), chunkOverlap, 0)
  }

  /** `create_chunks(page)`: the prefix before each window's slice, or the
      prefix and the (empty) content when there is no window. */
  function PageChunks(count: string -> nat, chunkSize: int, chunkOverlap: int, page: GraphPage): seq<string> {
    var ws := PageWindows(count, chunkSize, chunkOverlap, page);
    if ws == [] then [ConstantPart(page) + ContentText(page)]
    else SentenceChunker.WithPrefix(ConstantPart(page), Bodies(ContentText(page), ws))
  }

  /** Prefixing one more text appends the prefixed text. */
  lemma WithPrefixSnoc(prefix: string, texts: seq<string>, t: string)
    ensures SentenceChunker.WithPrefix(prefix, texts + [t]) == SentenceChunker.WithPrefix(prefix, texts) + [prefix + t]
  {
    var l := SentenceChunker.WithPrefix(prefix, texts + [t]);
    var r := SentenceChunker.WithPrefix(prefix, texts) + [prefix + t];
    assert |l| == |r|;
    forall i | 0 <= i < |l| ensures l[i] == r[i] {
      if i < |texts| {
        assert (texts + [t])[i] == texts[i];
      }
    }
  }

  /** One turn of the loop: the window from `start` is taken and its
      prefixed slice appended; the rest follow from the next start unless
      it reached the end. */
  lemma TakeChunk(count: string -> nat, content: string, budget: int, overlap: int, prefix: string,
                  chunks: seq<string>, taken: seq<(nat, nat)>, start: nat, e: nat)
    requires start < |content| && e == ChunkEnd(count, content, start, budget)
    requires Windows(count, content, budget, overlap, 0) == taken + Windows(count, content, budget, overlap, start)
    requires chunks == SentenceChunker.WithPrefix(prefix, Bodies(content, taken))
    ensures start <= e <= |content|
    ensures chunks + [prefix + content[start..e]] == SentenceChunker.WithPrefix(prefix, Bodies(content, taken + [(start, e)]))
    ensures e == |content| ==> Windows(count, content, budget, overlap, 0) == taken + [(start, e)]
    ensures e != |content| ==>
      Windows(count, content, budget, overlap, 0) ==
      (taken + [(start, e)]) + Windows(count, content, budget, overlap, NextStart(start, e, overlap))
  {
    WindowsUnfold(count, content, budget, overlap, start);
    TakeWindow(count, content, budget, overlap, taken, start, e);
    BodiesSnoc(content, taken, (start, e));
    WithPrefixSnoc(prefix, Bodies(content, taken), content[start..e]);
    assert (taken + [(start, e)]) + [] == taken + [(start, e)];
  }

  /** The loop of `create_chunks`: the prefix before the slice of every
      window over `content`. */
  method PrefixedWindows(count: string -> nat, content: string, budget: int, overlap: int, prefix: string)
    returns (chunks: seq<string>)
    ensures chunks == SentenceChunker.WithPrefix(prefix, Bodies(content, Windows(count, content, budget, overlap, 0)))
  {
    chunks := [];
    ghost var taken: seq<(nat, nat)> := [];
    var start: nat := 0;
    while |content| > 0 && start < |content|
      invariant Windows(count, content, budget, overlap, 0) == taken + Windows(count, content, budget, overlap, start)
      invariant chunks == SentenceChunker.WithPrefix(prefix, Bodies(content, taken))
      decreases |content| - start
    {
      var chunkEnd := FindChunkEnd(count, content, start, budget);
      TakeChunk(count, content, budget, overlap, prefix, chunks, taken, start, chunkEnd);
      chunks := chunks + [prefix + content[start..chunkEnd]];
      taken := taken + [(start, chunkEnd)];
      if chunkEnd == |content| {
        return;
      }
      start := NextStart(start, chunkEnd, overlap);
    }
    assert taken + [] == taken;
  }

  method CreateChunks(count: string -> nat, chunkSize: int, chunkOverlap: int, page: GraphPage) returns (chunks: seq<string>)
    ensures chunks == PageChunks(count, chunkSize, chunkOverlap, page)
  {
    var constantPart := ConstantPart(page);
    var availableTokens := chunkSize - count(constantPart);
    var content := ContentText(page);
    chunks := PrefixedWindows(count, content, availableTokens, chunkOverlap, constantPart);
    ghost var ws := Windows(count, content, availableTokens, chunkOverlap, 0);
    assert ws == PageWindows(count, chunkSize, chunkOverlap, page);
    if chunks == [] {
      chunks := [constantPart + content];
    }
  }

  /** Every page gets at least one chunk and every chunk starts with the
      metadata prefix. A page without content (missing or empty) gets the
      prefix alone; otherwise chunk `i` is the prefix before the slice of
      window `i`, and every window begins inside the content. */
  lemma {:induction false} PageChunksShape(count: string -> nat, chunkSize: int, chunkOverlap: int, page: GraphPage)
    ensures PageChunks(count, chunkSize, chunkOverlap, page) != []
    ensures forall i :: 0 <= i < |PageChunks(count, chunkSize, chunkOverlap, page)| ==>
      StartsWith(PageChunks(count, chunkSize, chunkOverlap, page)[i], ConstantPart(page))
    ensures ContentText(page) == "" ==> PageChunks(count, chunkSize, chunkOverlap, page) == [ConstantPart(page)]
    ensures ContentText(page) != "" ==>
      |PageChunks(count, chunkSize, chunkOverlap, page)| == |PageWindows(count, chunkSize, chunkOverlap, page)| &&
      forall i :: 0 <= i < |PageWindows(count, chunkSize, chunkOverlap, page)| ==>
        PageWindows(count, chunkSize, chunkOverlap, page)[i].0 <= PageWindows(count, chunkSize, chunkOverlap, page)[i].1 <= |ContentText(page)| &&
        PageChunks(count, chunkSize, chunkOverlap, page)[i] ==
          ConstantPart(page) + ContentText(page)[PageWindows(count, chunkSize, chunkOverlap, page)[i].0..PageWindows(count, chunkSize, chunkOverlap, page)[i].1]
  {
    var text := ContentText(page);
    var p := ConstantPart(page);
    var ws := PageWindows(count, chunkSize, chunkOverlap, page);
    var cs := PageChunks(count, chunkSize, chunkOverlap, page);
    WindowsStart(count, text, Available(count, chunkSize, page), chunkOverlap, 0);
    if ws == [] {
      assert text == "";
      assert cs == [p + text];
      assert p + text == p;
      assert cs[0][..|p|] == p;
    } else {
      var bs := Bodies(text, ws);
      assert cs == SentenceChunker.WithPrefix(p, bs);
      forall i | 0 <= i < |ws|
        ensures ws[i].0 <= ws[i].1 <= |text| && cs[i] == p + text[ws[i].0..ws[i].1]
      {
        WindowInside(count, text, Available(count, chunkSize, page), chunkOverlap, 0, i);
        BodiesAt(text, ws, i);
      }
      forall i | 0 <= i < |cs| ensures StartsWith(cs[i], p) {
        assert cs[i] == p + bs[i];
        assert cs[i][..|p|] == p;
      }
    }
  }

  /** The slice of window `i` is body `i`. */
  lemma {:induction false} BodiesAt(content: string, ws: seq<(nat, nat)>, i: nat)
    requires i < |ws|
    ensures Bodies(content, ws)[i] == Slice(content, ws[i])
    decreases |ws|
  {
    if i < |ws| - 1 {
      BodiesAt(content, ws[..|ws| - 1], i);
    }
  }

  /** With a budget the empty slice fits, each chunk's content slice is the
      longest one from its start that fits the budget left after the
      prefix. */
  lemma PageChunksFit(count: string -> nat, chunkSize: int, chunkOverlap: int, page: GraphPage, i: nat)
    requires ContentText(page) != ""
    requires count("") <= Available(count, chunkSize, page)
    requires i < |PageWindows(count, chunkSize, chunkOverlap, page)|
    ensures var w := PageWindows(count, chunkSize, chunkOverlap, page)[i];
      w.0 <= w.1 <= |ContentText(page)| &&
      PageChunks(count, chunkSize, chunkOverlap, page)[i] == ConstantPart(page) + ContentText(page)[w.0..w.1] &&
      count(ContentText(page)[w.0..w.1]) <= Available(count, chunkSize, page) &&
      (w.1 == |ContentText(page)| || count(ContentText(page)[w.0..w.1 + 1]) > Available(count, chunkSize, page))
  {
    var text := ContentText(page);
    var ws := PageWindows(count, chunkSize, chunkOverlap, page);
    assert PageChunks(count, chunkSize, chunkOverlap, page)[i] == ConstantPart(page) + text[ws[i].0..ws[i].1] by {
      WindowInside(count, text, Available(count, chunkSize, page), chunkOverlap, 0, i);
      BodiesAt(text, ws, i);
    }
    WindowFits(count, text, Available(count, chunkSize, page), chunkOverlap, i);
  }

  // ---------------------------------------------------------------------
  // `ContentChunkerAndEmbedder.process` and `_process_page`

  /** What the pass makes of one stored page. */
  predicate Settled(count: string -> nat, chunkSize: int, chunkOverlap: int, embed: seq<string> -> seq<Embedding>,
                    before: GraphPage, after: GraphPage)
  {
    if SentenceChunker.Chunkable(before) then
      after == Embedded(before, PageChunks(count, chunkSize, chunkOverlap, before), Clean, embed)
    else after == before
  }

  /** `_process_page(page)`: the page with its chunk texts, each stored with
      the embedding of its cleaned text. */
  method ProcessPage(count: string -> nat, chunkSize: int, chunkOverlap: int, embed: seq<string> -> seq<Embedding>, page: GraphPage)
    returns (r: GraphPage)
    ensures r == Embedded(page, PageChunks(count, chunkSize, chunkOverlap, page), Clean, embed)
  {
    var chunks := CreateChunks(count, chunkSize, chunkOverlap, page);
    var cleanedChunks := MapAll(chunks, Clean);
    var chunkEmbeddings := embed(cleanedChunks);
    r := page.(chunks := Zip(chunks, chunkEmbeddings));
  }

  /** A processed page differs from the stored one only in its chunks: one
      per chunk text the service embedded, each holding the raw text. */
  lemma ProcessedPageShape(count: string -> nat, chunkSize: int, chunkOverlap: int, embed: seq<string> -> seq<Embedding>, page: GraphPage)
    ensures var after := Embedded(page, PageChunks(count, chunkSize, chunkOverlap, page), Clean, embed);
      after.(chunks := page.chunks) == page &&
      |after.chunks| <= |PageChunks(count, chunkSize, chunkOverlap, page)| &&
      forall i :: 0 <= i < |after.chunks| ==>
        after.chunks[i].content == PageChunks(count, chunkSize, chunkOverlap, page)[i] &&
        StartsWith(after.chunks[i].content, ConstantPart(page))
  {
    EmbeddedChunks(page, PageChunks(count, chunkSize, chunkOverlap, page), Clean, embed);
    PageChunksShape(count, chunkSize, chunkOverlap, page);
  }

  /** `process(processed_content)` without its cache: every page or database
      gets its chunks and embeddings; anything else is left as it was. */
  method Process(data: ProcessedData, count: string -> nat, chunkSize: int, chunkOverlap: int, embed: seq<string> -> seq<Embedding>)
    modifies data
    ensures data.relations == old(data.relations)
    ensures data.pages.Keys == old(data.pages).Keys
    ensures forall id :: id in data.pages ==>
      Settled(count, chunkSize, chunkOverlap, embed, old(data.pages)[id], data.pages[id])
  {
    var todo := data.pages.Keys;
    while todo != {}
      invariant todo <= data.pages.Keys
      invariant data.relations == old(data.relations)
      invariant data.pages.Keys == old(data.pages).Keys
      invariant forall id :: id in data.pages && id in todo ==> data.pages[id] == old(data.pages)[id]
      invariant forall id :: id in data.pages && id !in todo ==>
        Settled(count, chunkSize, chunkOverlap, embed, old(data.pages)[id], data.pages[id])
      decreases todo
    {
      var id :| id in todo;
      var page := data.pages[id];
      var updated := page;
      if SentenceChunker.Chunkable(page) {
        updated := ProcessPage(count, chunkSize, chunkOverlap, embed, page);
      }
      assert Settled(count, chunkSize, chunkOverlap, embed, old(data.pages)[id], updated);
      data.pages := data.pages[id := updated];
      todo := todo - {id};
    }
  }
}
