/**
 * What the three older Notion processors share: `_extract_uuid`, which
 * keeps the hyphens of the matched id, and the plain-text block renderer
 * (`_process_block_md` / `_process_block`), which differs between them only
 * in the bullet it writes before a bulleted list item.
 */
module LegacyBlocks {
  import opened Wrappers
  import opened Text
  import opened GraphDataClasses
  import opened NotionRecords
  import opened NotionProcessor

  // ---------------------------------------------------------------------
  // `_extract_uuid`

  /** `_extract_uuid`: group 4 of the notion-link pattern as it stands in
      the href, hyphens included. */
  function ExtractUuid(href: string): (r: Option<string>)
    ensures r.Some? ==> 32 <= |r.value| <= 36
  {
    match NotionLinkMatch(href)
    case Some(m) => UuidSpanLength(href, m); Some(href[m.start..m.end])
    case None => None
  }

  /** The digits a group result collects are the text it spans, hyphens
      removed. */
  predicate Spans(s: string, p: nat, m: Option<(nat, string)>) {
    m.Some? ==> p <= m.value.0 <= |s| && RemoveHyphens(s[p..m.value.0]) == m.value.1
  }

  lemma HexHasNoHyphen(t: string)
    requires AllLowerHex(t)
    ensures RemoveHyphens(t) == t
  {
    assert '-' !in t by {
      forall k | 0 <= k < |t| ensures t[k] != '-' {
        assert IsLowerHex(t[k]);
      }
    }
    RemoveCharAbsent(t, '-');
  }

  lemma GroupDigitsSpans(s: string, p: nat, n: nat)
    ensures Spans(s, p, GroupDigits(s, p, n))
  {
    var m := GroupDigits(s, p, n);
    if m.Some? {
      var a := OptionalHyphen(s, p);
      assert m.value == (a + n, s[a..a + n]);
      SliceSplit(s, p, a, a + n);
      RemoveCharConcat(s[p..a], s[a..a + n], '-');
      OptionalHyphenRemoved(s, p);
      HexHasNoHyphen(s[a..a + n]);
    }
  }

  /** The optional hyphen before a group leaves nothing once removed. */
  lemma OptionalHyphenRemoved(s: string, p: nat)
    requires OptionalHyphen(s, p) <= |s| && p <= |s|
    ensures RemoveHyphens(s[p..OptionalHyphen(s, p)]) == []
  {
    var a := OptionalHyphen(s, p);
    if a == p + 1 {
      assert s[p..a] == ['-'];
    } else {
      assert s[p..a] == [];
    }
  }

  lemma ChainSpans(s: string, p: nat, first: Option<(nat, string)>, rest: Option<(nat, string)>)
    requires first.Some? && Spans(s, p, first) && Spans(s, first.value.0, rest)
    ensures Spans(s, p, Chain(first, rest))
  {
    if rest.Some? {
      var e1, e2 := first.value.0, rest.value.0;
      assert s[p..e2] == s[p..e1] + s[e1..e2];
      RemoveCharConcat(s[p..e1], s[e1..e2], '-');
    }
  }

  lemma {:induction false} GroupsSpans(s: string, p: nat, sizes: seq<nat>)
    requires p <= |s|
    ensures Spans(s, p, Groups(s, p, sizes))
    decreases |sizes|
  {
    if sizes != [] {
      var g := GroupDigits(s, p, sizes[0]);
      GroupDigitsSpans(s, p, sizes[0]);
      if g.Some? {
        GroupsSpans(s, g.value.0, sizes[1..]);
        ChainSpans(s, p, g, Groups(s, g.value.0, sizes[1..]));
      }
    }
  }

  lemma UuidSpanLength(s: string, m: UuidMatch)
    requires UuidAt(s, m.start) == Some(m)
    ensures m.start <= m.end <= |s| && 32 <= m.end - m.start <= 36
  {
    GroupsSpanBound(s, m.start + 8, IdGroupSizes);
  }

  /** Each group takes at most one hyphen. */
  lemma {:induction false} GroupsSpanBound(s: string, p: nat, sizes: seq<nat>)
    ensures Groups(s, p, sizes).Some? ==> Groups(s, p, sizes).value.0 <= p + Total(sizes) + |sizes|
    decreases |sizes|
  {
    if sizes != [] {
      var g := GroupDigits(s, p, sizes[0]);
      if g.Some? {
        GroupsSpanBound(s, g.value.0, sizes[1..]);
      }
    }
  }

  /** The legacy extractor and the current one accept the same hrefs, and
      removing the hyphens from the legacy result gives the current one. */
  lemma ExtractUuidHyphensRemoved(href: string)
    ensures ExtractUuid(href).Some? <==> ExtractNotionUuid(href).Some?
    ensures ExtractUuid(href).Some? ==> RemoveHyphens(ExtractUuid(href).value) == ExtractNotionUuid(href).value
  {
    var m := NotionLinkMatch(href);
    if m.Some? {
      MatchSpans(href, m.value);
    }
  }

  /** The text a match spans is its digits with hyphens between them. */
  lemma MatchSpans(s: string, m: UuidMatch)
    requires UuidAt(s, m.start) == Some(m)
    ensures RemoveHyphens(s[m.start..m.end]) == m.digits
  {
    var r := m.start;
    var g := UuidAtParts(s, m);
    GroupsSpans(s, r + 8, IdGroupSizes);
    SliceSplit(s, r, r + 8, m.end);
    RemoveCharConcat(s[r..r + 8], s[r + 8..m.end], '-');
    HexHasNoHyphen(s[r..r + 8]);
  }

  lemma SliceSplit(s: string, i: nat, j: nat, k: nat)
    requires i <= j <= k <= |s|
    ensures s[i..k] == s[i..j] + s[j..k]
  {
  }

  // ---------------------------------------------------------------------
  // Plain-text rendering of blocks

  /** The bullet of `src/processor`. */
  const Bullet: string := "• "
  /** The bullet of `src/graph_rag/processor` and `src/processors`: the
      UTF-8 bytes of the bullet read as Windows-1252. */
  const MojibakeBullet: string := "â€¢ "

  /** The block's own line, before its newline: the plain text of a
      paragraph or heading, of a bulleted item after `bullet`, of a
      numbered item after `"1. "`; nothing for any other type. */
  function BlockLine(bullet: string, d: BlockData): string {
    match d
    case Paragraph(rts) => PlainText(rts)
    case Heading(_, rts) => PlainText(rts)
    case BulletedListItem(rts) => bullet + PlainText(rts)
    case NumberedListItem(rts) => "1. " + PlainText(rts)
    case _ => ""
  }

  /** `_process_block`: the block's line and a newline, then its children's
      text; `None` when fetching the children raises. */
  function BlockText(bullet: string, b: Block): Option<string>
    decreases b, 1
  {
    var own := BlockLine(bullet, b.data) + "\n";
    if !b.hasChildren then Some(own)
    else if !b.childrenFetched then None
    else Prefixed(own, ChildrenText(bullet, b, 0))
  }

  /** The text of the children of `b` from index `i` on. */
  function ChildrenText(bullet: string, b: Block, i: nat): Option<string>
    decreases b, 0, |b.children| - i
  {
    if i >= |b.children| then Some("")
    else
      assert b.children[i] in b.children;
      var first := BlockText(bullet, b.children[i]);
      if first.None? then None else Prefixed(first.value, ChildrenText(bullet, b, i + 1))
  }

  /** `_extract_full_content`: the blocks' texts in order. */
  function BlocksText(bullet: string, bs: seq<Block>): Option<string> {
    if bs == [] then Some("")
    else
      var first := BlockText(bullet, bs[0]);
      if first.None? then None else Prefixed(first.value, BlocksText(bullet, bs[1..]))
  }

  function Prefixed(head: string, rest: Option<string>): Option<string> {
    if rest.None? then None else Some(head + rest.value)
  }

  /** `_process_block`, with its loop over the children. */
  method ProcessBlock(bullet: string, b: Block) returns (content: Option<string>)
    ensures content == BlockText(bullet, b)
    decreases b, 1
  {
    var own := BlockLine(bullet, b.data) + "\n";
    if !b.hasChildren {
      return Some(own);
    }
    if !b.childrenFetched {
      return None;
    }
    var text := own;
    var i := 0;
    while i < |b.children|
      invariant 0 <= i <= |b.children|
      invariant BlockText(bullet, b) == Prefixed(text, ChildrenText(bullet, b, i))
    {
      assert b.children[i] in b.children;
      var c := ProcessBlock(bullet, b.children[i]);
      if c.None? {
        return None;
      }
      assert text + (c.value + ChildrenText(bullet, b, i + 1).GetOr("")) ==
             (text + c.value) + ChildrenText(bullet, b, i + 1).GetOr("");
      text := text + c.value;
      i := i + 1;
    }
    assert ChildrenText(bullet, b, i) == Some("");
    assert text + "" == text;
    return Some(text);
  }

  /** `_extract_full_content`, with its loop over the blocks. */
  method ExtractFullContent(bullet: string, bs: seq<Block>) returns (content: Option<string>)
    ensures content == BlocksText(bullet, bs)
  {
    var text := "";
    var i := 0;
    assert bs[0..] == bs;
    assert BlocksText(bullet, bs).Some? ==> "" + BlocksText(bullet, bs).value == BlocksText(bullet, bs).value;
    while i < |bs|
      invariant 0 <= i <= |bs|
      invariant BlocksText(bullet, bs) == Prefixed(text, BlocksText(bullet, bs[i..]))
    {
      var c := ProcessBlock(bullet, bs[i]);
      BlocksTextStep(bullet, bs, i, text);
      if c.None? {
        return None;
      }
      text := text + c.value;
      i := i + 1;
    }
    assert bs[i..] == [];
    assert text + "" == text;
    return Some(text);
  }

  /** One block more of the text, or none at all when that block fails. */
  lemma BlocksTextStep(bullet: string, bs: seq<Block>, i: nat, text: string)
    requires i < |bs|
    ensures BlockText(bullet, bs[i]).None? ==> Prefixed(text, BlocksText(bullet, bs[i..])) == None
    ensures BlockText(bullet, bs[i]).Some? ==>
      Prefixed(text, BlocksText(bullet, bs[i..])) ==
      Prefixed(text + BlockText(bullet, bs[i]).value, BlocksText(bullet, bs[i + 1..]))
  {
    assert bs[i..][1..] == bs[i + 1..];
    var c := BlockText(bullet, bs[i]);
    var rest := BlocksText(bullet, bs[i + 1..]);
    if c.Some? && rest.Some? {
      assert text + (c.value + rest.value) == (text + c.value) + rest.value;
    }
  }

  // ---------------------------------------------------------------------
  // One line per block

  function NewlineCount(s: string): nat {
    |s| - |RemoveChar(s, '\n')|
  }

  lemma NewlineCountConcat(a: string, b: string)
    ensures NewlineCount(a + b) == NewlineCount(a) + NewlineCount(b)
  {
    RemoveCharConcat(a, b, '\n');
  }

  /** No line text of the tree holds a line break. */
  predicate NoBreaks(bullet: string, b: Block)
    decreases b
  {
    '\n' !in BlockLine(bullet, b.data) &&
    forall c :: c in b.children ==> NoBreaks(bullet, c)
  }

  /** The blocks the renderer visits: the block and, when it has children,
      all of theirs. */
  function TreeSize(b: Block): nat
    decreases b, 1
  {
    1 + (if b.hasChildren then ChildrenSize(b, 0) else 0)
  }

  function ChildrenSize(b: Block, i: nat): nat
    decreases b, 0, |b.children| - i
  {
    if i >= |b.children| then 0
    else
      assert b.children[i] in b.children;
      TreeSize(b.children[i]) + ChildrenSize(b, i + 1)
  }

  /** Every visited block ends exactly one line: when no line text holds a
      line break, the text has one newline per visited block. */
  lemma {:induction false} BlockTextLines(bullet: string, b: Block)
    requires NoBreaks(bullet, b) && BlockText(bullet, b).Some?
    ensures NewlineCount(BlockText(bullet, b).value) == TreeSize(b)
    decreases b, 1
  {
    var line := BlockLine(bullet, b.data);
    RemoveCharAbsent(line, '\n');
    NewlineCountConcat(line, "\n");
    assert NewlineCount("\n") == 1;
    if b.hasChildren {
      ChildrenTextLines(bullet, b, 0);
      NewlineCountConcat(line + "\n", ChildrenText(bullet, b, 0).value);
    }
  }

  lemma {:induction false} ChildrenTextLines(bullet: string, b: Block, i: nat)
    requires NoBreaks(bullet, b) && b.childrenFetched && ChildrenText(bullet, b, i).Some?
    ensures NewlineCount(ChildrenText(bullet, b, i).value) == ChildrenSize(b, i)
    decreases b, 0, |b.children| - i
  {
    if i < |b.children| {
      var c := b.children[i];
      assert c in b.children;
      BlockTextLines(bullet, c);
      ChildrenTextLines(bullet, b, i + 1);
      NewlineCountConcat(BlockText(bullet, c).value, ChildrenText(bullet, b, i + 1).value);
    }
  }

  /** The text of a block is never empty and always ends with a newline. */
  lemma {:induction false} BlockTextEndsLine(bullet: string, b: Block)
    requires BlockText(bullet, b).Some?
    ensures var t := BlockText(bullet, b).value; |t| > 0 && t[|t| - 1] == '\n'
    decreases b, 1
  {
    if b.hasChildren {
      ChildrenTextEndsLine(bullet, b, 0);
    }
  }

  lemma {:induction false} ChildrenTextEndsLine(bullet: string, b: Block, i: nat)
    requires ChildrenText(bullet, b, i).Some?
    ensures var t := ChildrenText(bullet, b, i).value; t == [] || t[|t| - 1] == '\n'
    decreases b, 0, |b.children| - i
  {
    if i < |b.children| {
      assert b.children[i] in b.children;
      BlockTextEndsLine(bullet, b.children[i]);
      ChildrenTextEndsLine(bullet, b, i + 1);
    }
  }

  // ---------------------------------------------------------------------
  // The older walkers' records and bookkeeping

  /** `NotionPage(page_id, title, type, url)`: no edit time, no chunks. */
  function LegacyPage(id: string, info: PageInfo, title: string): (p: GraphPage)
    ensures p.id == id && p.content == None && p.source == "Notion"
  {
    GraphPage(id, title, PageTypeOfObject(info.objectKind), info.url, None, "Notion", None, [])
  }

  /** Archived and trashed pages alike are marked `"[ARCHIVED] "`. */
  function ArchivedTitle(info: PageInfo, title: string): string {
    if info.archived || info.inTrash then "[ARCHIVED] " + title else title
  }

  /** The older walkers never change a stored entry: they only add keys. */
  predicate Extends(before: map<string, GraphPage>, after: map<string, GraphPage>) {
    forall k :: k in before ==> k in after && after[k] == before[k]
  }

  lemma ExtendsTrans(a: map<string, GraphPage>, b: map<string, GraphPage>,
                     c: map<string, GraphPage>)
    requires Extends(a, b) && Extends(b, c)
    ensures Extends(a, c)
  {
  }

  /** Whether the older walkers fetch a block's children: for every block
      that is not unsupported, child pages included. */
  predicate LegacyDescends(b: Block) {
    !b.data.Unsupported? && b.hasChildren
  }

  /** The relations a block tree is sure to add in the older walkers: one
      per child page or database, page link and url block, one per href in
      rich text, and those of the children fetched. */
  function LegacyBlockLinks(b: Block): nat
    decreases b, 1
  {
    LegacyOwnLinks(b.data) + (if LegacyDescends(b) && b.childrenFetched then LegacyChildLinks(b, 0) else 0)
  }

  /** The relations a block adds for itself, before its children. */
  function LegacyOwnLinks(d: BlockData): nat {
    if IsChildPage(d) || d.LinkToPage? || IsUrlBlock(d) then 1
    else if IsRichTextBlock(d) then HrefCount(d.richText)
    else 0
  }

  function LegacyChildLinks(b: Block, i: nat): nat
    decreases b, 0, |b.children| - i
  {
    if i >= |b.children| then 0
    else
      assert b.children[i] in b.children;
      LegacyBlockLinks(b.children[i]) + LegacyChildLinks(b, i + 1)
  }

  function LegacyBlocksLinks(bs: seq<Block>): nat {
    if bs == [] then 0 else LegacyBlocksLinks(bs[..|bs| - 1]) + LegacyBlockLinks(bs[|bs| - 1])
  }

  /** The relations processing a page's children is sure to add. */
  function LegacyPageLinks(api: Api, info: PageInfo): nat {
    (if info.objectKind == DatabaseObject then |api.DatabaseItems(info.id)| else 0) +
    (if info.id in api.contentBlocks then LegacyBlocksLinks(api.contentBlocks[info.id]) else 0)
  }
}
