/**
 * The page reader of `src/processors`: one page's id, its title property
 * and the plain text of its blocks. Nothing is stored; every failed
 * request or missing key raises, which is `None` here.
 */
module SrcProcessors {
  import opened Wrappers
  import opened NotionRecords
  import opened NotionProcessor
  import opened LegacyBlocks
  import opened Text
  import SrcProcessor

  /** The dictionary `process_page` returns: exactly these three keys. */
  datatype PageRecord = PageRecord(pageId: string, title: string, content: string)

  /** `_extract_title`: the first plain text of the property `title`; `None`
      where the property is missing, is not a title, or is an empty one. */
  function TitlePropertyText(props: seq<(string, Property)>): Option<string> {
    match SrcProcessor.PropertyNamed(props, "title")
    case None => None
    case Some(p) => if p.value.Title? && p.value.title != [] then Some(p.value.title[0].plainText) else None
  }

  /** The title read succeeds exactly for a non-empty title property named
      `title`, and gives its first element's text. */
  lemma TitlePropertyTextMeaning(props: seq<(string, Property)>)
    ensures TitlePropertyText(props).Some? <==>
      exists i :: 0 <= i < |props| && props[i].0 == "title" &&
        SrcProcessor.PropertyNamed(props, "title") == Some(props[i].1) &&
        props[i].1.value.Title? && props[i].1.value.title != []
    ensures TitlePropertyText(props).Some? ==>
      TitlePropertyText(props).value == SrcProcessor.PropertyNamed(props, "title").value.value.title[0].plainText
    ensures (forall i :: 0 <= i < |props| ==> props[i].0 != "title") ==> TitlePropertyText(props).None?
  {
  }

  /** A title property written as the page's last `title` entry is the
      title read, wherever it sits in the list. */
  lemma TitlePropertyFound(before: seq<(string, Property)>, after: seq<(string, Property)>, text: string)
    requires forall i :: 0 <= i < |after| ==> after[i].0 != "title"
    ensures TitlePropertyText(before + [("title", TitleProperty(text))] + after) == Some(text)
  {
    var ps := before + [("title", TitleProperty(text))];
    SrcProcessor.NamedAfterUnnamed(ps, after, "title");
    assert ps[|ps| - 1] == ("title", TitleProperty(text));
  }

  /** `process_page`: the page's metadata for the title, then the full
      content of its top-level blocks. */
  method ProcessPage(api: Api, pageId: string) returns (r: Option<PageRecord>)
    ensures r.Some? <==>
      pageId in api.pageInfo && TitlePropertyText(api.pageInfo[pageId].properties).Some? &&
      pageId in api.contentBlocks && BlocksText(MojibakeBullet, api.contentBlocks[pageId]).Some?
    ensures r.Some? ==>
      r.value.pageId == pageId &&
      r.value.title == TitlePropertyText(api.pageInfo[pageId].properties).value &&
      r.value.content == BlocksText(MojibakeBullet, api.contentBlocks[pageId]).value
  {
    if pageId !in api.pageInfo {
      return None;
    }
    var title := TitlePropertyText(api.pageInfo[pageId].properties);
    if title.None? {
      return None;
    }
    if pageId !in api.contentBlocks {
      return None;
    }
    var content := ExtractFullContent(MojibakeBullet, api.contentBlocks[pageId]);
    if content.None? {
      return None;
    }
    return Some(PageRecord(pageId, title.value, content.value));
  }

  /** `_extract_full_content` is in-order concatenation: the text of two
      runs of blocks is the text of the first followed by that of the
      second, and fails exactly when either fails. */
  lemma {:induction false} BlocksTextAppend(bullet: string, xs: seq<Block>, ys: seq<Block>)
    ensures BlocksText(bullet, xs + ys).Some? <==> BlocksText(bullet, xs).Some? && BlocksText(bullet, ys).Some?
    ensures BlocksText(bullet, xs + ys).Some? ==>
      BlocksText(bullet, xs + ys).value == BlocksText(bullet, xs).value + BlocksText(bullet, ys).value
  {
    if xs == [] {
      assert xs + ys == ys;
    } else {
      assert (xs + ys)[0] == xs[0];
      assert (xs + ys)[1..] == xs[1..] + ys;
      BlocksTextAppend(bullet, xs[1..], ys);
      var first := BlockText(bullet, xs[0]);
      if first.Some? && BlocksText(bullet, xs[1..]).Some? && BlocksText(bullet, ys).Some? {
        var a, b := BlocksText(bullet, xs[1..]).value, BlocksText(bullet, ys).value;
        assert first.value + (a + b) == (first.value + a) + b;
      }
    }
  }

  /** One block's text, as `_process_block` renders it alone. */
  lemma SingleBlockText(bullet: string, b: Block)
    ensures BlocksText(bullet, [b]) == BlockText(bullet, b)
  {
    assert [b][1..] == [];
    if BlockText(bullet, b).Some? {
      assert BlockText(bullet, b).value + "" == BlockText(bullet, b).value;
    }
  }

  /** The visited blocks of a run of top-level blocks. */
  function BlocksSize(bs: seq<Block>): nat {
    if bs == [] then 0 else TreeSize(bs[0]) + BlocksSize(bs[1..])
  }

  /** One line per visited block: when no block's text holds a line break,
      the page content has exactly as many newlines as blocks visited. */
  lemma {:induction false} BlocksTextLines(bullet: string, bs: seq<Block>)
    requires forall i :: 0 <= i < |bs| ==> NoBreaks(bullet, bs[i])
    requires BlocksText(bullet, bs).Some?
    ensures NewlineCount(BlocksText(bullet, bs).value) == BlocksSize(bs)
  {
    if bs != [] {
      BlockTextLines(bullet, bs[0]);
      BlocksTextLines(bullet, bs[1..]);
      NewlineCountConcat(BlockText(bullet, bs[0]).value, BlocksText(bullet, bs[1..]).value);
    } else {
      assert RemoveChar("", '\n') == "";
    }
  }

  /** The page content is empty (no blocks) or ends with a newline. */
  lemma {:induction false} BlocksTextEndsLine(bullet: string, bs: seq<Block>)
    requires BlocksText(bullet, bs).Some?
    ensures var t := BlocksText(bullet, bs).value; (t == []) == (bs == []) && (t != [] ==> t[|t| - 1] == '\n')
  {
    if bs != [] {
      BlockTextEndsLine(bullet, bs[0]);
      BlocksTextEndsLine(bullet, bs[1..]);
      var t := BlocksText(bullet, bs).value;
      var head := BlockText(bullet, bs[0]).value;
      var rest := BlocksText(bullet, bs[1..]).value;
      assert t == head + rest;
      if rest == [] {
        assert t == head;
      } else {
        assert t[|t| - 1] == rest[|rest| - 1];
      }
    }
  }

  /** A bulleted item is rendered after the mojibake bullet, a numbered one
      after "1. ", and an unhandled type as an empty line. */
  lemma BulletLines(rts: seq<RichText>, other: BlockData)
    requires !other.Paragraph? && !other.Heading? && !other.BulletedListItem? && !other.NumberedListItem?
    ensures BlockText(MojibakeBullet, Block("b", BulletedListItem(rts), false, false, [])) ==
      Some("â€¢ " + PlainText(rts) + "\n")
    ensures BlockText(MojibakeBullet, Block("n", NumberedListItem(rts), false, false, [])) ==
      Some("1. " + PlainText(rts) + "\n")
    ensures BlockText(MojibakeBullet, Block("o", other, false, false, [])) == Some("\n")
  {
    assert BlockLine(MojibakeBullet, other) + "\n" == "\n";
  }
}
