/**
 * The older walker with a depth limit (`src/graph_rag/processor`). Unlike
 * the current one it keys pages by the raw id, never replaces a stored
 * page, stores relations with raw ids, counts every level of block nesting
 * as one level of depth, and fetches the children of every block, child
 * pages included.
 */
module SrcGraphRagProcessor {
  import opened Wrappers
  import opened GraphDataClasses
  import opened NotionRecords
  import opened NotionProcessor
  import opened LegacyBlocks

  /** `_extract_title`: the first element of a non-empty top-level title,
      else `'Untitled'`; properties are not consulted. */
  function TopTitle(info: PageInfo): string {
    if info.title.Some? && info.title.value != [] then info.title.value[0].plainText else "Untitled"
  }

  /** Where the page has a top-level title, the current title extraction
      agrees with this one. */
  lemma TopTitleAgrees(info: PageInfo)
    requires info.title.Some? && info.title.value != []
    ensures TopTitle(info) == TitleOf(info)
  {
  }

  /** The page `recursive_process_unprocessed_page` leaves stored. */
  function StoredPage(id: string, info: PageInfo): (p: GraphPage)
    ensures p.id == id && (info.archived || info.inTrash <==> p.title == "[ARCHIVED] " + TopTitle(info))
  {
    LegacyPage(id, info, ArchivedTitle(info, TopTitle(info)))
  }

  class DepthLimitedProcessor {
    const api: Api
    const maxDepth: int
    var preparedPages: map<string, GraphPage>
    var pageRelations: seq<GraphRelation>

    constructor (api: Api, maxDepth: int)
      ensures this.api == api && this.maxDepth == maxDepth
      ensures preparedPages == map[] && pageRelations == []
    {
      this.api := api;
      this.maxDepth := maxDepth;
      preparedPages := map[];
      pageRelations := [];
    }

    function Budget(depth: int): nat {
      if depth < maxDepth then maxDepth - depth else 0
    }

    /** `process_pages`: the root page is stored under its raw id, over any
        earlier entry, then its children are processed at depth 0. `ok` is
        false where the root metadata request raises. */
    method ProcessPages(rootPageId: string) returns (ok: bool)
      modifies this
      ensures ok <==> rootPageId in api.rootInfo
      ensures !ok ==> preparedPages == old(preparedPages) && pageRelations == old(pageRelations)
      ensures ok ==>
        var root := api.rootInfo[rootPageId];
        Extends(old(preparedPages)[root.id := LegacyPage(root.id, root, TopTitle(root))], preparedPages) &&
        old(pageRelations) <= pageRelations &&
        (1 < maxDepth ==> |pageRelations| >= |old(pageRelations)| + LegacyPageLinks(api, root))
    {
      if rootPageId !in api.rootInfo {
        return false;
      }
      var root := api.rootInfo[rootPageId];
      preparedPages := preparedPages[root.id := LegacyPage(root.id, root, TopTitle(root))];
      RecursiveProcessPageChildren(root, 0);
      return true;
    }

    /** `recursive_process_page_children`: nothing once `depth + 1` reaches
        the limit; else the database items, then the top-level blocks, one
        level deeper. A failed block request ends the page quietly. */
    method RecursiveProcessPageChildren(info: PageInfo, depth: int)
      modifies this
      decreases Budget(depth), 0
      ensures depth + 1 >= maxDepth ==> preparedPages == old(preparedPages) && pageRelations == old(pageRelations)
      ensures depth + 1 < maxDepth ==> |pageRelations| >= |old(pageRelations)| + LegacyPageLinks(api, info)
      ensures Extends(old(preparedPages), preparedPages) && old(pageRelations) <= pageRelations
    {
      var d := depth + 1;
      if d >= maxDepth {
        return;
      }
      ghost var dbLinks := 0;
      if info.objectKind == DatabaseObject {
        var items := api.DatabaseItems(info.id);
        dbLinks := |items|;
        var i := 0;
        while i < |items|
          invariant 0 <= i <= |items|
          invariant |pageRelations| >= |old(pageRelations)| + i
          invariant Extends(old(preparedPages), preparedPages) && old(pageRelations) <= pageRelations
        {
          pageRelations := pageRelations + [GraphRelation(info.id, CONTAINS, items[i].id, None)];
          ghost var pages0 := preparedPages;
          RecursiveProcessUnprocessedPage(items[i].id, None, Some(items[i]), d);
          ExtendsTrans(old(preparedPages), pages0, preparedPages);
          i := i + 1;
        }
      }
      if info.id !in api.contentBlocks {
        return;
      }
      var blocks := api.contentBlocks[info.id];
      var j := 0;
      while j < |blocks|
        invariant 0 <= j <= |blocks|
        invariant |pageRelations| >= |old(pageRelations)| + dbLinks + LegacyBlocksLinks(blocks[..j])
        invariant Extends(old(preparedPages), preparedPages) && old(pageRelations) <= pageRelations
      {
        ghost var pages0 := preparedPages;
        RecursiveProcessBlock(blocks[j], info.id, d);
        ExtendsTrans(old(preparedPages), pages0, preparedPages);
        assert blocks[..j + 1][..j] == blocks[..j];
        j := j + 1;
      }
      assert blocks[..j] == blocks;
    }

    /** `recursive_process_block`: the block itself one level deeper, then
        its children, each one more level deeper still. An unsupported
        block is skipped. */
    method RecursiveProcessBlock(block: Block, parentId: string, depth: int)
      modifies this
      decreases Budget(depth), 4, block
      ensures |pageRelations| >= |old(pageRelations)| + LegacyBlockLinks(block)
      ensures IsChildPage(block.data) ==>
        pageRelations[|old(pageRelations)|] == GraphRelation(parentId, CONTAINS, block.id, None)
      ensures block.data.LinkToPage? ==>
        pageRelations[|old(pageRelations)|] == GraphRelation(parentId, REFERENCES, block.data.target, None)
      ensures IsUrlBlock(block.data) ==>
        pageRelations[|old(pageRelations)|] == GraphRelation(parentId, REFERENCES, block.data.url, None) &&
        block.data.url in preparedPages
      ensures block.data.Unsupported? ==> preparedPages == old(preparedPages) && pageRelations == old(pageRelations)
      ensures Extends(old(preparedPages), preparedPages) && old(pageRelations) <= pageRelations
    {
      ProcessOwnBlock(block, parentId, depth);
      if block.data.Unsupported? || !block.hasChildren || !block.childrenFetched {
        return;
      }
      ghost var pages0, relations0 := preparedPages, pageRelations;
      ProcessChildBlocks(block, parentId, depth + 1);
      assert IsUrlBlock(block.data) ==> block.data.url in pages0;
      assert |relations0| > |old(pageRelations)| ==> pageRelations[|old(pageRelations)|] == relations0[|old(pageRelations)|];
      ExtendsTrans(old(preparedPages), pages0, preparedPages);
    }

    /** The branch of `recursive_process_block` on the block's type: the
        relation for a child page, page link or url block, with raw ids,
        before the target is processed one level deeper, and a relation per
        href in rich text. */
    method ProcessOwnBlock(block: Block, parentId: string, depth: int)
      modifies this
      decreases Budget(depth), 4, block, 1
      ensures IsChildPage(block.data) || block.data.LinkToPage? || IsUrlBlock(block.data) ==>
        |pageRelations| > |old(pageRelations)|
      ensures |pageRelations| >= |old(pageRelations)| + LegacyOwnLinks(block.data)
      ensures IsChildPage(block.data) ==>
        pageRelations[|old(pageRelations)|] == GraphRelation(parentId, CONTAINS, block.id, None)
      ensures block.data.LinkToPage? ==>
        pageRelations[|old(pageRelations)|] == GraphRelation(parentId, REFERENCES, block.data.target, None)
      ensures IsUrlBlock(block.data) ==>
        pageRelations[|old(pageRelations)|] == GraphRelation(parentId, REFERENCES, block.data.url, None) &&
        block.data.url in preparedPages
      ensures (!IsChildPage(block.data) && !block.data.LinkToPage? && !IsRichTextBlock(block.data) &&
               !IsUrlBlock(block.data)) ==>
        preparedPages == old(preparedPages) && pageRelations == old(pageRelations)
      ensures Extends(old(preparedPages), preparedPages) && old(pageRelations) <= pageRelations
    {
      var d := depth + 1;
      var data := block.data;
      if IsChildPage(data) {
        AppendAndProcess(GraphRelation(parentId, CONTAINS, block.id, None), block.id, Some(data.ChildDatabase?), d);
      } else if data.LinkToPage? {
        AppendAndProcess(GraphRelation(parentId, REFERENCES, data.target, None), data.target, None, d);
      } else if IsRichTextBlock(data) {
        ProcessRichTextLinks(data.richText, parentId, d);
      } else if IsUrlBlock(data) {
        pageRelations := pageRelations + [GraphRelation(parentId, REFERENCES, data.url, None)];
        ProcessUnprocessedBookmark(data.url);
      }
    }

    /** The loop of `recursive_process_block` over a block's children. */
    method ProcessChildBlocks(block: Block, parentId: string, depth: int)
      modifies this
      decreases Budget(depth), 4, block, 0
      ensures |pageRelations| >= |old(pageRelations)| + LegacyChildLinks(block, 0)
      ensures Extends(old(preparedPages), preparedPages) && old(pageRelations) <= pageRelations
    {
      var i := 0;
      while i < |block.children|
        invariant 0 <= i <= |block.children|
        invariant |pageRelations| + LegacyChildLinks(block, i) >= |old(pageRelations)| + LegacyChildLinks(block, 0)
        invariant Extends(old(preparedPages), preparedPages) && old(pageRelations) <= pageRelations
      {
        ghost var pages0 := preparedPages;
        ProcessChildBlock(block, i, parentId, depth);
        ExtendsTrans(old(preparedPages), pages0, preparedPages);
        i := i + 1;
      }
    }

    /** One child of a block, in the loop over its children. */
    method ProcessChildBlock(block: Block, i: nat, parentId: string, depth: int)
      requires i < |block.children|
      modifies this
      decreases Budget(depth), 4, block, 0, 0
      ensures |pageRelations| >= |old(pageRelations)| + LegacyBlockLinks(block.children[i])
      ensures Extends(old(preparedPages), preparedPages) && old(pageRelations) <= pageRelations
    {
      assert block.children[i] in block.children;
      RecursiveProcessBlock(block.children[i], parentId, depth);
    }

    /** The rich-text loop of `recursive_process_block`: a page relation
        for an href that is a notion link, else a bookmark relation, both
        with the whole text as context. */
    method ProcessRichTextLinks(rts: seq<RichText>, parentId: string, depth: int)
      modifies this
      decreases Budget(depth), 3
      ensures |pageRelations| >= |old(pageRelations)| + HrefCount(rts)
      ensures HrefCount(rts) == 0 ==> preparedPages == old(preparedPages) && pageRelations == old(pageRelations)
      ensures Extends(old(preparedPages), preparedPages) && old(pageRelations) <= pageRelations
    {
      var i := 0;
      while i < |rts|
        invariant 0 <= i <= |rts|
        invariant |pageRelations| >= |old(pageRelations)| + HrefCount(rts[..i])
        invariant HrefCount(rts[..i]) == 0 ==> preparedPages == old(preparedPages) && pageRelations == old(pageRelations)
        invariant Extends(old(preparedPages), preparedPages) && old(pageRelations) <= pageRelations
      {
        HrefCountStep(rts, i);
        ghost var pages0 := preparedPages;
        ProcessRichTextLink(rts[i], rts, parentId, depth);
        ExtendsTrans(old(preparedPages), pages0, preparedPages);
        i := i + 1;
      }
      assert rts[..i] == rts;
    }

    /** One element of that loop: for an href, a page relation when it is
        a notion link, else a bookmark relation, both with the whole text
        as context, then the target; nothing without an href. */
    method ProcessRichTextLink(text: RichText, rts: seq<RichText>, parentId: string, depth: int)
      modifies this
      decreases Budget(depth), 3, 0
      ensures HasHref(text) ==> |pageRelations| > |old(pageRelations)|
      ensures HasHref(text) && ExtractUuid(text.href.value).Some? ==>
        pageRelations[|old(pageRelations)|] ==
          GraphRelation(parentId, REFERENCES, ExtractUuid(text.href.value).value, Some(PlainText(rts)))
      ensures HasHref(text) && ExtractUuid(text.href.value).None? ==>
        pageRelations[|old(pageRelations)|] ==
          GraphRelation(parentId, REFERENCES, text.href.value, Some(PlainText(rts))) &&
        text.href.value in preparedPages
      ensures !HasHref(text) ==> preparedPages == old(preparedPages) && pageRelations == old(pageRelations)
      ensures Extends(old(preparedPages), preparedPages) && old(pageRelations) <= pageRelations
    {
      if HasHref(text) {
        var href := text.href.value;
        var uuid := ExtractUuid(href);
        var context := Some(PlainText(rts));
        if uuid.Some? {
          AppendAndProcess(GraphRelation(parentId, REFERENCES, uuid.value, context), uuid.value, None, depth);
        } else {
          pageRelations := pageRelations + [GraphRelation(parentId, REFERENCES, href, context)];
          ProcessUnprocessedBookmark(href);
        }
      }
    }

    /** A relation appended, then its target processed as an unprocessed
        page. */
    method AppendAndProcess(relation: GraphRelation, pageId: string, isDatabase: Option<bool>, depth: int)
      modifies this
      decreases Budget(depth), 2
      ensures |pageRelations| > |old(pageRelations)| && pageRelations[|old(pageRelations)|] == relation
      ensures Extends(old(preparedPages), preparedPages) && old(pageRelations) <= pageRelations
    {
      pageRelations := pageRelations + [relation];
      ghost var relations0 := pageRelations;
      RecursiveProcessUnprocessedPage(pageId, isDatabase, None, depth);
      assert pageRelations[|old(pageRelations)|] == relations0[|old(pageRelations)|];
    }

    /** `process_unprocessed_bookmark`: a bookmark node for a new URL. */
    method ProcessUnprocessedBookmark(url: string)
      modifies this
      ensures url in old(preparedPages) ==> preparedPages == old(preparedPages)
      ensures url !in old(preparedPages) ==> preparedPages == old(preparedPages)[url := BookmarkPage(api, url)]
      ensures pageRelations == old(pageRelations)
    {
      if url !in preparedPages {
        preparedPages := preparedPages[url := BookmarkPage(api, url)];
      }
    }

    /** `recursive_process_unprocessed_page`: nothing for a raw id already
        stored, before any request, or when the metadata request fails;
        otherwise the page is stored, marked and left there when archived or
        trashed, and else its children are processed. */
    method RecursiveProcessUnprocessedPage(pageId: string, isDatabase: Option<bool>, pageInfo: Option<PageInfo>, depth: int)
      modifies this
      decreases Budget(depth), 1
      ensures pageId in old(preparedPages) || Fetched(api, pageId, isDatabase, pageInfo).None? ==>
        preparedPages == old(preparedPages) && pageRelations == old(pageRelations)
      ensures var info := Fetched(api, pageId, isDatabase, pageInfo);
        pageId !in old(preparedPages) && info.Some? ==>
          pageId in preparedPages && preparedPages[pageId] == StoredPage(pageId, info.value)
      ensures var info := Fetched(api, pageId, isDatabase, pageInfo);
        pageId !in old(preparedPages) && info.Some? &&
        (info.value.archived || info.value.inTrash || depth + 1 >= maxDepth) ==>
          preparedPages == old(preparedPages)[pageId := StoredPage(pageId, info.value)] &&
          pageRelations == old(pageRelations)
      ensures var info := Fetched(api, pageId, isDatabase, pageInfo);
        pageId !in old(preparedPages) && info.Some? && !info.value.archived && !info.value.inTrash &&
        depth + 1 < maxDepth ==>
          |pageRelations| >= |old(pageRelations)| + LegacyPageLinks(api, info.value)
      ensures Extends(old(preparedPages), preparedPages) && old(pageRelations) <= pageRelations
    {
      if pageId in preparedPages {
        return;
      }
      var info := pageInfo;
      if info.None? {
        var source := match isDatabase
          case None => api.rootInfo
          case Some(true) => api.databaseInfo
          case Some(false) => api.pageInfo;
        if pageId !in source {
          return;
        }
        info := Some(source[pageId]);
      }
      assert info == Fetched(api, pageId, isDatabase, pageInfo);
      // The source marks an archived page through the reference it has
      // just stored; nothing reads the entry in between, so the marked page
      // is stored at once.
      preparedPages := preparedPages[pageId := StoredPage(pageId, info.value)];
      if info.value.archived || info.value.inTrash {
        return;
      }
      ghost var pages0 := preparedPages;
      RecursiveProcessPageChildren(info.value, depth);
      ExtendsTrans(old(preparedPages), pages0, preparedPages);
    }

    /** `_process_block_md` */
    method ProcessBlockMarkdown(block: Block) returns (content: Option<string>)
      ensures content == BlockText(MojibakeBullet, block)
    {
      content := ProcessBlock(MojibakeBullet, block);
    }
  }
}
