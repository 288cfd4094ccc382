/**
 * The oldest walker (`src/processor`). It has no depth limit: the only
 * guard against revisiting a page is whether its raw id is already stored.
 * Block requests are not guarded, so a failing one aborts the whole walk;
 * every method reports that as `raised`. Termination follows from the
 * number of page ids the API can answer for that are not stored yet.
 */
module SrcProcessor {
  import opened Wrappers
  import opened GraphDataClasses
  import opened NotionRecords
  import opened NotionProcessor
  import opened LegacyBlocks
  import SrcGraphRagProcessor

  /** `properties[name]`: the last entry with that name, as a dictionary
      built from the list would keep. */
  function PropertyNamed(props: seq<(string, Property)>, name: string): (r: Option<Property>)
    ensures r.Some? ==> exists i :: 0 <= i < |props| && props[i] == (name, r.value)
    ensures r.None? ==> forall i :: 0 <= i < |props| ==> props[i].0 != name
  {
    if props == [] then None
    else if props[|props| - 1].0 == name then Some(props[|props| - 1].1)
    else PropertyNamed(props[..|props| - 1], name)
  }

  /** One step of `_extract_title` for the property `name`: `None` to go on
      to the next step, `Some(None)` where `prop['title']` raises because
      the property is not a title, `Some(Some(t))` for a non-empty title. */
  function NamedStep(props: seq<(string, Property)>, name: string): Option<Option<string>> {
    match PropertyNamed(props, name)
    case None => None
    case Some(p) =>
      if !p.value.Title? then Some(None)
      else if p.value.title == [] then None
      else Some(Some(p.value.title[0].plainText))
  }

  /** `_extract_title`: a non-empty top-level title, else the property
      `Name`, else the property `Page`, else `'Untitled'`. `None` where the
      lookup of `['title']` raises. */
  function NamedTitle(info: PageInfo): Option<string> {
    if info.title.Some? && info.title.value != [] then Some(info.title.value[0].plainText)
    else match NamedStep(info.properties, "Name")
      case Some(t) => t
      case None =>
        match NamedStep(info.properties, "Page")
        case Some(t) => t
        case None => Some("Untitled")
  }

  /** The title steps in their order: the top-level title wins, then
      `Name`, then `Page`; a page with neither property gets the top-level
      title or `'Untitled'`, as the depth-limited walker would give it. */
  lemma NamedTitleOrder(info: PageInfo)
    ensures info.title.Some? && info.title.value != [] ==>
      NamedTitle(info) == Some(SrcGraphRagProcessor.TopTitle(info))
    ensures PropertyNamed(info.properties, "Name").None? && PropertyNamed(info.properties, "Page").None? ==>
      NamedTitle(info) == Some(SrcGraphRagProcessor.TopTitle(info))
    ensures (info.title.None? || info.title.value == []) && NamedStep(info.properties, "Name").Some? ==>
      NamedTitle(info) == NamedStep(info.properties, "Name").value
    ensures NamedTitle(info).None? <==>
      (info.title.None? || info.title.value == []) &&
      (NamedStep(info.properties, "Name") == Some(None) ||
       (NamedStep(info.properties, "Name").None? && NamedStep(info.properties, "Page") == Some(None)))
  {
  }

  /** A `Name` title property is found wherever it sits in the list. */
  lemma NameTitleFound(info: PageInfo, before: seq<(string, Property)>, after: seq<(string, Property)>, text: string)
    requires info.title.None?
    requires info.properties == before + [("Name", TitleProperty(text))] + after
    requires forall i :: 0 <= i < |after| ==> after[i].0 != "Name"
    requires text != ""
    ensures NamedTitle(info) == Some(text)
  {
    NamedAfterUnnamed(before + [("Name", TitleProperty(text))], after, "Name");
    var ps := before + [("Name", TitleProperty(text))];
    assert ps[..|ps| - 1] == before;
  }

  lemma {:induction false} NamedAfterUnnamed(ps: seq<(string, Property)>, after: seq<(string, Property)>, name: string)
    requires forall i :: 0 <= i < |after| ==> after[i].0 != name
    ensures PropertyNamed(ps + after, name) == PropertyNamed(ps, name)
  {
    if after != [] {
      var all := ps + after;
      assert all[..|all| - 1] == ps + after[..|after| - 1];
      assert all[|all| - 1] == after[|after| - 1];
      NamedAfterUnnamed(ps, after[..|after| - 1], name);
    } else {
      assert ps + after == ps;
    }
  }

  /** The ids the API can answer metadata for: the three metadata requests'
      keys and every database item. */
  function Universe(api: Api): set<string> {
    api.rootInfo.Keys + api.pageInfo.Keys + api.databaseInfo.Keys +
    (set k, p | k in api.databaseItems && p in api.databaseItems[k] :: p.id)
  }

  /** `u` holds every id the API can answer metadata for. */
  predicate Covers(api: Api, u: set<string>) {
    api.rootInfo.Keys <= u && api.pageInfo.Keys <= u && api.databaseInfo.Keys <= u &&
    forall k, p :: k in api.databaseItems && p in api.databaseItems[k] ==> p.id in u
  }

  lemma UniverseCovers(api: Api)
    ensures Covers(api, Universe(api))
  {
  }

  lemma {:induction false} SubsetCard(a: set<string>, b: set<string>)
    requires a <= b
    ensures |a| <= |b|
    decreases a
  {
    if a != {} {
      var x :| x in a;
      SubsetCard(a - {x}, b - {x});
    }
  }

  /** How many ids of `u` have no stored page yet. */
  function Unvisited(u: set<string>, pages: map<string, GraphPage>): nat {
    |u - pages.Keys|
  }

  /** Storing more pages never raises the number of unvisited ids. */
  lemma UnvisitedShrinks(u: set<string>, before: map<string, GraphPage>, after: map<string, GraphPage>)
    requires Extends(before, after)
    ensures Unvisited(u, after) <= Unvisited(u, before)
  {
    SubsetCard(u - after.Keys, u - before.Keys);
  }

  /** Storing an unvisited id lowers it. */
  lemma UnvisitedDrops(u: set<string>, pages: map<string, GraphPage>, id: string, page: GraphPage)
    requires id in u && id !in pages
    ensures Unvisited(u, pages[id := page]) < Unvisited(u, pages)
  {
    assert u - pages[id := page].Keys == (u - pages.Keys) - {id};
  }

  /** A prefix has no more hrefs than the whole. */
  lemma {:induction false} HrefCountPrefix(rts: seq<RichText>, j: nat)
    requires j <= |rts|
    ensures HrefCount(rts[..j]) <= HrefCount(rts)
    decreases |rts|
  {
    if j < |rts| {
      var init := rts[..|rts| - 1];
      assert init[..j] == rts[..j];
      HrefCountPrefix(init, j);
    } else {
      assert rts[..j] == rts;
    }
  }

  /** The page `recursive_process_unprocessed_page` stores. */
  function StoredPage(id: string, info: PageInfo, title: string): (p: GraphPage)
    ensures p.id == id && (info.archived || info.inTrash <==> p.title == "[ARCHIVED] " + title)
  {
    LegacyPage(id, info, ArchivedTitle(info, title))
  }

  class UnboundedProcessor {
    const api: Api
    /** The ids the walk can store pages under, besides the root's. */
    ghost const universe: set<string>
    var preparedPages: map<string, GraphPage>
    var pageRelations: seq<GraphRelation>

    constructor (api: Api)
      ensures this.api == api && preparedPages == map[] && pageRelations == []
      ensures Covers(api, universe)
    {
      this.api := api;
      universe := Universe(api);
      UniverseCovers(api);
      preparedPages := map[];
      pageRelations := [];
    }

    /** `process_pages`: the root page under its raw id, over any earlier
        entry, then its children. `raised` where the root request, the
        title or a block request raises. */
    method ProcessPages(rootPageId: string) returns (raised: bool)
      requires Covers(api, universe)
      modifies this
      ensures rootPageId !in api.rootInfo || NamedTitle(api.rootInfo[rootPageId]).None? ==>
        raised && preparedPages == old(preparedPages) && pageRelations == old(pageRelations)
      ensures rootPageId in api.rootInfo && NamedTitle(api.rootInfo[rootPageId]).Some? ==>
        var root := api.rootInfo[rootPageId];
        Extends(old(preparedPages)[root.id := LegacyPage(root.id, root, NamedTitle(root).value)], preparedPages) &&
        old(pageRelations) <= pageRelations &&
        (!raised ==> |pageRelations| >= |old(pageRelations)| + LegacyPageLinks(api, root))
    {
      if rootPageId !in api.rootInfo {
        return true;
      }
      var root := api.rootInfo[rootPageId];
      var title := NamedTitle(root);
      if title.None? {
        return true;
      }
      preparedPages := preparedPages[root.id := LegacyPage(root.id, root, title.value)];
      raised := RecursiveProcessPageChildren(root);
    }

    /** `recursive_process_page_children`: the database items, each after
        its relation, then the top-level blocks; a failed block request
        raises. */
    method RecursiveProcessPageChildren(info: PageInfo) returns (raised: bool)
      requires Covers(api, universe)
      modifies this
      decreases Unvisited(universe, preparedPages), 4
      ensures !raised ==> |pageRelations| >= |old(pageRelations)| + LegacyPageLinks(api, info)
      ensures info.id !in api.contentBlocks ==> raised
      ensures Extends(old(preparedPages), preparedPages) && old(pageRelations) <= pageRelations
    {
      ghost var dbLinks := 0;
      if info.objectKind == DatabaseObject {
        raised := ProcessDatabaseItems(info.id);
        if raised {
          return;
        }
        dbLinks := |api.DatabaseItems(info.id)|;
      }
      if info.id !in api.contentBlocks {
        return true;
      }
      ghost var pages1, relations1 := preparedPages, pageRelations;
      UnvisitedShrinks(universe, old(preparedPages), preparedPages);
      raised := ParseBlocks(info.id, api.contentBlocks[info.id]);
      ExtendsTrans(old(preparedPages), pages1, preparedPages);
    }

    /** The block loop of `recursive_process_page_children`. */
    method ParseBlocks(pageId: string, blocks: seq<Block>) returns (raised: bool)
      requires Covers(api, universe)
      modifies this
      decreases Unvisited(universe, preparedPages), 4, 1
      ensures !raised ==> |pageRelations| >= |old(pageRelations)| + LegacyBlocksLinks(blocks)
      ensures Extends(old(preparedPages), preparedPages) && old(pageRelations) <= pageRelations
    {
      var j := 0;
      while j < |blocks|
        invariant 0 <= j <= |blocks|
        invariant |pageRelations| >= |old(pageRelations)| + LegacyBlocksLinks(blocks[..j])
        invariant Extends(old(preparedPages), preparedPages) && old(pageRelations) <= pageRelations
      {
        ghost var pages0 := preparedPages;
        UnvisitedShrinks(universe, old(preparedPages), preparedPages);
        raised := RecursiveParseBlock(blocks[j], pageId);
        ExtendsTrans(old(preparedPages), pages0, preparedPages);
        if raised {
          return;
        }
        assert blocks[..j + 1][..j] == blocks[..j];
        j := j + 1;
      }
      assert blocks[..j] == blocks;
      return false;
    }

    /** The database loop of `recursive_process_page_children`: for each
        item, the relation from the database, then the item itself. */
    method ProcessDatabaseItems(databaseId: string) returns (raised: bool)
      requires Covers(api, universe)
      modifies this
      decreases Unvisited(universe, preparedPages), 4, 0
      ensures !raised ==> |pageRelations| >= |old(pageRelations)| + |api.DatabaseItems(databaseId)|
      ensures Extends(old(preparedPages), preparedPages) && old(pageRelations) <= pageRelations
    {
      var items := api.DatabaseItems(databaseId);
      var i := 0;
      while i < |items|
        invariant 0 <= i <= |items|
        invariant |pageRelations| >= |old(pageRelations)| + i
        invariant Extends(old(preparedPages), preparedPages) && old(pageRelations) <= pageRelations
      {
        ghost var pages0 := preparedPages;
        UnvisitedShrinks(universe, old(preparedPages), preparedPages);
        assert items[i] in api.databaseItems[databaseId];
        raised := AppendAndVisit(GraphRelation(databaseId, CONTAINS, items[i].id, None), items[i].id, None, Some(items[i]));
        ExtendsTrans(old(preparedPages), pages0, preparedPages);
        if raised {
          return;
        }
        i := i + 1;
      }
      return false;
    }

    /** `recursive_parse_block`: the block's own relations, then the
        children of any supported block that has some; a failed children
        request raises. */
    method RecursiveParseBlock(block: Block, parentId: string) returns (raised: bool)
      requires Covers(api, universe)
      modifies this
      decreases Unvisited(universe, preparedPages), 3, block
      ensures Extends(old(preparedPages), preparedPages) && old(pageRelations) <= pageRelations
      ensures IsChildPage(block.data) || block.data.LinkToPage? || IsUrlBlock(block.data) ==>
        |pageRelations| > |old(pageRelations)|
      ensures !raised ==> |pageRelations| >= |old(pageRelations)| + LegacyBlockLinks(block)
      ensures IsChildPage(block.data) ==>
        pageRelations[|old(pageRelations)|] == GraphRelation(parentId, CONTAINS, block.id, None)
      ensures block.data.LinkToPage? ==>
        pageRelations[|old(pageRelations)|] == GraphRelation(parentId, REFERENCES, block.data.target, None)
      ensures IsUrlBlock(block.data) ==>
        pageRelations[|old(pageRelations)|] == GraphRelation(parentId, REFERENCES, block.data.url, None) &&
        block.data.url in preparedPages
      ensures block.data.Unsupported? ==>
        !raised && preparedPages == old(preparedPages) && pageRelations == old(pageRelations)
    {
      raised := ParseOwnBlock(block, parentId);
      if raised || block.data.Unsupported? || !block.hasChildren {
        return;
      }
      if !block.childrenFetched {
        return true;
      }
      ghost var pages0, relations0 := preparedPages, pageRelations;
      UnvisitedShrinks(universe, old(preparedPages), preparedPages);
      raised := ParseChildBlocks(block, parentId);
      assert IsUrlBlock(block.data) ==> block.data.url in pages0;
      assert |relations0| > |old(pageRelations)| ==> pageRelations[|old(pageRelations)|] == relations0[|old(pageRelations)|];
      ExtendsTrans(old(preparedPages), pages0, preparedPages);
    }

    /** The branch of `recursive_parse_block` on the block's type: the
        relation for a child page, page link or url block, with raw ids,
        before its target is processed, and a relation per href in rich
        text. */
    method ParseOwnBlock(block: Block, parentId: string) returns (raised: bool)
      requires Covers(api, universe)
      modifies this
      decreases Unvisited(universe, preparedPages), 3, block, 1
      ensures Extends(old(preparedPages), preparedPages) && old(pageRelations) <= pageRelations
      ensures IsChildPage(block.data) || block.data.LinkToPage? || IsUrlBlock(block.data) ==>
        |pageRelations| > |old(pageRelations)|
      ensures !raised ==> |pageRelations| >= |old(pageRelations)| + LegacyOwnLinks(block.data)
      ensures IsChildPage(block.data) ==>
        pageRelations[|old(pageRelations)|] == GraphRelation(parentId, CONTAINS, block.id, None)
      ensures block.data.LinkToPage? ==>
        pageRelations[|old(pageRelations)|] == GraphRelation(parentId, REFERENCES, block.data.target, None)
      ensures IsUrlBlock(block.data) ==>
        pageRelations[|old(pageRelations)|] == GraphRelation(parentId, REFERENCES, block.data.url, None) &&
        block.data.url in preparedPages
      ensures (!IsChildPage(block.data) && !block.data.LinkToPage? && !IsRichTextBlock(block.data) &&
               !IsUrlBlock(block.data)) ==>
        !raised && preparedPages == old(preparedPages) && pageRelations == old(pageRelations)
    {
      var data := block.data;
      raised := false;
      if IsChildPage(data) {
        raised := AppendAndVisit(GraphRelation(parentId, CONTAINS, block.id, None), block.id, Some(data.ChildDatabase?), None);
      } else if data.LinkToPage? {
        raised := AppendAndVisit(GraphRelation(parentId, REFERENCES, data.target, None), data.target, None, None);
      } else if IsRichTextBlock(data) {
        raised := ProcessRichTextLinks(data.richText, parentId);
      } else if IsUrlBlock(data) {
        pageRelations := pageRelations + [GraphRelation(parentId, REFERENCES, data.url, None)];
        ProcessUnprocessedBookmark(data.url);
      }
    }

    /** The loop of `recursive_parse_block` over a block's children. */
    method ParseChildBlocks(block: Block, parentId: string) returns (raised: bool)
      requires Covers(api, universe)
      modifies this
      decreases Unvisited(universe, preparedPages), 3, block, 0
      ensures !raised ==> |pageRelations| >= |old(pageRelations)| + LegacyChildLinks(block, 0)
      ensures Extends(old(preparedPages), preparedPages) && old(pageRelations) <= pageRelations
    {
      var i := 0;
      while i < |block.children|
        invariant 0 <= i <= |block.children|
        invariant |pageRelations| + LegacyChildLinks(block, i) >= |old(pageRelations)| + LegacyChildLinks(block, 0)
        invariant Extends(old(preparedPages), preparedPages) && old(pageRelations) <= pageRelations
      {
        ghost var pages0 := preparedPages;
        UnvisitedShrinks(universe, old(preparedPages), preparedPages);
        raised := ParseChildBlock(block, i, parentId);
        ExtendsTrans(old(preparedPages), pages0, preparedPages);
        if raised {
          return;
        }
        i := i + 1;
      }
      return false;
    }

    /** One child of a block, in the loop over its children. */
    method ParseChildBlock(block: Block, i: nat, parentId: string) returns (raised: bool)
      requires Covers(api, universe) && i < |block.children|
      modifies this
      decreases Unvisited(universe, preparedPages), 3, block, 0, 0
      ensures !raised ==> |pageRelations| >= |old(pageRelations)| + LegacyBlockLinks(block.children[i])
      ensures Extends(old(preparedPages), preparedPages) && old(pageRelations) <= pageRelations
    {
      assert block.children[i] in block.children;
      raised := RecursiveParseBlock(block.children[i], parentId);
    }

    /** The rich-text loop of `recursive_parse_block`. */
    method ProcessRichTextLinks(rts: seq<RichText>, parentId: string) returns (raised: bool)
      requires Covers(api, universe)
      modifies this
      decreases Unvisited(universe, preparedPages), 2
      ensures !raised ==> |pageRelations| >= |old(pageRelations)| + HrefCount(rts)
      ensures HrefCount(rts) == 0 ==>
        !raised && preparedPages == old(preparedPages) && pageRelations == old(pageRelations)
      ensures Extends(old(preparedPages), preparedPages) && old(pageRelations) <= pageRelations
    {
      var i := 0;
      while i < |rts|
        invariant 0 <= i <= |rts|
        invariant |pageRelations| >= |old(pageRelations)| + HrefCount(rts[..i])
        invariant HrefCount(rts[..i]) == 0 ==> preparedPages == old(preparedPages) && pageRelations == old(pageRelations)
        invariant Extends(old(preparedPages), preparedPages) && old(pageRelations) <= pageRelations
      {
        HrefCountStep(rts, i);
        ghost var pages0 := preparedPages;
        UnvisitedShrinks(universe, old(preparedPages), preparedPages);
        raised := ProcessRichTextLink(rts[i], rts, parentId);
        ExtendsTrans(old(preparedPages), pages0, preparedPages);
        if raised {
          HrefCountPrefix(rts, i + 1);
          return;
        }
        i := i + 1;
      }
      assert rts[..i] == rts;
      return false;
    }

    /** One element of that loop: for an href, a page relation when it is
        a notion link, else a bookmark relation, both with the whole text
        as context, then the target; nothing without an href. */
    method ProcessRichTextLink(text: RichText, rts: seq<RichText>, parentId: string) returns (raised: bool)
      requires Covers(api, universe)
      modifies this
      decreases Unvisited(universe, preparedPages), 2, 0
      ensures raised ==> HasHref(text)
      ensures HasHref(text) ==> |pageRelations| > |old(pageRelations)|
      ensures HasHref(text) && ExtractUuid(text.href.value).Some? ==>
        pageRelations[|old(pageRelations)|] ==
          GraphRelation(parentId, REFERENCES, ExtractUuid(text.href.value).value, Some(PlainText(rts)))
      ensures HasHref(text) && ExtractUuid(text.href.value).None? ==>
        pageRelations[|old(pageRelations)|] ==
          GraphRelation(parentId, REFERENCES, text.href.value, Some(PlainText(rts))) &&
        text.href.value in preparedPages
      ensures !HasHref(text) ==> preparedPages == old(preparedPages) && pageRelations == old(pageRelations)
      ensures Extends(old(preparedPages), preparedPages) && old(pageRelations) <= pageRelations
    {
      raised := false;
      if HasHref(text) {
        var href := text.href.value;
        var uuid := ExtractUuid(href);
        var context := Some(PlainText(rts));
        if uuid.Some? {
          raised := AppendAndVisit(GraphRelation(parentId, REFERENCES, uuid.value, context), uuid.value, None, None);
        } else {
          pageRelations := pageRelations + [GraphRelation(parentId, REFERENCES, href, context)];
          ProcessUnprocessedBookmark(href);
        }
      }
    }

    /** `process_unprocessed_bookmark`: a bookmark node for a new URL. */
    method ProcessUnprocessedBookmark(url: string)
      modifies this
      ensures url in old(preparedPages) ==> preparedPages == old(preparedPages)
      ensures url !in old(preparedPages) ==> preparedPages == old(preparedPages)[url := BookmarkPage(api, url)]
      ensures pageRelations == old(pageRelations)
    {
      if url !in preparedPages {
        preparedPages := preparedPages[url := BookmarkPage(api, url)];
      }
    }

    /** A relation, then the page it points to: the order every branch of
        `recursive_parse_block` and the database loop keep. */
    method AppendAndVisit(relation: GraphRelation, pageId: string, isDatabase: Option<bool>,
                          pageInfo: Option<PageInfo>) returns (raised: bool)
      requires Covers(api, universe) && (pageInfo.Some? ==> pageId in universe)
      modifies this
      decreases Unvisited(universe, preparedPages), 1
      ensures |pageRelations| > |old(pageRelations)| && pageRelations[|old(pageRelations)|] == relation
      ensures Extends(old(preparedPages), preparedPages) && old(pageRelations) <= pageRelations
    {
      pageRelations := pageRelations + [relation];
      UnvisitedShrinks(universe, old(preparedPages), preparedPages);
      raised := RecursiveProcessUnprocessedPage(pageId, isDatabase, pageInfo);
    }

    /** `recursive_process_unprocessed_page`: nothing for a raw id already
        stored or a failed metadata request; a title that raises aborts
        before anything is stored; otherwise the page is stored and
        walked. */
    method RecursiveProcessUnprocessedPage(pageId: string, isDatabase: Option<bool>, pageInfo: Option<PageInfo>)
      returns (raised: bool)
      requires Covers(api, universe) && (pageInfo.Some? ==> pageId in universe)
      modifies this
      decreases Unvisited(universe, preparedPages), 0
      ensures pageId in old(preparedPages) || Fetched(api, pageId, isDatabase, pageInfo).None? ==>
        !raised && preparedPages == old(preparedPages) && pageRelations == old(pageRelations)
      ensures var info := Fetched(api, pageId, isDatabase, pageInfo);
        pageId !in old(preparedPages) && info.Some? && NamedTitle(info.value).None? ==>
          raised && preparedPages == old(preparedPages) && pageRelations == old(pageRelations)
      ensures var info := Fetched(api, pageId, isDatabase, pageInfo);
        pageId !in old(preparedPages) && info.Some? && NamedTitle(info.value).Some? ==>
          Stored(pageId, info.value, NamedTitle(info.value).value, raised, old(preparedPages), old(pageRelations))
      ensures Extends(old(preparedPages), preparedPages) && old(pageRelations) <= pageRelations
    {
      if pageId in preparedPages {
        return false;
      }
      var info := pageInfo;
      if info.None? {
        var source := match isDatabase
          case None => api.rootInfo
          case Some(true) => api.databaseInfo
          case Some(false) => api.pageInfo;
        if pageId !in source {
          return false;
        }
        info := Some(source[pageId]);
      }
      assert info == Fetched(api, pageId, isDatabase, pageInfo);
      var title := NamedTitle(info.value);
      if title.None? {
        return true;
      }
      raised := StorePage(pageId, info.value, title.value);
    }

    /** What storing a fetched page under `title` does: the page is stored;
        an archived or trashed one is marked and not walked into. */
    ghost predicate Stored(pageId: string, info: PageInfo, title: string, raised: bool,
                           pages0: map<string, GraphPage>, relations0: seq<GraphRelation>)
      reads this
    {
      pageId in preparedPages && preparedPages[pageId] == StoredPage(pageId, info, title) &&
      ((info.archived || info.inTrash) ==>
        !raised && preparedPages == pages0[pageId := StoredPage(pageId, info, title)] &&
        pageRelations == relations0) &&
      (!info.archived && !info.inTrash && !raised ==>
        |pageRelations| >= |relations0| + LegacyPageLinks(api, info))
    }

    /** The part of `recursive_process_unprocessed_page` after the title. */
    method StorePage(pageId: string, info: PageInfo, title: string) returns (raised: bool)
      requires Covers(api, universe) && pageId in universe && pageId !in preparedPages
      modifies this
      decreases Unvisited(universe, preparedPages), 0, 0
      ensures Stored(pageId, info, title, raised, old(preparedPages), old(pageRelations))
      ensures Extends(old(preparedPages), preparedPages) && old(pageRelations) <= pageRelations
    {
      // The source marks an archived page through the reference it has
      // just stored; nothing reads the entry in between, so the marked page
      // is stored at once.
      var page := StoredPage(pageId, info, title);
      UnvisitedDrops(universe, preparedPages, pageId, page);
      preparedPages := preparedPages[pageId := page];
      assert Extends(old(preparedPages), preparedPages);
      if info.archived || info.inTrash {
        return false;
      }
      ghost var pages0 := preparedPages;
      raised := RecursiveProcessPageChildren(info);
      ExtendsTrans(old(preparedPages), pages0, preparedPages);
    }

    /** `_process_block` */
    method ProcessBlockText(block: Block) returns (content: Option<string>)
      ensures content == BlockText(Bullet, block)
    {
      content := ProcessBlock(Bullet, block);
    }
  }
}
