/**
 * The orphan-relation policy of `graph_rag/processor/graph_builder.py`
 * (repeated line for line in `graph_rag/pipeline/data_processing_pipeline.py`):
 * before relations are linked in the graph, either every missing endpoint
 * gets an "Unprocessed" stub page, or every relation with a missing
 * endpoint is dropped. The graph database calls are not modelled.
 */
module GraphBuilder {
  import opened Wrappers
  import opened GraphDataClasses

  /** Both endpoints of `r` are pages. */
  predicate Linked(pages: map<string, GraphPage>, r: GraphRelation) {
    r.fromPageId in pages && r.toPageId in pages
  }

  // ---------------------------------------------------------------------
  // `clean_orphan_relations`

  /** The relations whose two endpoints are pages, in their order. */
  function CleanOrphanRelations(pages: map<string, GraphPage>, relations: seq<GraphRelation>): (kept: seq<GraphRelation>)
    ensures |kept| <= |relations|
    ensures forall r :: r in kept <==> r in relations && Linked(pages, r)
  {
    if relations == [] then []
    else (if Linked(pages, relations[0]) then [relations[0]] else []) + CleanOrphanRelations(pages, relations[1..])
  }

  /** Filtering a concatenation filters each part and keeps them in order:
      relative order is preserved. */
  lemma {:induction false} CleanSplit(pages: map<string, GraphPage>, a: seq<GraphRelation>, b: seq<GraphRelation>)
    ensures CleanOrphanRelations(pages, a + b) == CleanOrphanRelations(pages, a) + CleanOrphanRelations(pages, b)
    decreases |a|
  {
    if a != [] {
      assert (a + b)[0] == a[0];
      assert (a + b)[1..] == a[1..] + b;
      CleanSplit(pages, a[1..], b);
    } else {
      assert a + b == b;
    }
  }

  /** Relations whose endpoints are all pages are kept as they are. */
  lemma {:induction false} CleanKeepsLinked(pages: map<string, GraphPage>, relations: seq<GraphRelation>)
    requires forall r :: r in relations ==> Linked(pages, r)
    ensures CleanOrphanRelations(pages, relations) == relations
    decreases |relations|
  {
    if relations != [] {
      assert relations[0] in relations;
      assert forall r :: r in relations[1..] ==> r in relations;
      CleanKeepsLinked(pages, relations[1..]);
    }
  }

  /** Cleaning twice is cleaning once. */
  lemma CleanIdempotent(pages: map<string, GraphPage>, relations: seq<GraphRelation>)
    ensures CleanOrphanRelations(pages, CleanOrphanRelations(pages, relations)) == CleanOrphanRelations(pages, relations)
  {
    CleanKeepsLinked(pages, CleanOrphanRelations(pages, relations));
  }

  // ---------------------------------------------------------------------
  // `add_missing_page` and `add_missing_pages`

  /** The page `add_missing_page` stores for an id no page has. */
  function Stub(id: string, source: string): (p: GraphPage)
    ensures p.id == id && p.title == "Unprocessed" && p.pageType == PAGE && p.url == "" && p.source == source
    ensures p.content == None && p.lastEditedTime == None && p.chunks == []
  {
    NewPage(id, "Unprocessed", PAGE, "").(source := source)
  }

  /** The source of page `id` when it is present, else `"Unknown"`. */
  function SourceOr(pages: map<string, GraphPage>, id: string): string {
    if id in pages then pages[id].source else "Unknown"
  }

  /** One turn of `add_missing_pages`: a stub for each endpoint of `r` that
      is not a page, carrying the source of the other endpoint if that one
      was a page when the relation was examined. */
  function AddStubs(pages: map<string, GraphPage>, r: GraphRelation): (after: map<string, GraphPage>)
    ensures after.Keys == pages.Keys + {r.fromPageId, r.toPageId}
    ensures forall id :: id in pages ==> after[id] == pages[id]
    ensures r.fromPageId !in pages ==> after[r.fromPageId] == Stub(r.fromPageId, SourceOr(pages, r.toPageId))
    ensures r.toPageId !in pages ==> after[r.toPageId] == Stub(r.toPageId, SourceOr(pages, r.fromPageId))
  {
    var fromPrepared := r.fromPageId in pages;
    var toPrepared := r.toPageId in pages;
    var withFrom := if !fromPrepared then pages[r.fromPageId := Stub(r.fromPageId, SourceOr(pages, r.toPageId))] else pages;
    if !toPrepared then withFrom[r.toPageId := Stub(r.toPageId, SourceOr(pages, r.fromPageId))] else withFrom
  }

  /** `add_missing_pages(pages, relations)`: the turns over the relations
      in order. Pages already there are never replaced. */
  function WithStubs(pages: map<string, GraphPage>, relations: seq<GraphRelation>): (after: map<string, GraphPage>)
    ensures pages.Keys <= after.Keys
    ensures forall id :: id in pages ==> after[id] == pages[id]
    decreases |relations|
  {
    if relations == [] then pages else WithStubs(AddStubs(pages, relations[0]), relations[1..])
  }

  /** After the stubs are added, every endpoint of every relation is a page. */
  lemma {:induction false} StubsClose(pages: map<string, GraphPage>, relations: seq<GraphRelation>)
    ensures forall r :: r in relations ==> Linked(WithStubs(pages, relations), r)
    decreases |relations|
  {
    if relations != [] {
      StubsClose(AddStubs(pages, relations[0]), relations[1..]);
      assert forall r :: r in relations ==> r == relations[0] || r in relations[1..];
    }
  }

  /** Every page that was not there before is a stub for an endpoint of some
      relation, its source `"Unknown"` or that of another page. */
  lemma {:induction false} StubsOnlyForEndpoints(pages: map<string, GraphPage>, relations: seq<GraphRelation>)
    ensures var after := WithStubs(pages, relations);
      forall id :: id in after && id !in pages ==>
        (exists r :: r in relations && (id == r.fromPageId || id == r.toPageId)) &&
        (after[id] == Stub(id, "Unknown") || exists other :: other in after && other != id && after[id] == Stub(id, after[other].source))
    decreases |relations|
  {
    if relations != [] {
      var r := relations[0];
      var next := AddStubs(pages, r);
      var after := WithStubs(pages, relations);
      StubsOnlyForEndpoints(next, relations[1..]);
      forall id | id in after && id !in pages
        ensures (exists r :: r in relations && (id == r.fromPageId || id == r.toPageId)) &&
          (after[id] == Stub(id, "Unknown") || exists other :: other in after && other != id && after[id] == Stub(id, after[other].source))
      {
        if id in next {
          assert r in relations;
          assert after[id] == next[id];
          if id == r.fromPageId && r.toPageId in pages && r.toPageId != id {
            assert after[id] == Stub(id, after[r.toPageId].source);
          } else if id == r.toPageId && r.fromPageId in pages && r.fromPageId != id {
            assert after[id] == Stub(id, after[r.fromPageId].source);
          } else {
            assert after[id] == Stub(id, "Unknown");
          }
        } else {
          var r' :| r' in relations[1..] && (id == r'.fromPageId || id == r'.toPageId);
          assert r' in relations;
        }
      }
    }
  }

  /** When every endpoint is already a page, nothing is added. */
  lemma {:induction false} StubsNoneMissing(pages: map<string, GraphPage>, relations: seq<GraphRelation>)
    requires forall r :: r in relations ==> Linked(pages, r)
    ensures WithStubs(pages, relations) == pages
    decreases |relations|
  {
    if relations != [] {
      assert relations[0] in relations;
      assert AddStubs(pages, relations[0]) == pages;
      assert forall r :: r in relations[1..] ==> r in relations;
      StubsNoneMissing(pages, relations[1..]);
    }
  }

  /** After the stubs are added there is nothing left for the other policy
      to drop. */
  lemma StubsLeaveNothingToClean(pages: map<string, GraphPage>, relations: seq<GraphRelation>)
    ensures CleanOrphanRelations(WithStubs(pages, relations), relations) == relations
  {
    StubsClose(pages, relations);
    CleanKeepsLinked(WithStubs(pages, relations), relations);
  }

  /** The turns from relation `i` on: relation `i`'s, then the rest. */
  lemma StubsStep(pages: map<string, GraphPage>, relations: seq<GraphRelation>, i: nat)
    requires i < |relations|
    ensures WithStubs(pages, relations[i..]) == WithStubs(AddStubs(pages, relations[i]), relations[i + 1..])
  {
    assert relations[i..][1..] == relations[i + 1..];
  }

  /** `add_missing_page(page_id, prepared_pages, source)` */
  method AddMissingPage(pageId: string, data: ProcessedData, source: string)
    modifies data
    ensures data.pages == old(data.pages)[pageId := Stub(pageId, source)]
    ensures data.relations == old(data.relations)
  {
    var newPage := Stub(pageId, source);
    data.pages := data.pages[pageId := newPage];
  }

  /** `add_missing_pages(processed_data.pages, processed_data.relations)` */
  method AddMissingPages(data: ProcessedData)
    modifies data
    ensures data.pages == WithStubs(old(data.pages), old(data.relations))
    ensures data.relations == old(data.relations)
    ensures forall r :: r in data.relations ==> Linked(data.pages, r)
  {
    var i := 0;
    while i < |data.relations|
      invariant 0 <= i <= |data.relations|
      invariant data.relations == old(data.relations)
      invariant WithStubs(data.pages, data.relations[i..]) == WithStubs(old(data.pages), old(data.relations))
    {
      var relation := data.relations[i];
      ghost var before := data.pages;
      var isFromPagePrepared := relation.fromPageId in data.pages;
      var isToPagePrepared := relation.toPageId in data.pages;
      if !isFromPagePrepared {
        AddMissingPage(relation.fromPageId, data, if isToPagePrepared then data.pages[relation.toPageId].source else "Unknown");
      }
      if !isToPagePrepared {
        AddMissingPage(relation.toPageId, data, if isFromPagePrepared then data.pages[relation.fromPageId].source else "Unknown");
      }
      assert data.pages == AddStubs(before, relation);
      StubsStep(before, data.relations, i);
      i := i + 1;
    }
    StubsClose(old(data.pages), old(data.relations));
  }

  // ---------------------------------------------------------------------
  // `handle_orphan_relations` and `_process`

  /** `handle_orphan_relations(processed_data)`: exactly one policy, chosen
      by `NOTION_CREATE_UNPROCESSED_NODES`. Either way every remaining
      relation then joins two pages. */
  method HandleOrphanRelations(createUnprocessedNodes: bool, data: ProcessedData)
    modifies data
    ensures createUnprocessedNodes ==>
      data.pages == WithStubs(old(data.pages), old(data.relations)) && data.relations == old(data.relations)
    ensures !createUnprocessedNodes ==>
      data.pages == old(data.pages) && data.relations == CleanOrphanRelations(old(data.pages), old(data.relations))
    ensures forall r :: r in data.relations ==> Linked(data.pages, r)
  {
    if createUnprocessedNodes {
      AddMissingPages(data);
    } else {
      data.relations := CleanOrphanRelations(data.pages, data.relations);
    }
  }

  /** `GraphBuilder._process(processed_data)`: node creation is given every
      page present before orphans are handled; the relations it then links
      are those left by the policy, each joining two pages. */
  method BuildGraph(createUnprocessedNodes: bool, data: ProcessedData) returns (nodes: set<GraphPage>, links: seq<GraphRelation>)
    modifies data
    ensures nodes == old(data.pages).Values
    ensures createUnprocessedNodes ==>
      data.pages == WithStubs(old(data.pages), old(data.relations)) && links == old(data.relations)
    ensures !createUnprocessedNodes ==>
      data.pages == old(data.pages) && links == CleanOrphanRelations(old(data.pages), old(data.relations))
    ensures links == data.relations
    ensures forall r :: r in links ==> Linked(data.pages, r)
  {
    nodes := data.pages.Values;
    HandleOrphanRelations(createUnprocessedNodes, data);
    links := data.relations;
  }
}
