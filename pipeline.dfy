/**
 * `DataProcessingPipeline` of `graph_rag/pipeline/data_processing_pipeline.py`:
 * the data sources' pages and relations are merged into one
 * `ProcessedData`, the processors run over it in registration order, and
 * the orphan-relation policy (the same code as `GraphBuilder`'s, modelled
 * once in `GraphBuilder`) runs before the relations are linked. What a
 * source fetches is given as its result; a processor is given as the
 * change it makes to the pages and relations. As written, `run` calls
 * `process_data`, which `Processor` does not define; `RunAsWritten` models
 * that run and `Run` the intended one, which calls `process`.
 */
module Pipeline {
  import opened GraphDataClasses
  import opened GraphBuilder

  /** The pages and relations of a `ProcessedData`, as values. */
  datatype Snapshot = Snapshot(pages: map<string, GraphPage>, relations: seq<GraphRelation>)

  /** A processor's `process_data`, as the change it makes. */
  type Step = Snapshot -> Snapshot

  /** The merge of the sources' data, in order: `pages.update(...)` lets a
      later source's page replace an earlier one with the same id, and
      `relations.extend(...)` appends. */
  function Merge(sources: seq<Snapshot>): Snapshot
    decreases |sources|
  {
    if sources == [] then Snapshot(map[], [])
    else
      var before := Merge(sources[..|sources| - 1]);
      var last := sources[|sources| - 1];
      Snapshot(before.pages + last.pages, before.relations + last.relations)
  }

  /** Merging the sources of `a + b` is merging `a`'s, then `b`'s on top:
      relations keep source order, and `b`'s pages win over `a`'s. */
  lemma {:induction false} MergeAppend(a: seq<Snapshot>, b: seq<Snapshot>)
    ensures Merge(a + b).pages == Merge(a).pages + Merge(b).pages
    ensures Merge(a + b).relations == Merge(a).relations + Merge(b).relations
    decreases |b|
  {
    if b == [] {
      assert a + b == a;
    } else {
      var b' := b[..|b| - 1];
      var last := b[|b| - 1];
      assert Merge(a + b) == Snapshot(Merge(a + b').pages + last.pages, Merge(a + b').relations + last.relations) by {
        assert (a + b)[..|a + b| - 1] == a + b';
        assert (a + b)[|a + b| - 1] == last;
      }
      MergeAppend(a, b');
      UnionAssociates(Merge(a).pages, Merge(b').pages, last.pages);
      assert (Merge(a).relations + Merge(b').relations) + last.relations == Merge(a).relations + (Merge(b').relations + last.relations);
    }
  }

  /** Map union, where the right side wins, associates. */
  lemma UnionAssociates(x: map<string, GraphPage>, y: map<string, GraphPage>, z: map<string, GraphPage>)
    ensures (x + y) + z == x + (y + z)
  {
  }

  /** A page id is merged exactly when some source has it, and it holds the
      page of the last source that has it. */
  lemma {:induction false} MergePages(sources: seq<Snapshot>, id: string)
    ensures id in Merge(sources).pages <==> exists i :: 0 <= i < |sources| && id in sources[i].pages
    ensures forall i ::
      (0 <= i < |sources| && id in sources[i].pages && forall j :: i < j < |sources| ==> id !in sources[j].pages) ==>
      Merge(sources).pages[id] == sources[i].pages[id]
    decreases |sources|
  {
    if sources != [] {
      var init := sources[..|sources| - 1];
      MergePages(init, id);
      assert forall i :: 0 <= i < |init| ==> init[i] == sources[i];
    }
  }

  /** A relation is merged exactly when some source has it. */
  lemma {:induction false} MergeRelations(sources: seq<Snapshot>)
    ensures forall r :: r in Merge(sources).relations <==> exists i :: 0 <= i < |sources| && r in sources[i].relations
    decreases |sources|
  {
    if sources != [] {
      var init := sources[..|sources| - 1];
      MergeRelations(init);
      assert forall i :: 0 <= i < |init| ==> init[i] == sources[i];
    }
  }

  /** The processors in order, each on what the one before it left. */
  function ApplyAll(steps: seq<Step>, s: Snapshot): Snapshot
    decreases |steps|
  {
    if steps == [] then s else ApplyAll(steps[1..], steps[0](s))
  }

  /** Running `a + b` is running `a`, then `b` on its result. */
  lemma {:induction false} ApplyAllAppend(a: seq<Step>, b: seq<Step>, s: Snapshot)
    ensures ApplyAll(a + b, s) == ApplyAll(b, ApplyAll(a, s))
    decreases |a|
  {
    if a == [] {
      assert a + b == b;
    } else {
      assert (a + b)[0] == a[0];
      assert (a + b)[1..] == a[1..] + b;
      ApplyAllAppend(a[1..], b, a[0](s));
    }
  }

  class DataProcessingPipeline {
    var dataSources: seq<Snapshot>
    var processors: seq<Step>
    /** `NOTION_CREATE_UNPROCESSED_NODES` */
    const createUnprocessedNodes: bool

    constructor (createUnprocessedNodes: bool)
      ensures this.createUnprocessedNodes == createUnprocessedNodes
      ensures dataSources == [] && processors == []
    {
      this.createUnprocessedNodes := createUnprocessedNodes;
      dataSources := [];
      processors := [];
    }

    /** `add_data_source(data_source)` */
    method AddDataSource(source: Snapshot)
      modifies this
      ensures dataSources == old(dataSources) + [source]
      ensures processors == old(processors)
    {
      dataSources := dataSources + [source];
    }

    /** `add_processor(processor)` */
    method AddProcessor(processor: Step)
      modifies this
      ensures processors == old(processors) + [processor]
      ensures dataSources == old(dataSources)
    {
      processors := processors + [processor];
    }

    /** Step 1 of `run()`: a fresh `ProcessedData` holding the sources'
      pages and relations, merged in order. */
    method MergeSources() returns (data: ProcessedData)
      ensures fresh(data)
      ensures data.pages == Merge(dataSources).pages && data.relations == Merge(dataSources).relations
    {
      data := new ProcessedData(map[], []);
      var i := 0;
      while i < |dataSources|
        invariant 0 <= i <= |dataSources|
        invariant data.pages == Merge(dataSources[..i]).pages && data.relations == Merge(dataSources[..i]).relations
      {
        var sourceData := dataSources[i];
        assert dataSources[..i + 1][..i] == dataSources[..i];
        data.pages := data.pages + sourceData.pages;
        data.relations := data.relations + sourceData.relations;
        i := i + 1;
      }
      assert dataSources[..i] == dataSources;
    }

    /** `run()` as written: step 2 calls `processor.process_data(...)`, a
      method no processor has (the base class defines `process`), so the
      first registered processor raises `AttributeError`; only a pipeline
      without processors reaches the graph. */
    method RunAsWritten() returns (data: ProcessedData, raised: bool, nodes: set<GraphPage>, links: seq<GraphRelation>)
      ensures fresh(data)
      ensures raised <==> processors != []
      ensures raised ==>
        data.pages == Merge(dataSources).pages && data.relations == Merge(dataSources).relations &&
        nodes == {} && links == []
      ensures !raised ==> var s := Merge(dataSources);
        nodes == s.pages.Values &&
        (createUnprocessedNodes ==> data.pages == WithStubs(s.pages, s.relations) && data.relations == s.relations) &&
        (!createUnprocessedNodes ==> data.pages == s.pages && data.relations == CleanOrphanRelations(s.pages, s.relations)) &&
        links == data.relations
      ensures forall r :: r in links ==> Linked(data.pages, r)
    {
      data := MergeSources();
      if processors != [] {
        return data, true, {}, [];
      }
      raised := false;
      nodes, links := BuildGraph(createUnprocessedNodes, data);
    }

    /** `run()` as intended, each processor's `process` applied in turn:
      merge, process, handle orphans; `links` are the relations handed to
      the graph, each joining two pages. */
    method Run() returns (data: ProcessedData, nodes: set<GraphPage>, links: seq<GraphRelation>)
      ensures fresh(data)
      ensures var s := ApplyAll(processors, Merge(dataSources));
        nodes == s.pages.Values &&
        (createUnprocessedNodes ==> data.pages == WithStubs(s.pages, s.relations) && data.relations == s.relations) &&
        (!createUnprocessedNodes ==> data.pages == s.pages && data.relations == CleanOrphanRelations(s.pages, s.relations))
      ensures links == data.relations
      ensures forall r :: r in links ==> Linked(data.pages, r)
    {
      data := MergeSources();
      ghost var merged := Snapshot(data.pages, data.relations);
      var k := 0;
      while k < |processors|
        invariant 0 <= k <= |processors|
        invariant ApplyAll(processors, merged) == ApplyAll(processors[k..], Snapshot(data.pages, data.relations))
      {
        var after := processors[k](Snapshot(data.pages, data.relations));
        assert processors[k..][1..] == processors[k + 1..];
        data.pages, data.relations := after.pages, after.relations;
        k := k + 1;
      }
      assert processors[k..] == [];
      nodes, links := BuildGraph(createUnprocessedNodes, data);
    }
  }
}
