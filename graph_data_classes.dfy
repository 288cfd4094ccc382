/**
 * The graph records: page and relation types, pages, relations and the
 * pages-plus-relations bundle a source hands to the pipeline. `Chunk`, which
 * the chunkers import from this module, is declared beside the other records.
 */
module GraphDataClasses {
  import opened Wrappers
  import opened Text
  import opened Cacheable

  datatype RelationType = CONTAINS | REFERENCES
  datatype PageType = PAGE | DATABASE | BOOKMARK

  /** Enum member names and values, in declaration order. */
  const PageTypeMembers: seq<(string, string)> :=
    [("PAGE", "Page"), ("DATABASE", "Database"), ("BOOKMARK", "Bookmark")]
  const RelationTypeMembers: seq<(string, string)> :=
    [("CONTAINS", "CONTAINS"), ("REFERENCES", "REFERENCES")]

  function PageTypeIndex(t: PageType): (i: nat)
    ensures i < |PageTypeMembers|
  {
    match t
    case PAGE => 0
    case DATABASE => 1
    case BOOKMARK => 2
  }

  function RelationTypeIndex(t: RelationType): (i: nat)
    ensures i < |RelationTypeMembers|
  {
    match t
    case CONTAINS => 0
    case REFERENCES => 1
  }

  function PageTypeName(t: PageType): string { PageTypeMembers[PageTypeIndex(t)].0 }
  function PageTypeValue(t: PageType): string { PageTypeMembers[PageTypeIndex(t)].1 }
  function RelationTypeName(t: RelationType): string { RelationTypeMembers[RelationTypeIndex(t)].0 }
  function RelationTypeValue(t: RelationType): string { RelationTypeMembers[RelationTypeIndex(t)].1 }

  /** `PageType[s.upper()]`: the member whose name is the upper-cased string. */
  function GetPageTypeFromString(s: string): (r: Result<PageType, Error>)
    ensures r.Success? ==> PageTypeName(r.value) == Upper(s)
    ensures r.Failure? ==> r.error == KeyError(Str(Upper(s))) && forall t :: PageTypeName(t) != Upper(s)
  {
    var u := Upper(s);
    if u == "PAGE" then Success(PAGE)
    else if u == "DATABASE" then Success(DATABASE)
    else if u == "BOOKMARK" then Success(BOOKMARK)
    else Failure(KeyError(Str(u)))
  }

  /** `RelationType[s.upper()]` */
  function GetRelationTypeFromString(s: string): (r: Result<RelationType, Error>)
    ensures r.Success? ==> RelationTypeName(r.value) == Upper(s)
    ensures r.Failure? ==> r.error == KeyError(Str(Upper(s))) && forall t :: RelationTypeName(t) != Upper(s)
  {
    var u := Upper(s);
    if u == "CONTAINS" then Success(CONTAINS)
    else if u == "REFERENCES" then Success(REFERENCES)
    else Failure(KeyError(Str(u)))
  }

  lemma {:induction false} UpperIs(s: string, t: string)
    requires |s| == |t| && forall i :: 0 <= i < |s| ==> UpperChar(s[i]) == t[i]
    ensures Upper(s) == t
  {
  }

  /** The page-type lookup ignores case; a name that is no member fails. */
  lemma PageTypeLookupIgnoresCase()
    ensures GetPageTypeFromString("page") == Success(PAGE)
    ensures GetPageTypeFromString("Bookmark") == Success(BOOKMARK)
    ensures GetPageTypeFromString("note").Failure?
  {
    UpperIs("page", "PAGE");
    UpperIs("Bookmark", "BOOKMARK");
    UpperIs("note", "NOTE");
  }

  /** The relation-type lookup ignores case. */
  lemma RelationTypeLookupIgnoresCase()
    ensures GetRelationTypeFromString("contains") == Success(CONTAINS)
    ensures GetRelationTypeFromString("References") == Success(REFERENCES)
  {
    UpperIs("contains", "CONTAINS");
    UpperIs("References", "REFERENCES");
  }

  /** An embedding vector, opaque to this model. */
  datatype Embedding = Embedding(vector: seq<real>)
  datatype Chunk = Chunk(content: string, embedding: Embedding)

  /** `chunks` is set by the chunker after ingestion and is not one of the
      dataclass fields `to_dict` writes. */
  datatype GraphPage = GraphPage(
    id: string,
    title: string,
    pageType: PageType,
    url: string,
    content: Option<string>,
    source: string,
    lastEditedTime: Option<string>,
    chunks: seq<Chunk>)

  datatype GraphRelation = GraphRelation(
    fromPageId: string,
    relationType: RelationType,
    toPageId: string,
    context: Option<string>)

  const GraphPageVersion: int := 1
  const GraphRelationVersion: int := 1

  /** `GraphPage(id, title, type, url)` with the dataclass defaults. */
  function NewPage(id: string, title: string, pageType: PageType, url: string): (p: GraphPage)
    ensures p.id == id && p.title == title && p.pageType == pageType && p.url == url
    ensures p.content == None && p.source == "Notion" && p.lastEditedTime == None && p.chunks == []
  {
    GraphPage(id, title, pageType, url, None, "Notion", None, [])
  }

  /** `GraphRelation(from, type, to)` with the default context. */
  function NewRelation(fromId: string, relationType: RelationType, toId: string): (r: GraphRelation)
    ensures r.fromPageId == fromId && r.relationType == relationType && r.toPageId == toId && r.context == None
  {
    GraphRelation(fromId, relationType, toId, None)
  }

  function OptStr(o: Option<string>): Value {
    match o
    case None => Null
    case Some(s) => Str(s)
  }

  function PageTypeMember(t: PageType): Value { EnumMember(PageTypeName(t), PageTypeValue(t)) }
  function RelationTypeMember(t: RelationType): Value { EnumMember(RelationTypeName(t), RelationTypeValue(t)) }

  /** The dataclass fields of a page, as `asdict` sees them, in declaration order. */
  function PageFields(p: GraphPage): seq<(string, Value)> {
    [("id", Str(p.id)), ("title", Str(p.title)), ("type", PageTypeMember(p.pageType)), ("url", Str(p.url)),
     ("content", OptStr(p.content)), ("source", Str(p.source)), ("last_edited_time", OptStr(p.lastEditedTime))]
  }

  const PageSchema: seq<Field> :=
    [Field("id", Plain), Field("title", Plain), Field("type", EnumOf(PageTypeMembers)), Field("url", Plain),
     Field("content", Plain), Field("source", Plain), Field("last_edited_time", Plain)]

  function RelationFields(r: GraphRelation): seq<(string, Value)> {
    [("from_page_id", Str(r.fromPageId)), ("relation_type", RelationTypeMember(r.relationType)),
     ("to_page_id", Str(r.toPageId)), ("context", OptStr(r.context))]
  }

  const RelationSchema: seq<Field> :=
    [Field("from_page_id", Plain), Field("relation_type", EnumOf(RelationTypeMembers)),
     Field("to_page_id", Plain), Field("context", Plain)]

  function PageToDict(p: GraphPage): map<string, Value> { Serialized(PageFields(p), GraphPageVersion) }
  function RelationToDict(r: GraphRelation): map<string, Value> { Serialized(RelationFields(r), GraphRelationVersion) }

  function AsStr(args: map<string, Value>, name: string): Result<string, Error> {
    if name in args && args[name].Str? then Success(args[name].s) else Failure(TypeError(name))
  }

  function AsOptStr(args: map<string, Value>, name: string): Result<Option<string>, Error> {
    if name in args && args[name].Str? then Success(Some(args[name].s))
    else if name in args && args[name].Null? then Success(None)
    else Failure(TypeError(name))
  }

  function AsPageType(args: map<string, Value>, name: string): Result<PageType, Error> {
    if name in args && args[name].EnumMember? then
      var n := args[name].name;
      if n == "PAGE" then Success(PAGE) else if n == "DATABASE" then Success(DATABASE)
      else if n == "BOOKMARK" then Success(BOOKMARK)
      else Failure(TypeError(name))
    else Failure(TypeError(name))
  }

  function AsRelationType(args: map<string, Value>, name: string): Result<RelationType, Error> {
    if name in args && args[name].EnumMember? then
      var n := args[name].name;
      if n == "CONTAINS" then Success(CONTAINS) else if n == "REFERENCES" then Success(REFERENCES)
      else Failure(TypeError(name))
    else Failure(TypeError(name))
  }

  /** `GraphPage(**init_args)` */
  function PageFromArgs(args: map<string, Value>): Result<GraphPage, Error> {
    var id :- AsStr(args, "id");
    var title :- AsStr(args, "title");
    var pageType :- AsPageType(args, "type");
    var url :- AsStr(args, "url");
    var content :- AsOptStr(args, "content");
    var source :- AsStr(args, "source");
    var time :- AsOptStr(args, "last_edited_time");
    Success(GraphPage(id, title, pageType, url, content, source, time, []))
  }

  /** `GraphRelation(**init_args)` */
  function RelationFromArgs(args: map<string, Value>): Result<GraphRelation, Error> {
    var fromId :- AsStr(args, "from_page_id");
    var relationType :- AsRelationType(args, "relation_type");
    var toId :- AsStr(args, "to_page_id");
    var context :- AsOptStr(args, "context");
    Success(GraphRelation(fromId, relationType, toId, context))
  }

  /** `GraphPage.from_dict` */
  function PageFromDict(data: map<string, Value>): Result<GraphPage, Error> {
    var args :- Deserialized(PageSchema, GraphPageVersion, data);
    PageFromArgs(args)
  }

  /** `GraphRelation.from_dict` */
  function RelationFromDict(data: map<string, Value>): Result<GraphRelation, Error> {
    var args :- Deserialized(RelationSchema, GraphRelationVersion, data);
    RelationFromArgs(args)
  }

  lemma PageFieldsConform(p: GraphPage)
    ensures Conforms(PageSchema, PageFields(p)) && DistinctNames(PageFields(p))
    ensures VersionKey !in Names(PageFields(p))
  {
    var i := PageTypeIndex(p.pageType);
    assert PageTypeMembers[i] in PageTypeMembers;
  }

  lemma RelationFieldsConform(r: GraphRelation)
    ensures Conforms(RelationSchema, RelationFields(r)) && DistinctNames(RelationFields(r))
    ensures VersionKey !in Names(RelationFields(r))
  {
    var i := RelationTypeIndex(r.relationType);
    assert RelationTypeMembers[i] in RelationTypeMembers;
  }

  /** Every field survives `from_dict(to_dict(p))`; only the chunks, which
      are not a dataclass field, are lost, so the dict written again is the same. */
  lemma PageRoundTrip(p: GraphPage)
    ensures PageFromDict(PageToDict(p)) == Success(p.(chunks := []))
    ensures PageToDict(p.(chunks := [])) == PageToDict(p)
  {
    PageFieldsConform(p);
    DecodeSerialized(PageSchema, PageFields(p), GraphPageVersion);
    var fs := PageFields(p);
    var args := AsDict(fs);
    AsDictAt(fs, 0); AsDictAt(fs, 1); AsDictAt(fs, 2); AsDictAt(fs, 3);
    AsDictAt(fs, 4); AsDictAt(fs, 5); AsDictAt(fs, 6);
    assert args["id"] == Str(p.id) && args["title"] == Str(p.title) && args["url"] == Str(p.url);
    assert args["type"] == PageTypeMember(p.pageType) && args["source"] == Str(p.source);
    assert args["content"] == OptStr(p.content) && args["last_edited_time"] == OptStr(p.lastEditedTime);
    assert AsPageType(args, "type") == Success(p.pageType);
    assert AsOptStr(args, "content") == Success(p.content);
    assert AsOptStr(args, "last_edited_time") == Success(p.lastEditedTime);
  }

  /** Every field of a relation survives `from_dict(to_dict(r))`. */
  lemma RelationRoundTrip(r: GraphRelation)
    ensures RelationFromDict(RelationToDict(r)) == Success(r)
  {
    RelationFieldsConform(r);
    DecodeSerialized(RelationSchema, RelationFields(r), GraphRelationVersion);
    var fs := RelationFields(r);
    var args := AsDict(fs);
    AsDictAt(fs, 0); AsDictAt(fs, 1); AsDictAt(fs, 2); AsDictAt(fs, 3);
    assert args["from_page_id"] == Str(r.fromPageId) && args["to_page_id"] == Str(r.toPageId);
    assert args["relation_type"] == RelationTypeMember(r.relationType) && args["context"] == OptStr(r.context);
    assert AsRelationType(args, "relation_type") == Success(r.relationType);
    assert AsOptStr(args, "context") == Success(r.context);
  }

  /** Enum fields are written by member NAME: a page of type PAGE is stored
      as "PAGE", not as its value "Page". */
  lemma EnumWrittenByName(p: GraphPage, r: GraphRelation)
    ensures "type" in PageToDict(p) && PageToDict(p)["type"] == Str(PageTypeName(p.pageType))
    ensures "version" in PageToDict(p) && PageToDict(p)["version"] == Int(GraphPageVersion)
    ensures p.pageType == PAGE ==> "type" in PageToDict(p) && PageToDict(p)["type"] == Str("PAGE") != Str(PageTypeValue(PAGE))
    ensures "relation_type" in RelationToDict(r) && RelationToDict(r)["relation_type"] == Str(RelationTypeName(r.relationType))
  {
    PageFieldsConform(p);
    RelationFieldsConform(r);
    SerializedField(PageFields(p), GraphPageVersion, 2);
    SerializedField(RelationFields(r), GraphRelationVersion, 1);
  }

  /** The bundle a data source returns and the processors share and update. */
  class ProcessedData {
    var pages: map<string, GraphPage>
    var relations: seq<GraphRelation>

    constructor (pages: map<string, GraphPage>, relations: seq<GraphRelation>)
      ensures this.pages == pages && this.relations == relations
    {
      this.pages := pages;
      this.relations := relations;
    }
  }
}
