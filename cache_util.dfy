/**
 * The keyed, versioned cache: a cache file maps a key (the root page id) to
 * an entry holding the class version, the save time and the data. Files are
 * held already parsed, the clock is a parameter, and the TTL comes from the
 * configuration (0 disables expiry).
 */
module CacheUtil {
  import opened Wrappers
  import opened Cacheable
  import opened GraphDataClasses

  datatype Entry = Entry(version: int, saveTime: int, data: Value)
  type CacheFile = map<string, Entry>

  /** The classes `get_all_cacheable_classes` finds among the graph records. */
  const RegisteredClasses: set<string> := {"GraphPage", "GraphRelation"}

  datatype CacheableObject = PageObject(page: GraphPage) | RelationObject(relation: GraphRelation)

  function ClassName(o: CacheableObject): string {
    match o
    case PageObject(_) => "GraphPage"
    case RelationObject(_) => "GraphRelation"
  }

  function ObjectToDict(o: CacheableObject): map<string, Value> {
    match o
    case PageObject(p) => PageToDict(p)
    case RelationObject(r) => RelationToDict(r)
  }

  /** The object as `from_dict(to_dict(o))` gives it back: a page loses its chunks. */
  function Stored(o: CacheableObject): CacheableObject {
    match o
    case PageObject(p) => PageObject(p.(chunks := []))
    case RelationObject(r) => o
  }

  /** `custom_serializer`: a tagged dict naming the class. */
  function CustomSerializer(o: CacheableObject): Value {
    Dict(map["__cacheable__" := Bool(true), "class" := Str(ClassName(o)), "data" := Dict(ObjectToDict(o))])
  }

  datatype Decoded = AsIs(entries: map<string, Value>) | Rebuilt(obj: CacheableObject)

  /** `custom_deserializer`: a dict carrying the `__cacheable__` key and a
      registered class name is rebuilt with that class's `from_dict`; every
      other dict comes back as it is. */
  function CustomDeserializer(obj: map<string, Value>): (r: Result<Decoded, Error>)
    ensures "__cacheable__" !in obj ==> r == Success(AsIs(obj))
    ensures r.Success? && r.value.Rebuilt? ==>
      "__cacheable__" in obj && "class" in obj && obj["class"] == Str(ClassName(r.value.obj))
    ensures r.Success? && r.value.AsIs? ==> r.value.entries == obj
  {
    if "__cacheable__" !in obj then Success(AsIs(obj))
    else if "class" !in obj then Failure(KeyError(Str("class")))
    else if !(obj["class"].Str? && obj["class"].s in RegisteredClasses) then Success(AsIs(obj))
    else if "data" !in obj then Failure(KeyError(Str("data")))
    else if !obj["data"].Dict? then Failure(TypeError("data"))
    else if obj["class"].s == "GraphPage" then
      var p :- PageFromDict(obj["data"].entries);
      Success(Rebuilt(PageObject(p)))
    else
      var r :- RelationFromDict(obj["data"].entries);
      Success(Rebuilt(RelationObject(r)))
  }

  lemma SerializerRoundTrip(o: CacheableObject)
    ensures CustomSerializer(o).Dict?
    ensures CustomDeserializer(CustomSerializer(o).entries) == Success(Rebuilt(Stored(o)))
  {
    match o
    case PageObject(p) => PageRoundTrip(p);
    case RelationObject(r) => RelationRoundTrip(r);
  }

  function FileOrEmpty(files: map<string, CacheFile>, fileName: string): CacheFile {
    if fileName in files then files[fileName] else map[]
  }

  /** The files after `save_model_cache`: a missing file starts empty, and
      only the entry under `key` is added or replaced. */
  function Saved(files: map<string, CacheFile>, fileName: string, data: Value, version: int, key: string, now: int)
    : map<string, CacheFile>
  {
    files[fileName := FileOrEmpty(files, fileName)[key := Entry(version, now, data)]]
  }

  /** Expiry is strict and a TTL of 0 switches it off. */
  predicate Expired(ttlSeconds: int, entry: Entry, now: int) {
    ttlSeconds != 0 && now - entry.saveTime > ttlSeconds
  }

  /** `load_model_cache`: missing key, then version, then expiry. */
  function LoadFrom(files: map<string, CacheFile>, ttlSeconds: int, fileName: string, classVersion: int, key: string, now: int)
    : (r: Result<Value, Error>)
    ensures r.Success? <==>
      fileName in files && key in files[fileName] &&
      files[fileName][key].version == classVersion && !Expired(ttlSeconds, files[fileName][key], now)
    ensures r.Success? ==> r.value == files[fileName][key].data
  {
    if fileName !in files then Failure(FileNotFound(fileName))
    else if key !in files[fileName] then Failure(KeyError(Str(key)))
    else
      var entry := files[fileName][key];
      var _ :- CheckVersion(classVersion, Int(entry.version));
      if Expired(ttlSeconds, entry, now) then Failure(CacheExpired)
      else Success(entry.data)
  }

  /** Saving and then loading the same key returns the saved data while the
      entry is fresh. */
  lemma {:induction false} SaveThenLoad(files: map<string, CacheFile>, ttlSeconds: int, fileName: string, data: Value,
                                        version: int, key: string, saveTime: int, now: int)
    requires ttlSeconds == 0 || now - saveTime <= ttlSeconds
    ensures LoadFrom(Saved(files, fileName, data, version, key, saveTime), ttlSeconds, fileName, version, key, now)
      == Success(data)
  {
  }

  /** A save touches one entry of one file: every other (file, key) loads as before. */
  lemma SaveKeepsOtherEntries(files: map<string, CacheFile>, ttlSeconds: int, fileName: string, data: Value,
                              version: int, key: string, saveTime: int,
                              otherFile: string, otherKey: string, classVersion: int, now: int)
    requires otherFile != fileName || otherKey != key
    requires otherFile in files || otherFile != fileName
    ensures LoadFrom(Saved(files, fileName, data, version, key, saveTime), ttlSeconds, otherFile, classVersion, otherKey, now)
      == LoadFrom(files, ttlSeconds, otherFile, classVersion, otherKey, now)
  {
  }

  /** The checks run in the order key, version, expiry: an entry stored
      under another version fails on the version even when it is also
      expired, and an absent key fails as a KeyError whatever else holds. */
  lemma LoadCheckOrder(files: map<string, CacheFile>, ttlSeconds: int, fileName: string, classVersion: int, key: string, now: int)
    requires fileName in files
    ensures key !in files[fileName] ==>
      LoadFrom(files, ttlSeconds, fileName, classVersion, key, now) == Failure(KeyError(Str(key)))
    ensures key in files[fileName] && files[fileName][key].version != classVersion ==>
      LoadFrom(files, ttlSeconds, fileName, classVersion, key, now)
        == Failure(VersionMismatch(classVersion, Int(files[fileName][key].version)))
    ensures key in files[fileName] && files[fileName][key].version == classVersion &&
            Expired(ttlSeconds, files[fileName][key], now) ==>
      LoadFrom(files, ttlSeconds, fileName, classVersion, key, now) == Failure(CacheExpired)
  {
  }

  /** The cached form of a prepared-pages map: page id to `to_dict` of the page. */
  function PagesValue(pages: map<string, GraphPage>): Value {
    Dict(map k | k in pages :: Dict(PageToDict(pages[k])))
  }

  /** The cached form of a relation list, order kept. */
  function RelationsValue(relations: seq<GraphRelation>): (v: Value)
    ensures v.List? && |v.items| == |relations|
  {
    List(seq(|relations|, i requires 0 <= i < |relations| => Dict(RelationToDict(relations[i]))))
  }

  predicate PageEntryFails(v: Value) {
    !v.Dict? || PageFromDict(v.entries).Failure?
  }

  /** `{page_id: GraphPage.from_dict(page_data) ...}`; the model reports every
      entry that fails to rebuild. */
  function PagesFromValue(v: Value): Result<map<string, GraphPage>, Error> {
    if !v.Dict? then Failure(TypeError("prepared_pages"))
    else
      if forall k :: k in v.entries ==> !PageEntryFails(v.entries[k]) then
        Success(map k | k in v.entries :: PageOf(v.entries[k]))
      else Failure(InvalidEntries(set k | k in v.entries && PageEntryFails(v.entries[k])))
  }

  function PageOf(v: Value): GraphPage
    requires !PageEntryFails(v)
  {
    PageFromDict(v.entries).value
  }

  /** `[GraphRelation.from_dict(d) for d in ...]`: the first failing entry raises. */
  function RelationsFromList(items: seq<Value>): Result<seq<GraphRelation>, Error> {
    if items == [] then Success([])
    else
      var first :- if items[0].Dict? then RelationFromDict(items[0].entries) else Failure(TypeError("relation"));
      var rest :- RelationsFromList(items[1..]);
      Success([first] + rest)
  }

  function RelationsFromValue(v: Value): Result<seq<GraphRelation>, Error> {
    if v.List? then RelationsFromList(v.items) else Failure(TypeError("page_relations"))
  }

  lemma PageEntryRoundTrip(p: GraphPage)
    ensures !PageEntryFails(Dict(PageToDict(p))) && PageOf(Dict(PageToDict(p))) == p.(chunks := [])
  {
    PageRoundTrip(p);
  }

  lemma PagesValueEntries(pages: map<string, GraphPage>)
    ensures PagesValue(pages).entries.Keys == pages.Keys
    ensures forall k :: k in pages ==>
      !PageEntryFails(PagesValue(pages).entries[k]) && PageOf(PagesValue(pages).entries[k]) == pages[k].(chunks := [])
  {
    forall k | k in pages
      ensures !PageEntryFails(PagesValue(pages).entries[k]) && PageOf(PagesValue(pages).entries[k]) == pages[k].(chunks := [])
    {
      PageEntryRoundTrip(pages[k]);
    }
  }

  /** The page map comes back under the same keys, each page without chunks. */
  lemma PagesValueRoundTrip(pages: map<string, GraphPage>)
    ensures PagesFromValue(PagesValue(pages)) == Success(map k | k in pages :: pages[k].(chunks := []))
  {
    PagesValueEntries(pages);
    PagesRebuilt(PagesValue(pages), pages);
  }

  /** Entries that all rebuild into the pages without chunks make that map. */
  lemma PagesRebuilt(v: Value, pages: map<string, GraphPage>)
    requires v.Dict? && v.entries.Keys == pages.Keys
    requires forall k :: k in pages ==> !PageEntryFails(v.entries[k]) && PageOf(v.entries[k]) == pages[k].(chunks := [])
    ensures PagesFromValue(v) == Success(map k | k in pages :: pages[k].(chunks := []))
  {
    assert forall k :: k in v.entries ==> !PageEntryFails(v.entries[k]);
    RebuiltMap(v.entries, pages);
  }

  lemma RebuiltMap(entries: map<string, Value>, pages: map<string, GraphPage>)
    requires entries.Keys == pages.Keys
    requires forall k :: k in pages ==> !PageEntryFails(entries[k]) && PageOf(entries[k]) == pages[k].(chunks := [])
    ensures (map k | k in entries :: PageOf(entries[k])) == (map k | k in pages :: pages[k].(chunks := []))
  {
  }

  /** The relation list comes back in the same order. */
  lemma {:induction false} RelationsValueRoundTrip(relations: seq<GraphRelation>)
    ensures RelationsFromValue(RelationsValue(relations)) == Success(relations)
  {
    if relations != [] {
      RelationRoundTrip(relations[0]);
      RelationsValueRoundTrip(relations[1..]);
      assert RelationsValue(relations).items[1..] == RelationsValue(relations[1..]).items;
      assert [relations[0]] + relations[1..] == relations;
    }
  }

  function LoadPagesFrom(files: map<string, CacheFile>, ttlSeconds: int, rootPageId: string, fileName: string, now: int)
    : Result<map<string, GraphPage>, Error>
  {
    var v :- LoadFrom(files, ttlSeconds, fileName, GraphPageVersion, rootPageId, now);
    PagesFromValue(v)
  }

  function LoadRelationsFrom(files: map<string, CacheFile>, ttlSeconds: int, rootPageId: string, fileName: string, now: int)
    : Result<seq<GraphRelation>, Error>
  {
    var v :- LoadFrom(files, ttlSeconds, fileName, GraphRelationVersion, rootPageId, now);
    RelationsFromValue(v)
  }

  /** Prepared pages saved under a root id load back keyed by page id. */
  lemma PagesCacheRoundTrip(files: map<string, CacheFile>, ttlSeconds: int, rootPageId: string, fileName: string,
                            pages: map<string, GraphPage>, saveTime: int, now: int)
    requires ttlSeconds == 0 || now - saveTime <= ttlSeconds
    ensures LoadPagesFrom(Saved(files, fileName, PagesValue(pages), GraphPageVersion, rootPageId, saveTime),
                          ttlSeconds, rootPageId, fileName, now)
      == Success(map k | k in pages :: pages[k].(chunks := []))
  {
    SaveThenLoad(files, ttlSeconds, fileName, PagesValue(pages), GraphPageVersion, rootPageId, saveTime, now);
    PagesValueRoundTrip(pages);
  }

  /** Relations saved under a root id load back in order. */
  lemma RelationsCacheRoundTrip(files: map<string, CacheFile>, ttlSeconds: int, rootPageId: string, fileName: string,
                                relations: seq<GraphRelation>, saveTime: int, now: int)
    requires ttlSeconds == 0 || now - saveTime <= ttlSeconds
    ensures LoadRelationsFrom(Saved(files, fileName, RelationsValue(relations), GraphRelationVersion, rootPageId, saveTime),
                              ttlSeconds, rootPageId, fileName, now)
      == Success(relations)
  {
    SaveThenLoad(files, ttlSeconds, fileName, RelationsValue(relations), GraphRelationVersion, rootPageId, saveTime, now);
    RelationsValueRoundTrip(relations);
  }

  const PagesFile: string := "prepared_pages.json"
  const RelationsFile: string := "page_relations.json"

  /** The cache directory: file name to parsed file content. */
  class CacheStore {
    var files: map<string, CacheFile>
    const ttlSeconds: int

    constructor (files: map<string, CacheFile>, ttlSeconds: int)
      ensures this.files == files && this.ttlSeconds == ttlSeconds
    {
      this.files := files;
      this.ttlSeconds := ttlSeconds;
    }

    /** `save_model_cache`: load the file (empty when missing), set the entry, write back. */
    method SaveModelCache(fileName: string, modelData: Value, classVersion: int, key: string, now: int)
      modifies this
      ensures files == Saved(old(files), fileName, modelData, classVersion, key, now)
    {
      var cacheData: CacheFile;
      if fileName in files {
        cacheData := files[fileName];
      } else {
        cacheData := map[];
      }
      cacheData := cacheData[key := Entry(classVersion, now, modelData)];
      files := files[fileName := cacheData];
    }

    function LoadModelCache(fileName: string, classVersion: int, key: string, now: int): Result<Value, Error>
      reads this
    {
      LoadFrom(files, ttlSeconds, fileName, classVersion, key, now)
    }

    method SavePreparedPagesToCache(rootPageId: string, pages: map<string, GraphPage>, fileName: string, now: int)
      modifies this
      ensures files == Saved(old(files), fileName, PagesValue(pages), GraphPageVersion, rootPageId, now)
    {
      SaveModelCache(fileName, PagesValue(pages), GraphPageVersion, rootPageId, now);
    }

    function LoadPreparedPagesFromCache(rootPageId: string, fileName: string, now: int): Result<map<string, GraphPage>, Error>
      reads this
    {
      LoadPagesFrom(files, ttlSeconds, rootPageId, fileName, now)
    }

    method SavePageRelationsToCache(rootPageId: string, relations: seq<GraphRelation>, fileName: string, now: int)
      modifies this
      ensures files == Saved(old(files), fileName, RelationsValue(relations), GraphRelationVersion, rootPageId, now)
    {
      SaveModelCache(fileName, RelationsValue(relations), GraphRelationVersion, rootPageId, now);
    }

    function LoadPageRelationsFromCache(rootPageId: string, fileName: string, now: int): Result<seq<GraphRelation>, Error>
      reads this
    {
      LoadRelationsFrom(files, ttlSeconds, rootPageId, fileName, now)
    }
  }
}
