# knowledge-nexus Notion ingestion, modelled in Dafny

This project models the core of knowledge-nexus, which ingests a Notion workspace. It covers:

- **The Notion walker** of `graph_rag/processor/notion_processor.py`. It walks pages, databases, blocks, properties and rich-text links. It fills the `prepared_pages` map and the `page_relations` list.
  - Page ids are normalised. A page is stored again only when its edit time is strictly later.
  - Archived and trashed pages are marked and never walked into.
  - Page nesting stops at a depth limit.
  - Bookmarks are leaves keyed by their URL.
  - The walk is cached per root page.
- **The legacy walkers** under `src/`:
  - one with a depth limit (`SrcGraphRagProcessor`);
  - one without a depth limit, whose only guard is the membership check (`SrcProcessor`);
  - the flat page-to-text processor (`SrcProcessors`, with `LegacyBlocks`).
- **The markdown renderer** of `to_markdown_parser.py`: property and block handlers and the fixed wrapping order of rich-text annotations.
- **The cache**:
  - the versioned envelope `{version, save_time, data}` of `cache_util.py`, with its three load failures (missing key, version mismatch, expiry);
  - the tagged serializer;
  - `Cacheable.to_dict`/`from_dict`, which write enums by member name;
  - the records of `graph_data_classes.py`.
- **The two chunkers and embedders**:
  - the sentence-aware, token-level one of `content_chunker_and_embedder.py`, with its character-window `create_text_chunks`;
  - the older character-window one of `content_chnker_and_embedder.py`.
  - Both share one `_find_chunk_end`, modelled once in `ChunkSearch`, both as written and corrected (see "## Findings"). The chunk windows of both chunkers are modelled over the corrected search, with the as-written windows beside them.
- **The orphan-relation policy** of `graph_builder.py`: either stub pages for missing endpoints or a filter. `data_processing_pipeline.py` repeats that code line for line, so it is modelled once, in `GraphBuilder`.
- **The pipeline's merge** of data sources and its processor order, both as written (it calls a method processors lack) and as intended.

The following are parameters:

- the Notion API, a map per request kind, where an absent key is a request that raised;
- the web scraper, a map to title and optional description;
- the tokenizer (`encode`/`decode`) and the token counter;
- the embedding service;
- the edit-time order, an `instant` function over timestamps;
- the clock, an integer;
- the configuration values.

Objects that the source updates in place are classes whose methods state the new state:

- the walkers;
- the pipeline;
- the cache store, whose file is a `map` from key to entry;
- `ProcessedData`.

Pure helpers are functions, with lemmas stating their properties.

## Model

| member | source | states |
|---|---|---|
| `GraphDataClasses.GetPageTypeFromString` | graph_rag/data_model/graph_data_classes.py:19-20 | success names the member whose name is the upper-cased string; failure is a `KeyError` and no member has that name |
| `GraphDataClasses.GetRelationTypeFromString` | graph_rag/data_model/graph_data_classes.py:23-24 | the same lookup for relation types |
| `GraphDataClasses.PageTypeLookupIgnoresCase` | graph_rag/data_model/graph_data_classes.py:13-20 | `"page"` gives `PAGE`, `"Bookmark"` gives `BOOKMARK`, and `"note"` fails |
| `GraphDataClasses.RelationTypeLookupIgnoresCase` | graph_rag/data_model/graph_data_classes.py:8-24 | `"contains"` gives `CONTAINS` and `"References"` gives `REFERENCES` |
| `GraphDataClasses.NewPage` | graph_rag/data_model/graph_data_classes.py:27-35 | a page built from id, title, type and url has no content, source `'Notion'` and no edit time |
| `GraphDataClasses.NewRelation` | graph_rag/data_model/graph_data_classes.py:42-47 | a relation built from its two ids and type has no context |
| `GraphDataClasses.PageFieldsConform` | graph_rag/data_model/graph_data_classes.py:27-35 | the page's `asdict` fields match the class's field list, with distinct names and no `version` field |
| `GraphDataClasses.RelationFieldsConform` | graph_rag/data_model/graph_data_classes.py:42-47 | the same for relations |
| `GraphDataClasses.PageRoundTrip` | graph_rag/data_model/graph_data_classes.py:27-39 | `from_dict(to_dict(p))` gives the page back; only the chunks, which are not a dataclass field, are lost |
| `GraphDataClasses.RelationRoundTrip` | graph_rag/data_model/graph_data_classes.py:42-51 | `from_dict(to_dict(r))` gives the relation back unchanged |
| `GraphDataClasses.EnumWrittenByName` | graph_rag/data_model/cacheable.py:12-19 | a stored page or relation writes its enum by member name (`"PAGE"`, not its value `"Page"`), and `version` is the class version |
| `Cacheable.AsDictKeys` | graph_rag/data_model/cacheable.py:13 | the keys `asdict` produces are exactly the field names |
| `Cacheable.AsDictAt` | graph_rag/data_model/cacheable.py:13 | with distinct names, each field's value is stored under its own name |
| `Cacheable.ToDict` | graph_rag/data_model/cacheable.py:12-19 | the loop builds the serialized dict: the fields, then `version`, with every enum replaced by its name |
| `Cacheable.SerializedField` | graph_rag/data_model/cacheable.py:12-19 | every field other than `version` is present, holding its value or its enum's name |
| `Cacheable.CheckVersion` | graph_rag/data_model/cacheable.py:44-46 | raises `ValueError` exactly when the stored version differs from the class version |
| `Cacheable.LookupMember` | graph_rag/data_model/cacheable.py:33-34 | `EnumClass[value]` succeeds only with a member's name, and fails with `KeyError` exactly when no member has it |
| `Cacheable.FirstFailureStands` | graph_rag/data_model/cacheable.py:27-36 | once one field fails to decode, the later fields are never looked at and the error stands |
| `Cacheable.FromDict` | graph_rag/data_model/cacheable.py:21-37 | the loop computes exactly the constructor arguments `Deserialized` defines: the version is checked first, then one lookup per field in order |
| `Cacheable.LookupMemberByName` | graph_rag/data_model/cacheable.py:33-34 | when member names are distinct, looking up a member's name gives that member |
| `Cacheable.DecodeSerialized` | graph_rag/data_model/cacheable.py:12-37 | `from_dict` applied to `to_dict` rebuilds exactly the fields `asdict` saw |
| `Cacheable.DecodeFieldsPrefix` | graph_rag/data_model/cacheable.py:27-36 | decoding the first n fields of a serialized object gives back those n fields |
| `CacheUtil.CustomDeserializer` | graph_rag/utils/cache_util.py:49-54 | a dict without `__cacheable__` is returned as it is; a tagged dict of a known class is rebuilt by that class's `from_dict` |
| `CacheUtil.SerializerRoundTrip` | graph_rag/utils/cache_util.py:39-54 | the deserializer turns a serialized page or relation back into the object; a page loses only its chunks |
| `CacheUtil.LoadFrom` | graph_rag/utils/cache_util.py:79-93 | a load succeeds exactly when the key is present, the version matches and the entry has not expired; it then returns the stored data |
| `CacheUtil.SaveThenLoad` | graph_rag/utils/cache_util.py:57-93 | loading the key just saved returns the saved data while it is unexpired |
| `CacheUtil.SaveKeepsOtherEntries` | graph_rag/utils/cache_util.py:57-76 | a save changes one entry of one file; every other file and key loads as before |
| `CacheUtil.LoadCheckOrder` | graph_rag/utils/cache_util.py:83-91 | the checks run in order: a missing key raises `KeyError`, then a version mismatch raises `ValueError`, then expiry raises `ValueError("Cache expired")` |
| `CacheUtil.RelationsValue` | graph_rag/utils/cache_util.py:109-112 | the stored relation list has one dict per relation |
| `CacheUtil.PageEntryRoundTrip` | graph_rag/utils/cache_util.py:96-106 | one stored page entry decodes back to the page without its chunks |
| `CacheUtil.PagesValueRoundTrip` | graph_rag/utils/cache_util.py:96-106 | a stored page map comes back under the same keys, with each page minus its chunks |
| `CacheUtil.RelationsValueRoundTrip` | graph_rag/utils/cache_util.py:109-118 | a stored relation list comes back unchanged and in order |
| `CacheUtil.PagesCacheRoundTrip` | graph_rag/utils/cache_util.py:96-106 | prepared pages saved under a root id load back, keyed by page id, while unexpired |
| `CacheUtil.RelationsCacheRoundTrip` | graph_rag/utils/cache_util.py:109-118 | page relations saved under a root id load back in order, while unexpired |
| `CacheUtil.CacheStore.SaveModelCache` | graph_rag/utils/cache_util.py:57-76 | the cache files become those `Saved` describes: a missing file starts empty, and only the one entry is set |
| `CacheUtil.CacheStore.SavePreparedPagesToCache` | graph_rag/utils/cache_util.py:96-100 | stores the page map's dict form under the root id, with the page class version |
| `CacheUtil.CacheStore.SavePageRelationsToCache` | graph_rag/utils/cache_util.py:109-112 | stores the relation list's dict form under the root id, with the relation class version |
| `MarkdownParser.RemoveBackground` | graph_rag/data_source/to_markdown_parser.py:376 | removing `"_background"` never lengthens a colour name |
| `MarkdownParser.ExtractRichText` | graph_rag/data_source/to_markdown_parser.py:353-379 | the loop's text is the concatenation, in order, of each element's rendering |
| `MarkdownParser.BackgroundDropped` | graph_rag/data_source/to_markdown_parser.py:376 | a colour `c + "_background"` prints as `c` |
| `MarkdownParser.AllStyles` | graph_rag/data_source/to_markdown_parser.py:361-368 | code is innermost, then bold, italic, strikethrough, underline outermost: `<u>~~***`x`***~~</u>` |
| `MarkdownParser.ColouredRed` | graph_rag/data_source/to_markdown_parser.py:375-376 | a `red_background` colour becomes a `<span style="color: red">` around the text |
| `MarkdownParser.WrappingOrder` | graph_rag/data_source/to_markdown_parser.py:357-377 | styles wrap first, the text link around them, the colour span outermost |
| `MarkdownParser.HrefForMentions` | graph_rag/data_source/to_markdown_parser.py:370-373 | a mention with an `href` becomes a markdown link to that `href` |
| `MarkdownParser.BlockMarkdown` | graph_rag/data_source/to_markdown_parser.py:195-351 | every handled block's markdown starts with the indent and ends with a newline |
| `MarkdownParser.HeadingMarkdown` | graph_rag/data_source/to_markdown_parser.py:200-203 | a `heading_n` block starts with the indent, exactly `n` hashes and a space |
| `MarkdownParser.Notion2MarkdownParser.constructor` | graph_rag/data_source/to_markdown_parser.py:10-74 | the handler tables hold every known type except the configured exclusions |
| `MarkdownParser.Notion2MarkdownParser.ParseProperties` | graph_rag/data_source/to_markdown_parser.py:76-85 | the result is `""` when no property yields a line, otherwise `"###Properties:\n"` followed by the lines in property order |
| `MarkdownParser.RemoveAll` | graph_rag/data_source/to_markdown_parser.py:37-38 | a type is left in the table exactly when it was known and is not excluded |
| `MarkdownParser.ConcatAppend` | graph_rag/data_source/to_markdown_parser.py:78-85 | the accumulated markdown of two runs of properties is the two accumulations joined |
| `MarkdownParser.ParseBlockCases` | graph_rag/data_source/to_markdown_parser.py:87-93 | an excluded type yields Python's `None`, an unsupported one `""`, a handled one its markdown at indent `indent * level` |
| `MarkdownParser.UncheckedCheckboxDropped` | graph_rag/data_source/to_markdown_parser.py:76-97 | an unchecked checkbox is falsy and is dropped; a checked one prints `✅` |
| `MarkdownParser.NullPrefixPrintsNone` | graph_rag/data_source/to_markdown_parser.py:181-183 | a null prefix prints as `None` before the number; a missing one prints nothing |
| `MarkdownParser.NumberPrintsAsStr` | graph_rag/data_source/to_markdown_parser.py:139-157 | a number prints as `str()` of it, floats included (`2.5`, `3`), a rollup prints its function then its result, and a zero float is falsy so its property line is dropped |
| `NotionRecords.PropertyTypeName` | graph_rag/data_source/to_markdown_parser.py:13-37 | a property value is of an unknown type exactly when its type name is not among the known names |
| `NotionRecords.BlockTypeName` | graph_rag/data_source/to_markdown_parser.py:40-73 | a block is unsupported exactly when its type name is not among the known names |
| `NotionProcessor.NormalizeUuid` | graph_rag/processor/notion_processor.py:28-29 | a dashed 8-4-4-4-12 id loses every hyphen; anything else is returned unchanged |
| `NotionProcessor.NoHyphenNotDashed` | graph_rag/processor/notion_processor.py:29 | a string without hyphens never matches the dashed-id pattern |
| `NotionProcessor.NormalizeIdempotent` | graph_rag/processor/notion_processor.py:28-29 | normalising an already normalised id changes nothing |
| `NotionProcessor.DashedAndUndashedAgree` | graph_rag/processor/notion_processor.py:28-29 | the dashed and undashed spellings of an id normalise to the same key |
| `NotionProcessor.NormalizeJoinsGroups` | graph_rag/processor/notion_processor.py:28-29 | five word groups of 8, 4, 4, 4 and 12 joined by hyphens normalise to the groups run together |
| `NotionProcessor.NormalizeDashedExample` | tests/test_data_sources/notion_processor_test.py:39-42 | the dashed id of the test suite normalises to its 32 digits |
| `NotionProcessor.NormalizeUndashedExample` | tests/test_data_sources/notion_processor_test.py:44-45 | the undashed id of the test suite is left as it is |
| `NotionProcessor.SlugEnd` | graph_rag/processor/notion_processor.py:19 | the greedy `[a-zA-Z0-9\-]+` run from a position ends at the first non-slug character or at the end |
| `NotionProcessor.UuidAt` | graph_rag/processor/notion_processor.py:19 | a group-4 match starting at a position spans at least 32 characters and collects 32 lower-case hexadecimal digits |
| `NotionProcessor.UuidAfterSlug` | graph_rag/processor/notion_processor.py:19 | every match the backing-off title group finds is a group-4 match where it starts |
| `NotionProcessor.NotionLinkMatch` | graph_rag/processor/notion_processor.py:19-20 | `re.match` of the link pattern, when it succeeds, yields a group-4 match |
| `NotionProcessor.ExtractNotionUuid` | graph_rag/processor/notion_processor.py:18-25 | a result, when there is one, is exactly 32 lower-case hexadecimal digits; otherwise `None` |
| `NotionProcessor.ExtractedUuidIsNormalized` | graph_rag/processor/notion_processor.py:18-29 | an id taken from a link is already normalised |
| `NotionProcessor.NotionLinkUuid` | graph_rag/processor/notion_processor.py:18-22 | `https://www.notion.so/<dir>/<title>-<dashed id>` yields the id's 32 digits without hyphens, for every slug directory and title |
| `NotionProcessor.ExtractNotionUuidTestLink` | tests/test_data_sources/notion_processor_test.py:31-34 | the test suite's page link yields `bf98f999c90a41e198f999c90a01e1d2` |
| `NotionProcessor.ExtractNotionUuidOtherSite` | tests/test_data_sources/notion_processor_test.py:36-37 | `https://www.example.com` yields `None` |
| `NotionProcessor.FirstTitleProperty` | graph_rag/processor/notion_processor.py:36-39 | finds the first property that is a non-empty title, and none before it is one; `None` when no property is |
| `NotionProcessor.ExtractTitle` | graph_rag/processor/notion_processor.py:32-40 | the loop returns a non-empty top-level title, else the first non-empty title property, else `Untitled` |
| `NotionProcessor.FirstTitleIsFirst` | graph_rag/processor/notion_processor.py:36-39 | the first non-empty title property is the one the search returns |
| `NotionProcessor.TitleExamples` | tests/test_data_sources/notion_processor_test.py:47-66 | a top-level title wins over a title property; a title property is used without one; with neither the title is `Untitled` |
| `NotionProcessor.UnadornedIsPlain` | graph_rag/processor/notion_processor.py:43-44 | for text with no styles, links or colour, the markdown renderer and the plain-text join agree |
| `NotionProcessor.FirstTimeAfterSecondIsStrict` | graph_rag/processor/notion_processor.py:47-51 | "after" is irreflexive and asymmetric |
| `NotionProcessor.AcceptanceCases` | graph_rag/processor/notion_processor.py:372-390 | live pages are added under their own title and processed; archived or trashed ones are never processed, are added only when configured, and are marked `[ARCHIVED] ` (checked first) or `[REMOVED] ` |
| `NotionProcessor.PageTypeOfObject` | graph_rag/processor/notion_processor.py:90 | the page type is the one `get_page_type_from_string` gives for the object name |
| `NotionProcessor.BookmarkPage` | graph_rag/processor/notion_processor.py:269-277 | a bookmark node is keyed and addressed by its URL, of type `BOOKMARK` and source `Web`; a failed scrape leaves title and content empty |
| `NotionProcessor.RenderBlockCases` | graph_rag/processor/notion_processor.py:202-246 | a child page or database contributes only its own line; an unsupported block contributes nothing; any other block's text starts with its own markdown |
| `NotionProcessor.HrefCount` | graph_rag/processor/notion_processor.py:248-250 | the number of texts with a non-empty `href` never exceeds the number of texts |
| `NotionProcessor.HrefCountStep` | graph_rag/processor/notion_processor.py:249-250 | counting the hrefs one more element at a time, as the loop does |
| `NotionProcessor.PagesEvolveTrans` | graph_rag/processor/notion_processor.py:269-313 | the walker's allowed page changes compose |
| `NotionProcessor.RelationsEvolveTrans` | graph_rag/processor/notion_processor.py:152-161 | the walker's allowed relation changes (appends from normalised ids) compose |
| `NotionProcessor.PageRelation` | graph_rag/processor/notion_processor.py:152 | the relation a page link saves joins two normalised ids |
| `NotionProcessor.BookmarkRelation` | graph_rag/processor/notion_processor.py:161 | the relation a bookmark saves starts at a normalised id and ends at the raw URL |
| `NotionProcessor.AcceptedPage` | graph_rag/processor/notion_processor.py:300-308 | an accepted page is stored under its id, with its edit time, its marked title and no content yet |
| `NotionProcessor.SavedWalkReloads` | graph_rag/processor/notion_processor.py:95-97 | a saved walk loads back at the same instant: the pages by id without chunks, the relations in order |
| `NotionProcessor.NotionProcessor.constructor` | graph_rag/processor/notion_processor.py:55-63 | a new processor holds no pages and no relations |
| `NotionProcessor.NotionProcessor.RecursiveProcessPageContent` | graph_rag/processor/notion_processor.py:107-147 | at the depth limit nothing changes and the result is `None`; below it the result is the properties' markdown then the blocks' text, and at least one relation is added per item, link and href |
| `NotionProcessor.NotionProcessor.ProcessPageBlocks` | graph_rag/processor/notion_processor.py:144-145 | the page's text is its top-level blocks' texts in order |
| `NotionProcessor.NotionProcessor.SaveRelationAndProcessPage` | graph_rag/processor/notion_processor.py:149-156 | the relation is appended first; a reference is not followed when reference pages are not processed |
| `NotionProcessor.NotionProcessor.SaveRelationAndProcessBookmark` | graph_rag/processor/notion_processor.py:158-162 | the bookmark relation is appended and the URL gets a bookmark node unless it already has one |
| `NotionProcessor.NotionProcessor.ProcessUnprocessedBookmark` | graph_rag/processor/notion_processor.py:269-277 | a URL already held is left alone; a new one gets its bookmark node; relations are untouched |
| `NotionProcessor.NotionProcessor.RecursiveProcessBlock` | graph_rag/processor/notion_processor.py:164-246 | the text is the block's own markdown and its children's; the first relation is `CONTAINS` for a child page, `REFERENCES` for a page link or a URL block; an unsupported block changes nothing |
| `NotionProcessor.NotionProcessor.SaveBlockLinks` | graph_rag/processor/notion_processor.py:202-227 | the relation each block type calls for is appended first, and a URL block's bookmark is then held |
| `NotionProcessor.NotionProcessor.ProcessChildBlocks` | graph_rag/processor/notion_processor.py:243-244 | the children's texts, in order, one indentation level deeper |
| `NotionProcessor.NotionProcessor.ProcessRichTextArray` | graph_rag/processor/notion_processor.py:248-267 | one relation at least per text with an href; nothing changes without one |
| `NotionProcessor.NotionProcessor.ProcessRichText` | graph_rag/processor/notion_processor.py:249-267 | an href to a Notion page becomes a reference to its id, any other href a bookmark, both with the full context |
| `NotionProcessor.NotionProcessor.RecursiveProcessUnprocessedPage` | graph_rag/processor/notion_processor.py:279-313 | nothing changes when the metadata request fails; otherwise the page is processed as the fetched metadata dictates |
| `NotionProcessor.NotionProcessor.ProcessFetchedPage` | graph_rag/processor/notion_processor.py:295-313 | a page not newer than the stored one, or one not to be added, changes nothing; otherwise it is stored and, when live, filled with its content |
| `NotionProcessor.NotionProcessor.FillContent` | graph_rag/processor/notion_processor.py:310-313 | the stored page gets its subtree's text unless a strictly newer version replaced it during the walk |
| `NotionProcessor.NotionProcessor.RecursiveProcessPageProperties` | graph_rag/processor/notion_processor.py:315-365 | relation, text, title and URL properties add at least one relation per related page, href and URL |
| `NotionProcessor.NotionProcessor.WalkFromRoot` | graph_rag/processor/notion_processor.py:87-93 | the root page is stored under its normalised id, then its content is walked and written into it |
| `NotionProcessor.NotionProcessor.ProcessPages` | graph_rag/processor/notion_processor.py:73-98 | answers from the cache when both lists load; otherwise walks from the root, fails only when the root request fails, and saves the walk so that it loads back |
| `NotionProcessor.NotionProcessor.LoadFromCache` | graph_rag/processor/notion_processor.py:74-85 | a hit exactly when both lists load; a loaded page list stays even when the relations fail |
| `NotionProcessor.NotionProcessor.SaveWalk` | graph_rag/processor/notion_processor.py:95-97 | the pages, then the relations, are saved, after which the same root is a cache hit |
| `NotionProcessor.NotionProcessor.FetchData` | graph_rag/processor/notion_processor.py:65-71 | data is handed out exactly when the cache hits or the root page can be fetched, and it is the walker's pages and relations |
| `LegacyBlocks.ExtractUuid` | src/processor/notion_processor.py:12-19 | a matched id is group 4 as written in the href: 32 digits and at most four hyphens |
| `LegacyBlocks.ExtractUuidHyphensRemoved` | src/graph_rag/processor/notion_processor.py:13-20 | the older extractor accepts exactly the hrefs the current one accepts, and its result without hyphens is the current one's |
| `LegacyBlocks.MatchSpans` | src/processor/notion_processor.py:13-17 | the text group 4 spans is its digits with hyphens between them |
| `LegacyBlocks.UuidSpanLength` | src/processor/notion_processor.py:13 | group 4 spans between 32 and 36 characters |
| `LegacyBlocks.ProcessBlock` | src/processor/notion_processor.py:182-200 | the recursion with its loop over the children gives the block's line, a newline, then its children's text, and fails when a children request fails |
| `LegacyBlocks.ExtractFullContent` | src/processors/notion_processor.py:22-29 | the loop gives the blocks' texts in order, and fails when any block fails |
| `LegacyBlocks.BlocksTextStep` | src/processors/notion_processor.py:26-27 | one more block extends the text by that block's text, or fails the whole |
| `LegacyBlocks.BlockTextLines` | src/processors/notion_processor.py:31-49 | when no line text holds a line break, a block's text has one newline per block visited |
| `LegacyBlocks.BlockTextEndsLine` | src/processors/notion_processor.py:42-49 | a block's text is never empty and ends with a newline |
| `LegacyBlocks.LegacyPage` | src/processor/notion_processor.py:155-180 | a page stored by the older walkers has its id, no content and source `Notion` |
| `LegacyBlocks.ExtendsTrans` | src/processor/notion_processor.py:146-180 | "only adds keys" composes |
| `SrcProcessors.TitlePropertyTextMeaning` | src/processors/notion_processor.py:19-20 | the title read succeeds exactly for a non-empty title property keyed `title`, and gives its first element's text; no such key means failure |
| `SrcProcessors.TitlePropertyFound` | src/processors/notion_processor.py:19-20 | a title property stored as the last `title` entry is the one read, wherever it sits |
| `SrcProcessors.ProcessPage` | src/processors/notion_processor.py:7-17 | a record is returned exactly when the metadata, title and every block request succeed; it holds the page id, the title and the full content |
| `SrcProcessors.BlocksTextAppend` | src/processors/notion_processor.py:22-29 | the text of two runs of blocks is the first's followed by the second's, and fails exactly when either fails |
| `SrcProcessors.SingleBlockText` | src/processors/notion_processor.py:26-27 | a single block's page text is the block's own text |
| `SrcProcessors.BlocksTextLines` | src/processors/notion_processor.py:22-49 | when no line text holds a line break, the page content has exactly one newline per block visited |
| `SrcProcessors.BlocksTextEndsLine` | src/processors/notion_processor.py:22-49 | page content is empty or ends with a newline |
| `SrcProcessors.BulletLines` | src/processors/notion_processor.py:33-42 | a bulleted item is written after the mojibake bullet, a numbered one after `1. `, and any other type (no unknown type starts with `heading_`) as an empty line |
| `SrcProcessor.PropertyNamed` | src/processor/notion_processor.py:25-27 | a property found under a name is one of the page's entries with that name; none is found only when no entry has it |
| `SrcProcessor.NamedTitleOrder` | src/processor/notion_processor.py:22-30 | the top-level title wins, then `Name`, then `Page`, else `Untitled`; the read raises exactly when the first of `Name`/`Page` to be consulted is not a title |
| `SrcProcessor.NameTitleFound` | src/processor/notion_processor.py:25-26 | a non-empty `Name` title is found wherever it sits among the properties |
| `SrcProcessor.NamedAfterUnnamed` | src/processor/notion_processor.py:25-27 | entries after the last one with a name do not change what the name looks up |
| `SrcProcessor.UnvisitedDrops` | src/processor/notion_processor.py:155-174 | storing a new id the API answers for leaves fewer ids to visit, which is why the unbounded walk ends |
| `SrcProcessor.HrefCountPrefix` | src/processor/notion_processor.py:119-121 | a prefix of a rich-text array has no more hrefs than the array |
| `SrcProcessor.StoredPage` | src/processor/notion_processor.py:172-177 | archived and trashed pages alike are marked `[ARCHIVED] ` and no other page is |
| `SrcProcessor.UnboundedProcessor.constructor` | src/processor/notion_processor.py:38-42 | a new walker holds no pages and no relations |
| `SrcProcessor.UnboundedProcessor.ProcessPages` | src/processor/notion_processor.py:44-50 | a failing root request or title read changes nothing; otherwise the root page is stored under its raw id over any earlier entry, and the walk only adds |
| `SrcProcessor.UnboundedProcessor.RecursiveProcessPageChildren` | src/processor/notion_processor.py:52-70 | one relation at least per database item, link and href unless a request raises; a page whose blocks cannot be fetched raises |
| `SrcProcessor.UnboundedProcessor.ParseBlocks` | src/processor/notion_processor.py:68-70 | the loop over the top-level blocks adds their relations, only adding pages |
| `SrcProcessor.UnboundedProcessor.ProcessDatabaseItems` | src/processor/notion_processor.py:60-64 | one `CONTAINS` relation at least per database item |
| `SrcProcessor.UnboundedProcessor.RecursiveParseBlock` | src/processor/notion_processor.py:72-144 | the first relation is `CONTAINS` for a child page, `REFERENCES` for a page link or URL block; an unsupported block changes nothing; children are fetched for every other block with children |
| `SrcProcessor.UnboundedProcessor.ParseOwnBlock` | src/processor/notion_processor.py:108-139 | the relation each block type calls for, before any child |
| `SrcProcessor.UnboundedProcessor.ParseChildBlocks` | src/processor/notion_processor.py:141-144 | the children's relations, in order |
| `SrcProcessor.UnboundedProcessor.ParseChildBlock` | src/processor/notion_processor.py:143-144 | one child's relations |
| `SrcProcessor.UnboundedProcessor.ProcessRichTextLinks` | src/processor/notion_processor.py:118-130 | one relation at least per text with an href; nothing changes without one |
| `SrcProcessor.UnboundedProcessor.ProcessRichTextLink` | src/processor/notion_processor.py:121-130 | an href with an id becomes a reference to the id as written, any other a bookmark relation and node |
| `SrcProcessor.UnboundedProcessor.ProcessUnprocessedBookmark` | src/processor/notion_processor.py:146-153 | a URL already held is left alone; a new one gets its bookmark node |
| `SrcProcessor.UnboundedProcessor.AppendAndVisit` | src/processor/notion_processor.py:109-115 | the relation is appended before the page is visited |
| `SrcProcessor.UnboundedProcessor.RecursiveProcessUnprocessedPage` | src/processor/notion_processor.py:155-180 | a stored raw id or failed request changes nothing; a raising title changes nothing; otherwise the page is stored and, when live, walked |
| `SrcProcessor.UnboundedProcessor.StorePage` | src/processor/notion_processor.py:172-180 | an archived or trashed page is stored marked and not walked into; a live one is walked |
| `SrcProcessor.UnboundedProcessor.ProcessBlockText` | src/processor/notion_processor.py:182-200 | the block's text is its line after the bullet `• `, a newline, then its children's text |
| `SrcGraphRagProcessor.TopTitleAgrees` | src/graph_rag/processor/notion_processor.py:23-27 | where a page has a top-level title, this walker's title is the one the current walker reads |
| `SrcGraphRagProcessor.StoredPage` | src/graph_rag/processor/notion_processor.py:189-194 | archived and trashed pages alike are marked `[ARCHIVED] `, and no other page is |
| `SrcGraphRagProcessor.DepthLimitedProcessor.constructor` | src/graph_rag/processor/notion_processor.py:35-40 | a new walker holds no pages and no relations |
| `SrcGraphRagProcessor.DepthLimitedProcessor.ProcessPages` | src/graph_rag/processor/notion_processor.py:42-48 | succeeds exactly when the root request does; the root page is stored under its raw id over any earlier entry, and below the limit its children add their relations |
| `SrcGraphRagProcessor.DepthLimitedProcessor.RecursiveProcessPageChildren` | src/graph_rag/processor/notion_processor.py:50-78 | nothing changes once the depth reaches the limit; below it one relation at least per database item, link and href |
| `SrcGraphRagProcessor.DepthLimitedProcessor.RecursiveProcessBlock` | src/graph_rag/processor/notion_processor.py:80-158 | the first relation is `CONTAINS` for a child page, `REFERENCES` for a page link or URL block; an unsupported block changes nothing; stored pages are never replaced |
| `SrcGraphRagProcessor.DepthLimitedProcessor.ProcessOwnBlock` | src/graph_rag/processor/notion_processor.py:117-148 | the relation each block type calls for, before any child |
| `SrcGraphRagProcessor.DepthLimitedProcessor.ProcessChildBlocks` | src/graph_rag/processor/notion_processor.py:150-158 | the children's relations, in order; a failed children request ends quietly |
| `SrcGraphRagProcessor.DepthLimitedProcessor.ProcessChildBlock` | src/graph_rag/processor/notion_processor.py:157-158 | one child's relations |
| `SrcGraphRagProcessor.DepthLimitedProcessor.ProcessRichTextLinks` | src/graph_rag/processor/notion_processor.py:127-139 | one relation at least per text with an href; nothing changes without one |
| `SrcGraphRagProcessor.DepthLimitedProcessor.ProcessRichTextLink` | src/graph_rag/processor/notion_processor.py:130-139 | an href with an id becomes a reference to the id as written, any other a bookmark relation and node |
| `SrcGraphRagProcessor.DepthLimitedProcessor.AppendAndProcess` | src/graph_rag/processor/notion_processor.py:118-124 | the relation is appended before the page is visited |
| `SrcGraphRagProcessor.DepthLimitedProcessor.ProcessUnprocessedBookmark` | src/graph_rag/processor/notion_processor.py:160-169 | a URL already held is left alone; a new one gets its bookmark node |
| `SrcGraphRagProcessor.DepthLimitedProcessor.RecursiveProcessUnprocessedPage` | src/graph_rag/processor/notion_processor.py:171-197 | a stored raw id or failed request changes nothing; otherwise the page is stored, marked when archived or trashed and then not walked into |
| `SrcGraphRagProcessor.DepthLimitedProcessor.ProcessBlockMarkdown` | src/graph_rag/processor/notion_processor.py:199-217 | the block's text is its line after the mojibake bullet, a newline, then its children's text |
| `Text.RemoveChar` | graph_rag/processor/notion_processor.py:22 | `replace(c, '')` never lengthens, and keeps exactly the characters other than `c` |
| `Text.RemoveCharConcat` | graph_rag/processor/notion_processor.py:29 | removing a character from a concatenation removes it from each part |
| `Text.RemoveCharAbsent` | graph_rag/processor/notion_processor.py:29 | removing an absent character changes nothing |
| `Text.Upper` | graph_rag/data_model/graph_data_classes.py:17-18 | `upper()` keeps the length and upper-cases each ASCII letter in place |
| `TextCleaning.KeepOnly` | graph_rag/processor/content_chnker_and_embedder.py:22 | dropping the characters outside a class never lengthens, and keeps only characters of the class taken from the input |
| `TextCleaning.KeepOnlyConcat` | graph_rag/processor/content_chnker_and_embedder.py:22 | the filter works character by character: a concatenation filters part by part |
| `TextCleaning.KeepOnlyAll` | graph_rag/processor/content_chnker_and_embedder.py:22 | a text made only of kept characters is unchanged |
| `TextCleaning.CollapseShape` | graph_rag/processor/content_chnker_and_embedder.py:24 | after `re.sub(r'\s+', ' ', ...)` whitespace is single spaces, never two in a row, and the other characters are the input's, in order |
| `TextCleaning.CollapseFixes` | graph_rag/processor/content_chnker_and_embedder.py:24 | a text already single-spaced is left as it is |
| `TextCleaning.StripLeft` | graph_rag/processor/content_chnker_and_embedder.py:24 | the result is a suffix that starts with no whitespace, and only whitespace was removed |
| `TextCleaning.StripRight` | graph_rag/processor/content_chnker_and_embedder.py:24 | the result is a prefix that ends with no whitespace, and only whitespace was removed |
| `TextCleaning.StripSlice` | graph_rag/processor/content_chnker_and_embedder.py:24 | `strip()` is a slice with only whitespace around it, and neither end of the result is whitespace |
| `TextCleaning.StripFixes` | graph_rag/processor/content_chnker_and_embedder.py:24 | a text without whitespace at either end is its own `strip()` |
| `TextCleaning.StripKeeps` | graph_rag/processor/content_chnker_and_embedder.py:24 | `strip()` removes no character that is not whitespace |
| `TextCleaning.CleanWithShape` | graph_rag/processor/content_chunker_and_embedder.py:23-27 | a cleaned text holds only kept non-whitespace characters and single spaces between them, none at either end |
| `TextCleaning.CleanWithKeeps` | graph_rag/processor/content_chunker_and_embedder.py:23-27 | cleaning keeps every kept non-whitespace character of the input, in order, and no other |
| `TextCleaning.CleanWithFixes` | graph_rag/processor/content_chunker_and_embedder.py:23-27 | a text in cleaned shape is its own cleaning |
| `Embeddings.MapAll` | graph_rag/processor/content_chnker_and_embedder.py:134 | one cleaned text per chunk, in order |
| `Embeddings.Zip` | graph_rag/processor/content_chnker_and_embedder.py:137-140 | `zip` pairs text `i` with embedding `i` and stops at the shorter list |
| `Embeddings.EmbeddedChunks` | graph_rag/processor/content_chunker_and_embedder.py:177-186 | only the page's chunks change: chunk `i` holds raw text `i` and the `i`th embedding of the cleaned texts, one per text when the service returns enough |
| `ChunkSearch.SearchStep` | graph_rag/processor/content_chnker_and_embedder.py:74-82 | one probe either settles inside the bounds or narrows them strictly |
| `ChunkSearch.SearchAsWritten` | graph_rag/processor/content_chnker_and_embedder.py:71-83 | the search as written ends inside the content, counting later probes from the moved lower bound |
| `ChunkSearch.AsWrittenOvershoots` | graph_rag/processor/content_chnker_and_embedder.py:71-83 | with length as token count, `"aaaa"` and budget 3, the search as written returns 4, whose slice does not fit; the anchored search returns 3 |
| `ChunkSearch.Search` | graph_rag/processor/content_chunker_and_embedder.py:76-88 | the corrected search, anchored at the chunk's start, ends inside the content |
| `ChunkSearch.SearchFinds` | graph_rag/processor/content_chunker_and_embedder.py:76-88 | while the bounds bracket the answer, the search ends at a fitting end with no fitting end one character longer |
| `ChunkSearch.ChunkEndFits` | graph_rag/processor/content_chunker_and_embedder.py:76-88 | when the empty slice fits, the end found fits and one more character would not |
| `ChunkSearch.ChunkEndLargest` | graph_rag/processor/content_chunker_and_embedder.py:72 | for a monotone counter, an end fits exactly when it is at most the one found: it is the largest chunk that fits |
| `ChunkSearch.ChunkEndAllFits` | graph_rag/processor/content_chunker_and_embedder.py:76-88 | when everything from the start fits, the end is the content's length |
| `ChunkSearch.ChunkEndEmpty` | graph_rag/processor/content_chunker_and_embedder.py:78-88 | empty content ends at 0 |
| `ChunkSearch.ChunkEndZeroBudget` | graph_rag/processor/content_chunker_and_embedder.py:76-88 | a zero budget where the first character costs a token ends at the start |
| `ChunkSearch.FindChunkEnd` | graph_rag/processor/content_chunker_and_embedder.py:76-88 | the corrected `_find_chunk_end`: the loop returns the end of the search anchored at the chunk's start |
| `ChunkSearch.Bodies` | graph_rag/processor/content_chunker_and_embedder.py:67 | one slice per window |
| `ChunkSearch.WindowInside` | graph_rag/processor/content_chunker_and_embedder.py:65-67 | each window lies in the content from the loop's start on and begins before the content's end |
| `ChunkSearch.WindowsStart` | graph_rag/processor/content_chunker_and_embedder.py:65 | there are windows exactly while the start is inside the content, and the first begins there |
| `ChunkSearch.WindowsLast` | graph_rag/processor/content_chunker_and_embedder.py:70-73 | the loop stops after the window that reaches the content's end, or when the next start would pass it |
| `ChunkSearch.WindowsStep` | graph_rag/processor/content_chunker_and_embedder.py:70-73 | a window followed by another ends before the content does, and the next starts at `max(chunk_end - overlap, start + 1)` |
| `ChunkSearch.WindowsOverlap` | graph_rag/processor/content_chunker_and_embedder.py:73 | starts strictly increase; after a non-empty window the next leaves no gap and shares at most `overlap` characters |
| `ChunkSearch.WindowIsSearch` | graph_rag/processor/content_chunker_and_embedder.py:66 | every window ends where the corrected search from its own start says |
| `ChunkSearch.WindowFits` | graph_rag/processor/content_chunker_and_embedder.py:66-67 | with the corrected search, every window's slice fits the budget, and one more character would not unless it ends the content |
| `ChunkSearch.TextChunks` | graph_rag/processor/content_chunker_and_embedder.py:62-74 | `create_text_chunks`, over the corrected search, returns the slices of the windows, in order |
| `ChunkSearch.WindowsAsWrittenInside` | graph_rag/processor/content_chunker_and_embedder.py:62-74 | with the search as written, each window still lies in the content from the loop's start on, and the next window starts at `max(chunk_end - overlap, start + 1)` |
| `ChunkSearch.AaaaAsWritten` | graph_rag/processor/content_chunker_and_embedder.py:62-74 | with length as token count, `"aaaa"`, budget 3 and overlap 0, the windows as written are the single window 0..4 |
| `ChunkSearch.AaaaCorrected` | graph_rag/processor/content_chunker_and_embedder.py:62-74 | on the same input the corrected windows are 0..3 and 3..4 |
| `ChunkSearch.WindowsAsWrittenOvershoot` | graph_rag/processor/content_chunker_and_embedder.py:62-74 | as written, `create_text_chunks` returns `["aaaa"]`, whose token count exceeds the budget 3; corrected it returns `["aaa", "a"]` |
| `SentenceChunker.Span` | graph_rag/processor/content_chunker_and_embedder.py:21 | the length of the longest prefix whose characters all match, so the next character (if any) does not |
| `SentenceChunker.TextStart` | graph_rag/processor/content_chunker_and_embedder.py:21 | a heading's text starts after the `#` run and the whitespace after it, within the line |
| `SentenceChunker.LineEnd` | graph_rag/processor/content_chunker_and_embedder.py:21 | a heading's line ends after its text start, at the first line break or the end |
| `SentenceChunker.HeadingBecomesSentence` | graph_rag/processor/content_chunker_and_embedder.py:21 | a line `#... text` at a line start becomes `text.`, the line break after it stays, and the next line is scanned as a line start |
| `SentenceChunker.HeadingMatch` | graph_rag/processor/content_chunker_and_embedder.py:21 | one heading match keeps exactly the text between the whitespace and the line end, followed by a full stop |
| `SentenceChunker.LineBreakStep` | graph_rag/processor/content_chunker_and_embedder.py:21 | after a line break the multiline anchor `^` matches again |
| `SentenceChunker.NoHashUnchanged` | graph_rag/processor/content_chunker_and_embedder.py:21 | a text without `#` is left unchanged by the heading rewrite |
| `SentenceChunker.CleanMarkdownShape` | graph_rag/processor/content_chunker_and_embedder.py:17-27 | `clean_markdown` yields only kept characters and single inner spaces, and keeps every kept non-space character of the heading-rewritten text in order |
| `SentenceChunker.CleanMarkdownIdempotent` | graph_rag/processor/content_chunker_and_embedder.py:17-27 | cleaning a cleaned text changes nothing |
| `SentenceChunker.CleanedHasNoHash` | graph_rag/processor/content_chunker_and_embedder.py:24 | a cleaned text holds no `#` |
| `SentenceChunker.PyBound` | graph_rag/processor/content_chunker_and_embedder.py:100 | a Python slice bound (negative counts from the end) is clamped into the sequence |
| `SentenceChunker.PySlices` | graph_rag/processor/content_chunker_and_embedder.py:100 | `xs[:n]` holds the first `n` elements (or all) for non-negative `n`, and `xs[:n] + xs[n:] == xs` |
| `SentenceChunker.PySuffixSameLength` | graph_rag/processor/content_chunker_and_embedder.py:119 | `tokens[k:]` is never longer than `tokens`, and when as long it is `tokens` itself |
| `SentenceChunker.RFind` | graph_rag/processor/content_chunker_and_embedder.py:103-106 | `rfind` returns -1 or an index holding the character, with no occurrence after it |
| `SentenceChunker.LastStopMeaning` | graph_rag/processor/content_chunker_and_embedder.py:102-107 | the max of the four searches is the last sentence end (`.`, `?`, `!`, line break) or -1 |
| `SentenceChunker.CutShape` | graph_rag/processor/content_chunker_and_embedder.py:108-109 | the cut is a prefix of the decoded text; it ends with the last sentence end when there is one, and is the whole text otherwise |
| `SentenceChunker.RunStep` | graph_rag/processor/content_chunker_and_embedder.py:99-119 | a turn that does not take every token emits its text when not blank, then continues from `tokens[size - overlap:]` |
| `SentenceChunker.RunLast` | graph_rag/processor/content_chunker_and_embedder.py:114-116 | a turn whose text counts at least as many tokens as remain emits its text (if not blank) and ends the loop |
| `SentenceChunker.RunStuck` | graph_rag/processor/content_chunker_and_embedder.py:118-119 | a turn that leaves the tokens as they were makes the loop repeat forever |
| `SentenceChunker.TakeText` | graph_rag/processor/content_chunker_and_embedder.py:100-109 | one turn's text is the decoded first `available` tokens, cut after the last sentence end |
| `SentenceChunker.CreateSentenceAwareChunks` | graph_rag/processor/content_chunker_and_embedder.py:90-121 | the loop ends with exactly the texts of the sentence run (or never ends when the run repeats), with the overlap dropped to 0 when the budget does not exceed it |
| `SentenceChunker.StepShrinks` | graph_rag/processor/content_chunker_and_embedder.py:114-119 | a continuing turn shrinks the tokens exactly when the taken text's token count differs from the overlap and the kept overlap is shorter than the tokens |
| `SentenceChunker.RunTexts` | graph_rag/processor/content_chunker_and_embedder.py:111-112 | every emitted text is neither empty nor whitespace only, and is what a turn takes from some suffix of the encoded content |
| `SentenceChunker.TakenSuffix` | graph_rag/processor/content_chunker_and_embedder.py:119 | a text taken from a suffix of the remaining tokens is taken from a suffix of the original ones |
| `SentenceChunker.ZeroBudgetLoops` | graph_rag/processor/content_chunker_and_embedder.py:92-95 | with a budget of 0 and any non-empty encoding the loop never ends: each turn takes the empty text and drops no token |
| `SentenceChunker.WithPrefix` | graph_rag/processor/content_chunker_and_embedder.py:57 | every content chunk is preceded by the content prefix, one for one |
| `SentenceChunker.CreateChunks` | graph_rag/processor/content_chunker_and_embedder.py:49-60 | `create_chunks` raises without content, never ends when the sentence loop does not, and otherwise prefixes each content chunk or returns the metadata chunk alone |
| `SentenceChunker.PageChunksShape` | graph_rag/processor/content_chunker_and_embedder.py:49-60 | a page raises exactly when it has no content; a finished page has at least one chunk: the metadata alone, or each prefixed text non-blank |
| `SentenceChunker.ProcessPage` | graph_rag/processor/content_chunker_and_embedder.py:177-186 | a page gets chunks exactly when `create_chunks` finishes, each raw chunk zipped with the embedding of its cleaned text |
| `SentenceChunker.Process` | graph_rag/processor/content_chunker_and_embedder.py:149-175 | relations and page ids are unchanged; every page or database is settled with its chunks and everything else untouched, exactly when no page raises or hangs; otherwise each page is unchanged or settled |
| `TextChunker.CleanShape` | graph_rag/processor/content_chnker_and_embedder.py:18-24 | `clean` yields only kept characters and single inner spaces, and keeps every kept non-space character in order |
| `TextChunker.CleanIdempotent` | graph_rag/processor/content_chnker_and_embedder.py:18-24 | cleaning a cleaned text changes nothing |
| `TextChunker.PrefixedWindows` | graph_rag/processor/content_chnker_and_embedder.py:46-57 | the loop's chunks are, one for one, the metadata prefix before the slice of each window of the corrected window sequence |
| `TextChunker.CreateChunks` | graph_rag/processor/content_chnker_and_embedder.py:41-65 | `create_chunks`, over the corrected search, returns the windowed chunks, or the prefix alone when the content is missing or empty |
| `TextChunker.PageChunksShape` | graph_rag/processor/content_chnker_and_embedder.py:41-65 | there is always at least one chunk and each starts with the prefix; without content it is the prefix alone; otherwise chunk `i` is the prefix before the slice of window `i` of the corrected search, inside the content |
| `TextChunker.PageChunksFit` | graph_rag/processor/content_chnker_and_embedder.py:71-83 | with the corrected search and when the empty slice fits, each chunk's slice is the longest from its start that fits the budget left after the prefix |
| `TextChunker.ProcessPage` | graph_rag/processor/content_chnker_and_embedder.py:131-140 | a page's chunks, over the corrected search, become the raw chunk texts zipped with the embeddings of their cleaned texts |
| `TextChunker.ProcessedPageShape` | graph_rag/processor/content_chnker_and_embedder.py:131-140 | a processed page differs from the stored one only in its chunks, at most one per chunk text, each holding the raw text that starts with the prefix |
| `TextChunker.Process` | graph_rag/processor/content_chnker_and_embedder.py:103-129 | relations and page ids are unchanged; every page or database gets its chunks (over the corrected search) and embeddings, and every other page is left as it was |
| `GraphBuilder.CleanOrphanRelations` | graph_rag/processor/graph_builder.py:78-85 | a relation is kept exactly when both its endpoints are pages, and nothing is added |
| `GraphBuilder.CleanSplit` | graph_rag/processor/graph_builder.py:82-83 | the filter keeps order: cleaning a concatenation cleans each part |
| `GraphBuilder.CleanKeepsLinked` | graph_rag/processor/graph_builder.py:82-83 | relations whose endpoints are all pages are left as they are |
| `GraphBuilder.CleanIdempotent` | graph_rag/processor/graph_builder.py:78-85 | cleaning cleaned relations changes nothing |
| `GraphBuilder.Stub` | graph_rag/processor/graph_builder.py:51-58 | an unprocessed page has the given id and source, title `Unprocessed`, type page, an empty url and no content, edit time or chunks |
| `GraphBuilder.AddStubs` | graph_rag/processor/graph_builder.py:37-48 | one relation adds a stub for each missing endpoint, with the other endpoint's source when it was present and `Unknown` otherwise, and changes no existing page |
| `GraphBuilder.WithStubs` | graph_rag/processor/graph_builder.py:34-49 | adding stubs keeps every existing page as it was |
| `GraphBuilder.StubsClose` | graph_rag/processor/graph_builder.py:34-49 | after stubs are added every relation joins two pages |
| `GraphBuilder.StubsOnlyForEndpoints` | graph_rag/processor/graph_builder.py:34-49 | every added page is a stub for an endpoint of some relation, its source `Unknown` or that of another page |
| `GraphBuilder.StubsNoneMissing` | graph_rag/processor/graph_builder.py:40-47 | when every endpoint is a page, nothing is added |
| `GraphBuilder.StubsLeaveNothingToClean` | graph_rag/processor/graph_builder.py:28-32 | after stubs are added, the cleaning policy would remove no relation: the two policies agree on linked relations |
| `GraphBuilder.AddMissingPage` | graph_rag/processor/graph_builder.py:51-61 | the pages map gets the stub at the id, replacing nothing else, and relations are unchanged |
| `GraphBuilder.AddMissingPages` | graph_rag/processor/graph_builder.py:34-49 | the pages become the stubbed map, relations are unchanged, and every relation then joins two pages |
| `GraphBuilder.HandleOrphanRelations` | graph_rag/processor/graph_builder.py:28-32 | with the flag set the pages get stubs and relations stay; otherwise pages stay and orphan relations go; either way every relation joins two pages |
| `GraphBuilder.BuildGraph` | graph_rag/processor/graph_builder.py:16-26 | nodes are created for the pages present before orphans are handled, and the relations linked are those the policy leaves, each joining two pages |
| `Pipeline.MergeAppend` | graph_rag/pipeline/data_processing_pipeline.py:60-63 | merging two runs of sources is merging each, later pages overriding earlier ones and relations appended |
| `Pipeline.MergePages` | graph_rag/pipeline/data_processing_pipeline.py:62 | a page id is merged exactly when some source has it, holding the page of the last source that has it |
| `Pipeline.MergeRelations` | graph_rag/pipeline/data_processing_pipeline.py:63 | a relation is merged exactly when some source has it |
| `Pipeline.ApplyAllAppend` | graph_rag/pipeline/data_processing_pipeline.py:66-67 | running processors `a + b` is running `a` and then `b` on its result |
| `Pipeline.DataProcessingPipeline.constructor` | graph_rag/pipeline/data_processing_pipeline.py:14-18 | a new pipeline has no data sources and no processors |
| `Pipeline.DataProcessingPipeline.AddDataSource` | graph_rag/pipeline/data_processing_pipeline.py:49-50 | the source is appended and the processors are unchanged |
| `Pipeline.DataProcessingPipeline.AddProcessor` | graph_rag/pipeline/data_processing_pipeline.py:52-53 | the processor is appended and the sources are unchanged |
| `Pipeline.DataProcessingPipeline.MergeSources` | graph_rag/pipeline/data_processing_pipeline.py:56-63 | a fresh `ProcessedData` holding the merge of every source's pages and relations, in registration order |
| `Pipeline.DataProcessingPipeline.RunAsWritten` | graph_rag/pipeline/data_processing_pipeline.py:55-85 | as written: the run raises exactly when some processor is registered (it calls `process_data`, which `Processor` does not define), before any node is built; with no processor it builds the nodes and links of the merged data under the orphan policy |
| `Pipeline.DataProcessingPipeline.Run` | graph_rag/pipeline/data_processing_pipeline.py:55-85 | as intended (each processor's `process`): the data is the merge of the sources run through every processor in order, then the orphan policy; nodes are the pages before that policy, and every linked relation joins two pages |

## Left out

- Date parsing (`_format_date`, the `datetime` parsing in `first_time_after_second`) is not modelled. Timestamps are strings, ordered through an abstract `instant` function.
- A float, and a formula or rollup result that is a dict or a list, is held by the text Python's `str()` prints for it, not by its value; the model does not compute that text. Upper-casing covers ASCII letters only, with no Unicode case mapping.
- A user's or option's `name` that is present but null is not modelled: `name` is `None` only when the key is missing. Python would print `None` for it, or raise `TypeError` when joining a list of people.
- The JSON layer of the cache file is not modelled: a file is a map from key to entry. Corrupt or unreadable files are left out.
- Uncaught API exceptions while listing database items or paginating properties are not modelled: those oracle lookups answer an empty list when absent. Caught failures are modelled as `None`, `false` or a `raised` result.
- A scraper result whose title is `None` is not modelled: the scraped title is a string.
- A stored entry without an edit time (a bookmark, keyed by its URL) is not modelled as a failure. If a page id ever equals such a key, Python's `strptime(None)` raises; the model treats the fetched page as not newer and leaves the entry alone.
- NotionProcessor.NotionProcessor.FillContent: Python assigns `page.content` on the object it inserted. The model writes the content back only while the stored entry is still that page apart from its content. So a value-equal but distinct object, stored by deeper recursion, would get the content here but not in Python (aliasing).
- SrcGraphRagProcessor.DepthLimitedProcessor.RecursiveProcessUnprocessedPage: the page object is stored at once and filled in place in Python. The model stores the finished value, so it does not capture aliasing between the stored object and later writes.
- Pagination is not modelled: every oracle answers with the results already joined across pages.
- The NotionAPI clients (HTTP, md5 file cache, retries) of `graph_rag/data_source` and `src/data_sources` are not part of this model. Only the answers they give are.
- Properties are an ordered list of name and value pairs. A lookup by name takes the last pair with that name, as a dict built from the JSON keeps the last duplicate key. Iterations over the properties (the title search, the property lines, the property relations) visit every pair in list order. A list that repeats a name, which no dict can produce, would be visited once per pair there, where Python sees one key.
- Block types whose name starts with `heading_` beyond `heading_1` to `heading_3` are not modelled. The legacy renderers choose their heading branch by that prefix alone (`startswith('heading_')`), so such a block would print its rich text. An unknown block type in the model therefore never starts with `heading_`, and `LegacyBlocks.BlockLine` and `SrcProcessors.BulletLines` render every unknown type as an empty line. Notion defines no such type.
- The chunkers' own cache load and save in `process` are left out. Their pass is modelled from the point where no cache answered.
- tiktoken and the embedding service are oracles. Their outputs are not constrained beyond what the code relies on.
- Logging and the progress bar are left out.
- SentenceChunker.Process: dict iteration order is not modelled. When a page raises or hangs, the pass says only that each page is unchanged or settled, not which pages came before the failure.
- Neo4j calls are not part of this model: `create_vector_index`, `create_page_node` (including the one in `add_missing_page`) and `link_entities`. `GraphBuilder.BuildGraph` returns the nodes and links it would hand over.
- Processors are modelled as functions from pages and relations to pages and relations. Data sources are modelled as their fetched results. In-place effects a processor has on objects shared with others are not modelled.
- `Chunk` is declared beside the other records because both chunkers import it from `graph_data_classes.py`, which does not define it. `PageType.CHUNK` and `RelationType.HAS_CHUNK` serve only the graph database, so they are left out.
- `NotionProcessor.refresh_updated_pages` is not modelled: its only call is commented out.
- The legacy `src/graph_rag/pipeline` and `src/pipeline` orchestration, the entity extractors, the agent, the UI and the config loaders are not part of this model.
- NotionProcessor.NotionProcessor.RecursiveProcessPageContent: the number of relations it adds is stated as a lower bound (at least one per item, link and href), because the recursion they trigger adds more.
- NotionProcessor.NotionProcessor.ProcessRichTextArray: at least one relation per href, for the same reason.
- NotionProcessor.NotionProcessor.RecursiveProcessPageProperties: at least one relation per related page, href and URL, for the same reason.
- SrcProcessor.UnboundedProcessor.RecursiveProcessPageChildren: at least one relation per database item, link and href, for the same reason.
- SrcProcessor.UnboundedProcessor.ProcessRichTextLinks: at least one relation per href, for the same reason.
- GraphBuilder.StubsOnlyForEndpoints: states that an added stub's source is `Unknown` or some other page's source. The exact rule per relation (the other endpoint's source when that endpoint was present) is stated by `GraphBuilder.AddStubs`.
- TextChunker.PageChunksFit: requires that the empty slice fits the budget. Below that, the search returns the start and no slice fits.
- SentenceChunker.CreateSentenceAwareChunks: a loop that never ends is reported as `Loops` rather than running forever. The model detects it when a turn leaves the tokens as they were.
- NotionProcessor.NotionProcessor.ProcessPageBlocks: the number of relations added (at least one per block link) is stated as a lower bound, not as the exact sequence of relations appended, because the walk it starts appends further relations whose number depends on which pages are already stored and on the oracle's answers; the old relations are stated to stay a prefix of the new ones.
- NotionProcessor.NotionProcessor.RecursiveProcessBlock: the relations added (the first exactly, the total at least one per link of the block and its children) is stated as a lower bound, not as the exact sequence of relations appended, because the walk it starts appends further relations whose number depends on which pages are already stored and on the oracle's answers; the old relations are stated to stay a prefix of the new ones.
- NotionProcessor.NotionProcessor.SaveBlockLinks: the relations added (the first exactly, the total at least one per own link) is stated as a lower bound, not as the exact sequence of relations appended, because the walk it starts appends further relations whose number depends on which pages are already stored and on the oracle's answers; the old relations are stated to stay a prefix of the new ones.
- NotionProcessor.NotionProcessor.ProcessChildBlocks: the number of relations added (at least one per link of the children) is stated as a lower bound, not as the exact sequence of relations appended, because the walk it starts appends further relations whose number depends on which pages are already stored and on the oracle's answers; the old relations are stated to stay a prefix of the new ones.
- NotionProcessor.NotionProcessor.RecursiveProcessUnprocessedPage: the number of relations added for a fetched page (at least one per link of the page) is stated as a lower bound, not as the exact sequence of relations appended, because the walk it starts appends further relations whose number depends on which pages are already stored and on the oracle's answers; the old relations are stated to stay a prefix of the new ones.
- NotionProcessor.NotionProcessor.ProcessFetchedPage: the number of relations added (at least one per link of the page) is stated as a lower bound, not as the exact sequence of relations appended, because the walk it starts appends further relations whose number depends on which pages are already stored and on the oracle's answers; the old relations are stated to stay a prefix of the new ones.
- NotionProcessor.NotionProcessor.FillContent: the number of relations added below the depth limit (at least one per link of the page) is stated as a lower bound, not as the exact sequence of relations appended, because the walk it starts appends further relations whose number depends on which pages are already stored and on the oracle's answers; the old relations are stated to stay a prefix of the new ones.
- NotionProcessor.NotionProcessor.WalkFromRoot: the number of relations added (at least one per link of the root page) is stated as a lower bound, not as the exact sequence of relations appended, because the walk it starts appends further relations whose number depends on which pages are already stored and on the oracle's answers; the old relations are stated to stay a prefix of the new ones.
- NotionProcessor.NotionProcessor.ProcessPages: the number of relations added by a fresh walk (at least one per link of the root page) is stated as a lower bound, not as the exact sequence of relations appended, because the walk it starts appends further relations whose number depends on which pages are already stored and on the oracle's answers; the old relations are stated to stay a prefix of the new ones.
- SrcProcessor.UnboundedProcessor.ProcessPages: the number of relations added (at least one per link of the root page) is stated as a lower bound, not as the exact sequence of relations appended, because the walk it starts appends further relations whose number depends on which pages are already stored and on the oracle's answers; the old relations are stated to stay a prefix of the new ones.
- SrcProcessor.UnboundedProcessor.ParseBlocks: the number of relations added (at least one per block link) is stated as a lower bound, not as the exact sequence of relations appended, because the walk it starts appends further relations whose number depends on which pages are already stored and on the oracle's answers; the old relations are stated to stay a prefix of the new ones.
- SrcProcessor.UnboundedProcessor.ProcessDatabaseItems: the number of relations added (at least one per database item) is stated as a lower bound, not as the exact sequence of relations appended, because the walk it starts appends further relations whose number depends on which pages are already stored and on the oracle's answers; the old relations are stated to stay a prefix of the new ones.
- SrcProcessor.UnboundedProcessor.RecursiveParseBlock: the number of relations added (at least one per link of the block and its children) is stated as a lower bound, not as the exact sequence of relations appended, because the walk it starts appends further relations whose number depends on which pages are already stored and on the oracle's answers; the old relations are stated to stay a prefix of the new ones.
- SrcProcessor.UnboundedProcessor.ParseOwnBlock: the relations added (the first exactly, the total at least one per own link) is stated as a lower bound, not as the exact sequence of relations appended, because the walk it starts appends further relations whose number depends on which pages are already stored and on the oracle's answers; the old relations are stated to stay a prefix of the new ones.
- SrcProcessor.UnboundedProcessor.ParseChildBlocks: the number of relations added (at least one per link of the children) is stated as a lower bound, not as the exact sequence of relations appended, because the walk it starts appends further relations whose number depends on which pages are already stored and on the oracle's answers; the old relations are stated to stay a prefix of the new ones.
- SrcProcessor.UnboundedProcessor.ParseChildBlock: the number of relations added (at least one per link of the child) is stated as a lower bound, not as the exact sequence of relations appended, because the walk it starts appends further relations whose number depends on which pages are already stored and on the oracle's answers; the old relations are stated to stay a prefix of the new ones.
- SrcProcessor.UnboundedProcessor.AppendAndVisit: the relations added (the given relation first, exactly; the walk's own after it) is stated as a lower bound, not as the exact sequence of relations appended, because the walk it starts appends further relations whose number depends on which pages are already stored and on the oracle's answers; the old relations are stated to stay a prefix of the new ones.
- SrcProcessor.UnboundedProcessor.RecursiveProcessUnprocessedPage: the number of relations added for a page that is walked (at least one per link of the page) is stated as a lower bound, not as the exact sequence of relations appended, because the walk it starts appends further relations whose number depends on which pages are already stored and on the oracle's answers; the old relations are stated to stay a prefix of the new ones.
- SrcProcessor.UnboundedProcessor.StorePage: the relations added after the page is stored (at least one per link of the page) is stated as a lower bound, not as the exact sequence of relations appended, because the walk it starts appends further relations whose number depends on which pages are already stored and on the oracle's answers; the old relations are stated to stay a prefix of the new ones.
- SrcGraphRagProcessor.DepthLimitedProcessor.ProcessPages: the number of relations added below the depth limit (at least one per link of the root page) is stated as a lower bound, not as the exact sequence of relations appended, because the walk it starts appends further relations whose number depends on which pages are already stored and on the oracle's answers; the old relations are stated to stay a prefix of the new ones.
- SrcGraphRagProcessor.DepthLimitedProcessor.RecursiveProcessPageChildren: the number of relations added below the depth limit (at least one per link of the page) is stated as a lower bound, not as the exact sequence of relations appended, because the walk it starts appends further relations whose number depends on which pages are already stored and on the oracle's answers; the old relations are stated to stay a prefix of the new ones.
- SrcGraphRagProcessor.DepthLimitedProcessor.RecursiveProcessBlock: the relations added (the first exactly, the total at least one per link of the block and its children) is stated as a lower bound, not as the exact sequence of relations appended, because the walk it starts appends further relations whose number depends on which pages are already stored and on the oracle's answers; the old relations are stated to stay a prefix of the new ones.
- SrcGraphRagProcessor.DepthLimitedProcessor.ProcessOwnBlock: the relations added (the first exactly, the total at least one per own link) is stated as a lower bound, not as the exact sequence of relations appended, because the walk it starts appends further relations whose number depends on which pages are already stored and on the oracle's answers; the old relations are stated to stay a prefix of the new ones.
- SrcGraphRagProcessor.DepthLimitedProcessor.ProcessChildBlocks: the number of relations added (at least one per link of the children) is stated as a lower bound, not as the exact sequence of relations appended, because the walk it starts appends further relations whose number depends on which pages are already stored and on the oracle's answers; the old relations are stated to stay a prefix of the new ones.
- SrcGraphRagProcessor.DepthLimitedProcessor.ProcessChildBlock: the number of relations added (at least one per link of the child) is stated as a lower bound, not as the exact sequence of relations appended, because the walk it starts appends further relations whose number depends on which pages are already stored and on the oracle's answers; the old relations are stated to stay a prefix of the new ones.
- SrcGraphRagProcessor.DepthLimitedProcessor.ProcessRichTextLinks: the number of relations added (at least one per href) is stated as a lower bound, not as the exact sequence of relations appended, because the walk it starts appends further relations whose number depends on which pages are already stored and on the oracle's answers; the old relations are stated to stay a prefix of the new ones.
- SrcGraphRagProcessor.DepthLimitedProcessor.AppendAndProcess: the relations added (the given relation first, exactly; the walk's own after it) is stated as a lower bound, not as the exact sequence of relations appended, because the walk it starts appends further relations whose number depends on which pages are already stored and on the oracle's answers; the old relations are stated to stay a prefix of the new ones.
- SrcGraphRagProcessor.DepthLimitedProcessor.RecursiveProcessUnprocessedPage: the number of relations added for a fetched page (at least one per link of the page) is stated as a lower bound, not as the exact sequence of relations appended, because the walk it starts appends further relations whose number depends on which pages are already stored and on the oracle's answers; the old relations are stated to stay a prefix of the new ones.
- NotionProcessor.NormalizeUuid: `\w` is taken as ASCII letters, digits and `_`. Python's `\w` is Unicode and also accepts other letters and digits, so a dashed id holding, say, `é` is de-hyphenated by Python but left unchanged here. Notion ids are hexadecimal, so real ids are unaffected.

## Findings

| source | as written | input that shows it | evidently intended | confidence | as-written member | corrected member |
|---|---|---|---|---|---|---|
| graph_rag/processor/content_chnker_and_embedder.py:71-83 | after a probe whose slice fits, `start = mid + 1` moves the lower bound, and every later probe slices from that moved bound instead of from the chunk's start; the same code is at graph_rag/processor/content_chunker_and_embedder.py:76-88 | content `"aaaa"`, start 0, budget 3, a counter that counts characters: the search returns 4, and `content[0:4]` costs 4 tokens | 3, the largest end whose slice from the chunk's start fits | not executed | `ChunkSearch.SearchAsWritten`, `ChunkSearch.AsWrittenOvershoots` | `ChunkSearch.FindChunkEnd`, `ChunkSearch.ChunkEndLargest` |
| graph_rag/processor/content_chunker_and_embedder.py:62-74 | `create_text_chunks` cuts its windows with the search above, so a chunk can cost more tokens than the budget; `create_chunks` at graph_rag/processor/content_chnker_and_embedder.py:46-57 does the same with the budget left after the prefix | content `"aaaa"`, budget 3, overlap 0, a counter that counts characters: the chunks are `["aaaa"]`, and that chunk costs 4 tokens | `["aaa", "a"]`, every chunk within the budget | not executed | `ChunkSearch.WindowsAsWrittenOvershoot` | `ChunkSearch.TextChunks`, `ChunkSearch.WindowIsSearch`, `ChunkSearch.WindowFits`, `TextChunker.PrefixedWindows`, `TextChunker.CreateChunks`, `TextChunker.PageChunksShape`, `TextChunker.PageChunksFit`, `TextChunker.ProcessPage`, `TextChunker.ProcessedPageShape`, `TextChunker.Process` |
| graph_rag/pipeline/data_processing_pipeline.py:66-67 | `run` calls `processor.process_data(processed_data)`, but `Processor` at graph_rag/processor/base_processor.py:7-12 defines only `process` | a pipeline with one registered processor: `run` raises `AttributeError` after the merge and before any node is created | `processor.process(processed_data)`, each processor applied in turn | not executed | `Pipeline.DataProcessingPipeline.RunAsWritten` | `Pipeline.DataProcessingPipeline.Run` |
