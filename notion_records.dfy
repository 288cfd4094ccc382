/**
 * The records the Notion API returns, as the processors read them, and the
 * API itself as an oracle of already fetched, fully paginated answers.
 */
module NotionRecords {
  import opened Wrappers

  datatype Annotations = Annotations(
    bold: bool, italic: bool, strikethrough: bool, underline: bool, code: bool, color: string)

  /** `rt['type']` of a rich-text element. */
  datatype RichTextKind = TextKind | MentionKind | EquationKind

  /** One rich-text element. `link` is `text.link.url` (only a text element
      has one); `href` is the element's `href`, `None` when null. */
  datatype RichText = RichText(
    plainText: string, annotations: Annotations, kind: RichTextKind, link: Option<string>, href: Option<string>)

  /** `'href' in text and text['href']` */
  predicate HasHref(rt: RichText) {
    rt.href.Some? && rt.href.value != ""
  }

  /** A Python value as `str()` prints it. A float is held by its printed
      text (`2.5`, `3.0`), and so is a dict or a list (a date formula, an
      array rollup): only the text reaches the markdown. */
  datatype PyScalar =
    | PyNone | PyStr(s: string) | PyInt(i: int) | PyBool(b: bool)
    | PyFloat(printed: string) | PyRepr(printed: string)

  /** Python truthiness of a value: `None`, `''`, `0`, `False`, `0.0`,
      `-0.0`, `{}` and `[]` are falsy. */
  predicate ScalarTruthy(v: PyScalar) {
    match v
    case PyNone => false
    case PyStr(s) => s != ""
    case PyInt(i) => i != 0
    case PyBool(b) => b
    case PyFloat(p) => p != "0.0" && p != "-0.0"
    case PyRepr(p) => p != "{}" && p != "[]"
  }

  /** A user object; `name` is `None` when the key is missing. */
  datatype User = User(name: Option<string>)
  datatype SelectOption = SelectOption(name: Option<string>)
  datatype FileRef = FileRef(name: Option<string>, url: string)
  /** A date property value; `end` is `None` when null. */
  datatype DateRange = DateRange(start: string, end: Option<string>)
  datatype Verification = VerificationState(state: string, verifiedBy: Option<User>, date: Option<DateRange>)

  /** Property types the markdown parser has a handler for. */
  const PropertyTypeNames: set<string> := {
    "checkbox", "created_by", "created_time", "date", "email", "files", "formula", "last_edited_by",
    "last_edited_time", "multi_select", "number", "people", "phone_number", "relation", "rollup",
    "rich_text", "select", "status", "title", "url", "unique_id", "verification"}

  type UnknownPropertyType = s: string | s !in PropertyTypeNames witness "button"

  /** `prop[prop['type']]`, by type. A missing dictionary key is `None`;
      a JSON null is `None` in the `Option` fields that can be null. */
  datatype PropValue =
    | Checkbox(checked: bool)
    | CreatedBy(createdBy: User)
    | CreatedTime(createdTime: string)
    | Date(date: Option<DateRange>)
    | Email(email: Option<string>)
    | Files(files: seq<FileRef>)
    | Formula(formulaResult: Option<PyScalar>)
    | LastEditedBy(lastEditedBy: User)
    | LastEditedTime(lastEditedTime: string)
    | MultiSelect(options: seq<SelectOption>)
    | Number(number: Option<PyScalar>)
    | People(people: seq<User>)
    | PhoneNumber(phone: Option<string>)
    | Relation(relatedIds: seq<string>)
    | Rollup(rollupFunction: string, rollupResult: Option<PyScalar>)
    | RichTextValue(richText: seq<RichText>)
    | Select(select: Option<SelectOption>)
    | Status(status: Option<SelectOption>)
    | Title(title: seq<RichText>)
    | Url(url: Option<string>)
    | UniqueId(prefix: Option<PyScalar>, idNumber: int)
    | VerificationValue(verification: Option<Verification>)
    | OtherProperty(typeName: UnknownPropertyType)

  function PropertyTypeName(v: PropValue): (t: string)
    ensures v.OtherProperty? <==> t !in PropertyTypeNames
  {
    match v
    case Checkbox(_) => "checkbox"
    case CreatedBy(_) => "created_by"
    case CreatedTime(_) => "created_time"
    case Date(_) => "date"
    case Email(_) => "email"
    case Files(_) => "files"
    case Formula(_) => "formula"
    case LastEditedBy(_) => "last_edited_by"
    case LastEditedTime(_) => "last_edited_time"
    case MultiSelect(_) => "multi_select"
    case Number(_) => "number"
    case People(_) => "people"
    case PhoneNumber(_) => "phone_number"
    case Relation(_) => "relation"
    case Rollup(_, _) => "rollup"
    case RichTextValue(_) => "rich_text"
    case Select(_) => "select"
    case Status(_) => "status"
    case Title(_) => "title"
    case Url(_) => "url"
    case UniqueId(_, _) => "unique_id"
    case VerificationValue(_) => "verification"
    case OtherProperty(t) => t
  }

  predicate NonEmptyStr(o: Option<string>) {
    o.Some? && o.value != ""
  }

  /** Python truthiness of `prop[prop_type]`: False, 0, '', None and [] are
      falsy; a dict (a user, a formula, a rollup, a unique id) never is. */
  predicate Truthy(v: PropValue) {
    match v
    case Checkbox(b) => b
    case CreatedBy(_) => true
    case CreatedTime(s) => s != ""
    case Date(d) => d.Some?
    case Email(e) => NonEmptyStr(e)
    case Files(fs) => fs != []
    case Formula(_) => true
    case LastEditedBy(_) => true
    case LastEditedTime(s) => s != ""
    case MultiSelect(os) => os != []
    case Number(n) => n.Some? && ScalarTruthy(n.value)
    case People(ps) => ps != []
    case PhoneNumber(p) => NonEmptyStr(p)
    case Relation(ids) => ids != []
    case Rollup(_, _) => true
    case RichTextValue(rts) => rts != []
    case Select(o) => o.Some?
    case Status(o) => o.Some?
    case Title(rts) => rts != []
    case Url(u) => NonEmptyStr(u)
    case UniqueId(_, _) => true
    case VerificationValue(o) => o.Some?
    case OtherProperty(_) => true
  }

  /** A page property; `hasMore` is the `has_more` flag of a truncated list. */
  datatype Property = Property(id: string, value: PropValue, hasMore: bool)

  /** Block types the markdown parser has a handler for. */
  const BlockTypeNames: set<string> := {
    "paragraph", "heading_1", "heading_2", "heading_3", "bulleted_list_item", "numbered_list_item",
    "to_do", "toggle", "code", "quote", "callout", "child_database", "child_page", "bookmark", "image",
    "divider", "breadcrumb", "column_list", "column", "embed", "equation", "file", "link_preview",
    "link_to_page", "pdf", "synced_block", "table", "table_row", "table_of_contents", "template", "video"}

  /** A block type no renderer handles. A name starting with `heading_` is
      excluded: the legacy renderers pick their heading branch by that
      prefix alone, and Notion defines no such type beyond the three levels. */
  type UnknownBlockType = s: string |
    s !in BlockTypeNames && s != "unsupported" && !(|s| >= 8 && s[..8] == "heading_") witness "audio"
  type HeadingLevel = l: int | 1 <= l <= 3 witness 1

  /** `block[block['type']]`, by type; file-like blocks carry the url of
      whichever of `file`/`external` their `type` names. */
  datatype BlockData =
    | Paragraph(richText: seq<RichText>)
    | Heading(level: HeadingLevel, richText: seq<RichText>)
    | BulletedListItem(richText: seq<RichText>)
    | NumberedListItem(richText: seq<RichText>)
    | ToDo(checked: bool, richText: seq<RichText>)
    | Toggle(richText: seq<RichText>)
    | Code(language: string, richText: seq<RichText>)
    | Quote(richText: seq<RichText>)
    | Callout(emoji: Option<string>, richText: seq<RichText>)
    | ChildDatabase(title: string)
    | ChildPage(title: string)
    | Bookmark(url: string, caption: seq<RichText>)
    | Image(caption: seq<RichText>, url: string)
    | Divider
    | Breadcrumb
    | ColumnList
    | Column
    | Embed(url: string)
    | Equation(expression: string)
    | File(caption: seq<RichText>, url: string, name: string)
    | LinkPreview(url: string)
    | LinkToPage(target: string)
    | Pdf(caption: seq<RichText>, url: string)
    | SyncedBlock(syncedFrom: Option<string>)
    | Table(width: int, hasColumnHeader: bool, hasRowHeader: bool)
    | TableRow(cells: seq<seq<RichText>>)
    | TableOfContents
    | Template(richText: seq<RichText>)
    | Video(caption: seq<RichText>, url: string)
    | Unsupported
    | OtherBlock(typeName: UnknownBlockType)

  function HeadingTypeName(level: HeadingLevel): string {
    if level == 1 then "heading_1" else if level == 2 then "heading_2" else "heading_3"
  }

  function BlockTypeName(d: BlockData): (t: string)
    ensures (d.OtherBlock? || d.Unsupported?) <==> t !in BlockTypeNames
  {
    match d
    case Paragraph(_) => "paragraph"
    case Heading(l, _) => HeadingTypeName(l)
    case BulletedListItem(_) => "bulleted_list_item"
    case NumberedListItem(_) => "numbered_list_item"
    case ToDo(_, _) => "to_do"
    case Toggle(_) => "toggle"
    case Code(_, _) => "code"
    case Quote(_) => "quote"
    case Callout(_, _) => "callout"
    case ChildDatabase(_) => "child_database"
    case ChildPage(_) => "child_page"
    case Bookmark(_, _) => "bookmark"
    case Image(_, _) => "image"
    case Divider => "divider"
    case Breadcrumb => "breadcrumb"
    case ColumnList => "column_list"
    case Column => "column"
    case Embed(_) => "embed"
    case Equation(_) => "equation"
    case File(_, _, _) => "file"
    case LinkPreview(_) => "link_preview"
    case LinkToPage(_) => "link_to_page"
    case Pdf(_, _) => "pdf"
    case SyncedBlock(_) => "synced_block"
    case Table(_, _, _) => "table"
    case TableRow(_) => "table_row"
    case TableOfContents => "table_of_contents"
    case Template(_) => "template"
    case Video(_, _) => "video"
    case Unsupported => assert "unsupported" !in BlockTypeNames; "unsupported"
    case OtherBlock(t) => t
  }

  /** A block together with the answer `get_all_content_blocks(block['id'])`
      would give for its children: `childrenFetched` is false when that
      request fails. */
  datatype Block = Block(id: string, data: BlockData, hasChildren: bool, childrenFetched: bool, children: seq<Block>)

  datatype ObjectKind = PageObject | DatabaseObject

  function ObjectName(k: ObjectKind): string {
    match k
    case PageObject => "page"
    case DatabaseObject => "database"
  }

  /** Page or database metadata. `title` is the top-level title list (only
      databases have one); `properties` keeps the dictionary order. */
  datatype PageInfo = PageInfo(
    id: string,
    objectKind: ObjectKind,
    url: string,
    lastEditedTime: string,
    archived: bool,
    inTrash: bool,
    title: Option<seq<RichText>>,
    properties: seq<(string, Property)>)

  /** The Notion API. A metadata or block-list key that is absent means the
      request raised. The other lists answer `[]` for an absent key; the
      scraper raising is an absent url. */
  datatype Api = Api(
    rootInfo: map<string, PageInfo>,
    pageInfo: map<string, PageInfo>,
    databaseInfo: map<string, PageInfo>,
    contentBlocks: map<string, seq<Block>>,
    databaseItems: map<string, seq<PageInfo>>,
    relationItems: map<(string, string), seq<string>>,
    textItems: map<(string, string), seq<RichText>>,
    scrape: map<string, (string, Option<string>)>)
  {
    function DatabaseItems(id: string): seq<PageInfo> {
      if id in databaseItems then databaseItems[id] else []
    }
  }
}
