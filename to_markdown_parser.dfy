/**
 * The Notion-to-markdown serialiser: one handler per property type and per
 * block type, and the rich-text renderer that wraps each element in its
 * annotations in a fixed order. Handlers of the configured excluded types
 * are removed when the parser is built.
 */
module MarkdownParser {
  import opened Wrappers
  import opened Text
  import opened NotionRecords

  /** One rich-text element: the annotations, then the link, then the colour. */
  function RenderRichText(rt: RichText): string {
    Coloured(rt.annotations.color, Linked(rt, Styled(rt.plainText, rt.annotations)))
  }

  /** Code innermost, then bold, italic, strikethrough and underline. */
  function Styled(text: string, a: Annotations): string {
    var c1 := if a.code then "`" + text + "`" else text;
    var c2 := if a.bold then "**" + c1 + "**" else c1;
    var c3 := if a.italic then "*" + c2 + "*" else c2;
    var c4 := if a.strikethrough then "~~" + c3 + "~~" else c3;
    if a.underline then "<u>" + c4 + "</u>" else c4
  }

  /** The text link of a text element wins over a truthy `href`. */
  function Linked(rt: RichText, text: string): string {
    if rt.kind == TextKind && rt.link.Some? then "[" + text + "](" + rt.link.value + ")"
    else if HasHref(rt) then "[" + text + "](" + rt.href.value + ")"
    else text
  }

  /** A span with the colour name, "_background" dropped, unless the colour is "default". */
  function Coloured(color: string, text: string): string {
    if color != "default" then "<span style=\"color: " + RemoveBackground(color) + "\">" + text + "</span>"
    else text
  }

  /** `color.replace("_background", "")` */
  function RemoveBackground(s: string): (r: string)
    ensures |r| <= |s|
    decreases |s|
  {
    if |s| < 11 then s
    else if s[..11] == "_background" then RemoveBackground(s[11..])
    else [s[0]] + RemoveBackground(s[1..])
  }

  /** `_extract_rich_text`: the renderings of the elements, in order. */
  function RichTextMarkdown(rts: seq<RichText>): string {
    if rts == [] then "" else RichTextMarkdown(rts[..|rts| - 1]) + RenderRichText(rts[|rts| - 1])
  }

  /** The loop of `_extract_rich_text`. */
  method ExtractRichText(rts: seq<RichText>) returns (text: string)
    ensures text == RichTextMarkdown(rts)
  {
    text := "";
    var i := 0;
    while i < |rts|
      invariant 0 <= i <= |rts|
      invariant text == RichTextMarkdown(rts[..i])
    {
      assert rts[..i + 1][..i] == rts[..i];
      text := text + RenderRichText(rts[i]);
      i := i + 1;
    }
    assert rts[..i] == rts;
  }

  /** `replace("_background", "")` on a background colour name: the
      suffix goes and the colour itself stays. */
  lemma {:induction false} BackgroundDropped(c: string)
    requires forall k :: 0 <= k < |c| ==> c[k] != '_'
    ensures RemoveBackground(c + "_background") == c
    decreases |c|
  {
    var s := c + "_background";
    if c == [] {
      assert s == "_background";
      assert s[11..] == [];
    } else {
      assert s[0] == c[0] != '_';
      assert s[..11][0] == c[0];
      assert s[1..] == c[1..] + "_background";
      BackgroundDropped(c[1..]);
      assert [c[0]] + c[1..] == c;
    }
  }

  lemma AllStyles()
    ensures Styled("x", Annotations(true, true, true, true, true, "red" + "_background")) == "<u>~~***`x`***~~</u>"
  {
  }

  lemma ColouredRed(text: string)
    ensures Coloured("red" + "_background", text) == "<span style=\"color: red\">" + text + "</span>"
  {
    BackgroundDropped("red");
  }

  /** The wrapping order: code innermost, then bold, italic, strikethrough,
      underline, the text link, and the colour span outermost with
      "_background" dropped from its name. */
  lemma WrappingOrder()
    ensures RenderRichText(RichText("x", Annotations(true, true, true, true, true, "red" + "_background"),
                                    TextKind, Some("L"), Some("H")))
         == "<span style=\"color: red\">" + ("[" + "<u>~~***`x`***~~</u>" + "](L)") + "</span>"
  {
    var a := Annotations(true, true, true, true, true, "red" + "_background");
    var rt := RichText("x", a, TextKind, Some("L"), Some("H"));
    var styled := Styled("x", a);
    AllStyles();
    var linked := Linked(rt, styled);
    assert linked == "[" + styled + "](L)";
    ColouredRed(linked);
    assert RenderRichText(rt) == Coloured("red" + "_background", linked);
  }

  /** A mention or equation ignores the text link and uses `href`. */
  lemma HrefForMentions()
    ensures RenderRichText(RichText("x", Annotations(false, false, false, false, false, "default"),
                                    MentionKind, Some("L"), Some("H")))
         == "[x](H)"
  {
  }

  function ScalarStr(v: PyScalar): string {
    match v
    case PyNone => "None"
    case PyStr(s) => s
    case PyInt(i) => IntToString(i)
    case PyBool(b) => if b then "True" else "False"
    case PyFloat(p) => p
    case PyRepr(p) => p
  }

  /** `value.get('name', default)` of a user or option. */
  function NameOr(name: Option<string>, default: string): string {
    name.GetOr(default)
  }

  function DateMarkdown(d: DateRange, formatDate: string -> string): string {
    if NonEmptyStr(d.end) then formatDate(d.start) + " - " + formatDate(d.end.value)
    else formatDate(d.start)
  }

  function SelectMarkdown(o: SelectOption): string {
    if NonEmptyStr(o.name) then "#" + o.name.value else ""
  }

  function FileLink(f: FileRef): string {
    "[" + NameOr(f.name, "Unnamed") + "](" + f.url + ")"
  }

  function RelatedPageLink(id: string): string {
    "[Related Page](" + id + ")"
  }

  function MapStrings<T>(xs: seq<T>, f: T -> string): (r: seq<string>)
    ensures |r| == |xs| && forall i :: 0 <= i < |xs| ==> r[i] == f(xs[i])
  {
    if xs == [] then [] else [f(xs[0])] + MapStrings(xs[1..], f)
  }

  /** The property handlers; `parse_properties` calls them only on a truthy value. */
  function PropertyMarkdown(v: PropValue, formatDate: string -> string): string
    requires Truthy(v) && !v.OtherProperty?
  {
    match v
    case Checkbox(b) => if b then "✅" else "❌"
    case CreatedBy(u) => "Created by " + NameOr(u.name, "Unknown")
    case CreatedTime(t) => formatDate(t)
    case Date(d) => DateMarkdown(d.value, formatDate)
    case Email(e) => e.value
    case Files(fs) => Join(", ", MapStrings(fs, FileLink))
    case Formula(r) => ScalarStr(r.GetOr(PyStr("N/A")))
    case LastEditedBy(u) => "Last edited by " + NameOr(u.name, "Unknown")
    case LastEditedTime(t) => formatDate(t)
    case MultiSelect(os) => Join(" ", MapStrings(os, SelectMarkdown))
    case Number(n) => ScalarStr(n.value)
    case People(ps) => Join(", ", MapStrings(ps, (u: User) => NameOr(u.name, "Unknown")))
    case PhoneNumber(p) => p.value
    case Relation(ids) => Join(", ", MapStrings(ids, RelatedPageLink))
    case Rollup(f, r) => f + ": " + ScalarStr(r.GetOr(PyStr("N/A")))
    case RichTextValue(rts) => RichTextMarkdown(rts)
    case Select(o) => SelectMarkdown(o.value)
    case Status(o) => NameOr(o.value.name, "N/A")
    case Title(rts) => RichTextMarkdown(rts)
    case Url(u) => "[" + u.value + "](" + u.value + ")"
    case UniqueId(prefix, n) => (if prefix.Some? then ScalarStr(prefix.value) else "") + IntToString(n)
    case VerificationValue(o) =>
      var ver := o.value;
      if ver.state == "verified" then
        var verifier := if ver.verifiedBy.Some? then NameOr(ver.verifiedBy.value.name, "Unknown") else "Unknown";
        var date := if ver.date.Some? then DateMarkdown(ver.date.value, formatDate) else "N/A";
        "Verified by " + verifier + " on " + date
      else "Unverified"
  }

  function PyBoolStr(b: bool): string {
    if b then "True" else "False"
  }

  /** `" - " + caption if caption else ""` */
  function CaptionSuffix(caption: string): string {
    if caption != "" then " - " + caption else ""
  }

  /** The block handlers, given the indent string: each starts with the
      indent and ends with a newline. */
  function BlockMarkdown(d: BlockData, indent: string): (r: string)
    requires !d.OtherBlock? && !d.Unsupported?
    ensures StartsWith(r, indent)
    ensures |r| > |indent| && r[|r| - 1] == '\n'
  {
    indent + BlockBody(d, indent)
  }

  /** What a handler writes after the leading indent. */
  function BlockBody(d: BlockData, indent: string): (r: string)
    requires !d.OtherBlock? && !d.Unsupported?
    ensures |r| > 0 && r[|r| - 1] == '\n'
  {
    match d
    case Paragraph(rts) => RichTextMarkdown(rts) + "\n\n"
    case Heading(level, rts) => Repeat("#", level) + " " + RichTextMarkdown(rts) + "\n\n"
    case BulletedListItem(rts) => "- " + RichTextMarkdown(rts) + "\n"
    case NumberedListItem(rts) => "1. " + RichTextMarkdown(rts) + "\n"
    case ToDo(checked, rts) => "- [" + (if checked then "x" else " ") + "] " + RichTextMarkdown(rts) + "\n"
    case Toggle(rts) =>
      "<details>\n" + indent + "<summary>" + RichTextMarkdown(rts) + "</summary>\n" + indent + "<details>\n\n"
    case Code(language, rts) => "```" + language + "\n" + RichTextMarkdown(rts) + "\n" + indent + "```\n\n"
    case Quote(rts) => "> " + RichTextMarkdown(rts) + "\n\n"
    case Callout(emoji, rts) =>
      ">" + (if NonEmptyStr(emoji) then " :" + emoji.value + ":" else "") + " " + RichTextMarkdown(rts) + "\n\n"
    case ChildDatabase(title) => "Child database: " + title + "\n\n"
    case ChildPage(title) => "Child page: " + title + "\n\n"
    case Bookmark(url, caption) =>
      var c := RichTextMarkdown(caption);
      "[" + (if c != "" then c else "Bookmark") + "](" + url + ")\n\n"
    case Image(caption, url) => "![" + RichTextMarkdown(caption) + "](" + url + ")\n\n"
    case Divider => "---\n\n"
    case Breadcrumb => "[Breadcrumb]\n\n"
    case ColumnList => "[Column list Start]\n\n"
    case Column => "[Column Start]\n\n"
    case Embed(url) => "[Embed: " + url + "]\n\n"
    case Equation(expression) => "$$\n" + expression + "\n$$\n\n"
    case File(caption, url, name) =>
      var c := RichTextMarkdown(caption);
      var fileLabel := if name != "" then name else if c != "" then c else "File";
      "[File: [" + fileLabel + "](" + url + ")" + CaptionSuffix(c) + "]\n\n"
    case LinkPreview(url) => "[Link Preview: " + url + "]\n\n"
    case LinkToPage(target) => "[Link to page: " + RemoveHyphens(target) + "]\n\n"
    case Pdf(caption, url) => "[PDF](" + url + ")" + CaptionSuffix(RichTextMarkdown(caption)) + "]\n\n"
    case SyncedBlock(from) =>
      if from.None? then "[Original Synced Block]\n\n"
      else "[Synced Block: Original ID " + from.value + "]\n\n"
    case Table(width, columnHeader, rowHeader) =>
      "[Table: " + IntToString(width) + " columns, Column Header: " + PyBoolStr(columnHeader) +
      ", Row Header: " + PyBoolStr(rowHeader) + "]\n\n"
    case TableRow(cells) => "| " + Join(" | ", MapStrings(cells, RichTextMarkdown)) + " |\n"
    case TableOfContents => "[Table of Contents]\n\n"
    case Template(rts) => "[Template: " + RichTextMarkdown(rts) + "]\n\n"
    case Video(caption, url) => "[Video: " + url + CaptionSuffix(RichTextMarkdown(caption)) + "]\n\n"
  }

  /** `heading_N` is N '#', a space, the text and a blank line. */
  lemma HeadingMarkdown(level: HeadingLevel, rts: seq<RichText>, indent: string)
    ensures BlockMarkdown(Heading(level, rts), indent)[..|indent| + level + 1] == indent + Repeat("#", level) + " "
    ensures forall i :: |indent| <= i < |indent| + level ==> BlockMarkdown(Heading(level, rts), indent)[i] == '#'
  {
    var hashes := Repeat("#", level);
    var head := indent + hashes + " ";
    var body := BlockBody(Heading(level, rts), indent);
    var r := BlockMarkdown(Heading(level, rts), indent);
    assert body == hashes + " " + RichTextMarkdown(rts) + "\n\n";
    assert r == indent + body;
    forall i | 0 <= i < |head| ensures r[i] == head[i] {
      if i >= |indent| {
        assert r[i] == body[i - |indent|];
      }
    }
    assert r[..|head|] == head;
    HeadingHashes(level, indent);
  }

  /** The '#' run of a heading, after the indent. */
  lemma HeadingHashes(level: HeadingLevel, indent: string)
    ensures forall i :: |indent| <= i < |indent| + level ==> (indent + Repeat("#", level) + " ")[i] == '#'
  {
    RepeatChar("#", level);
  }

  lemma {:induction false} RepeatChar(c: string, n: nat)
    requires |c| == 1
    ensures forall i :: 0 <= i < n ==> Repeat(c, n)[i] == c[0]
  {
    if n > 0 {
      RepeatChar(c, n - 1);
      assert Repeat(c, n) == c + Repeat(c, n - 1);
    }
  }

  /** The parser built from the configuration: indent string, excluded types
      and the date formatter `_format_date` (an ISO timestamp reformatted, any
      other string unchanged). */
  class Notion2MarkdownParser {
    const indent: string
    const excludedPropertyTypes: seq<string>
    const excludedBlockTypes: seq<string>
    const propertyHandlers: set<string>
    const blockHandlers: set<string>
    const formatDate: string -> string

    /** The handler maps hold every known type that is not excluded. */
    ghost predicate Valid() {
      propertyHandlers == RemoveAll(PropertyTypeNames, excludedPropertyTypes) &&
      blockHandlers == RemoveAll(BlockTypeNames, excludedBlockTypes)
    }

    constructor (indent: string, excludedPropertyTypes: seq<string>, excludedBlockTypes: seq<string>,
                 formatDate: string -> string)
      ensures Valid()
      ensures this.indent == indent && this.formatDate == formatDate
      ensures this.excludedPropertyTypes == excludedPropertyTypes && this.excludedBlockTypes == excludedBlockTypes
    {
      var props := PropertyTypeNames;
      var i := 0;
      while i < |excludedPropertyTypes|
        invariant 0 <= i <= |excludedPropertyTypes|
        invariant props == RemoveAll(PropertyTypeNames, excludedPropertyTypes[..i])
      {
        assert excludedPropertyTypes[..i + 1][..i] == excludedPropertyTypes[..i];
        props := props - {excludedPropertyTypes[i]};
        i := i + 1;
      }
      assert excludedPropertyTypes[..i] == excludedPropertyTypes;
      var blocks := BlockTypeNames;
      var j := 0;
      while j < |excludedBlockTypes|
        invariant 0 <= j <= |excludedBlockTypes|
        invariant blocks == RemoveAll(BlockTypeNames, excludedBlockTypes[..j])
      {
        assert excludedBlockTypes[..j + 1][..j] == excludedBlockTypes[..j];
        blocks := blocks - {excludedBlockTypes[j]};
        j := j + 1;
      }
      assert excludedBlockTypes[..j] == excludedBlockTypes;
      this.indent := indent;
      this.excludedPropertyTypes := excludedPropertyTypes;
      this.excludedBlockTypes := excludedBlockTypes;
      this.propertyHandlers := props;
      this.blockHandlers := blocks;
      this.formatDate := formatDate;
    }

    /** The line `parse_properties` writes for one property, if any. */
    function PropertyLine(name: string, p: Property): Option<string> {
      if PropertyTypeName(p.value) in propertyHandlers && Truthy(p.value) && !p.value.OtherProperty? then
        Some("**" + name + "**: " + PropertyMarkdown(p.value, formatDate) + "\n")
      else None
    }

    /** The lines of the handled properties with a truthy value, in order. */
    function PropertyLines(props: seq<(string, Property)>): seq<string> {
      if props == [] then []
      else
        var last := props[|props| - 1];
        PropertyLines(props[..|props| - 1]) +
          (match PropertyLine(last.0, last.1) case Some(l) => [l] case None => [])
    }

    /** What `parse_properties` returns. */
    function PropertiesMarkdown(props: seq<(string, Property)>): string {
      if PropertyLines(props) == [] then "" else "###Properties:\n" + Concat(PropertyLines(props))
    }

    /** `parse_properties`: empty when no line is written, otherwise the
        "###Properties:" header followed by the lines in order. */
    method ParseProperties(props: seq<(string, Property)>) returns (md: string)
      ensures md == PropertiesMarkdown(props)
      ensures PropertyLines(props) == [] ==> md == ""
      ensures PropertyLines(props) != [] ==> md == "###Properties:\n" + Concat(PropertyLines(props))
    {
      var markdown := "";
      var i := 0;
      while i < |props|
        invariant 0 <= i <= |props|
        invariant markdown == Concat(PropertyLines(props[..i]))
        invariant markdown == "" <==> PropertyLines(props[..i]) == []
      {
        assert props[..i + 1][..i] == props[..i];
        var line := PropertyLine(props[i].0, props[i].1);
        ConcatAppend(PropertyLines(props[..i]), match line case Some(l) => [l] case None => []);
        if line.Some? {
          markdown := markdown + line.value;
        }
        i := i + 1;
      }
      assert props[..i] == props;
      if markdown != "" {
        md := "###Properties:\n" + markdown;
      } else {
        md := "";
      }
    }

    /** `parse_block`: the handler's output at `indent * level`, "" for an
        unknown type that is not excluded, `None` for an excluded type. */
    function ParseBlock(d: BlockData, level: nat): Option<string> {
      var t := BlockTypeName(d);
      if t in blockHandlers && !d.OtherBlock? && !d.Unsupported? then Some(BlockMarkdown(d, Repeat(indent, level)))
      else if t !in excludedBlockTypes then Some("")
      else None
    }
  }

  /** The handler names left after `pop`-ping each excluded name in turn. */
  function RemoveAll(names: set<string>, excluded: seq<string>): (r: set<string>)
    ensures forall t :: t in r <==> t in names && t !in excluded
  {
    if excluded == [] then names
    else RemoveAll(names, excluded[..|excluded| - 1]) - {excluded[|excluded| - 1]}
  }

  lemma {:induction false} ConcatAppend(a: seq<string>, b: seq<string>)
    ensures Concat(a + b) == Concat(a) + Concat(b)
  {
    if a == [] {
      assert a + b == b;
    } else {
      assert (a + b)[1..] == a[1..] + b;
      ConcatAppend(a[1..], b);
    }
  }

  /** `parse_block` drops exactly the excluded types, renders an unknown
      type as "", and renders a handled type at the indent repeated `level` times. */
  lemma ParseBlockCases(p: Notion2MarkdownParser, d: BlockData, level: nat)
    requires p.Valid()
    ensures p.ParseBlock(d, level).None? <==> BlockTypeName(d) in p.excludedBlockTypes
    ensures (d.OtherBlock? || d.Unsupported?) && BlockTypeName(d) !in p.excludedBlockTypes ==>
      p.ParseBlock(d, level) == Some("")
    ensures !d.OtherBlock? && !d.Unsupported? && BlockTypeName(d) !in p.excludedBlockTypes ==>
      p.ParseBlock(d, level) == Some(BlockMarkdown(d, Repeat(p.indent, level)))
  {
  }

  /** An unchecked checkbox is falsy, so `parse_properties` never writes the
      "❌" its handler has for it: the property is dropped. */
  lemma UncheckedCheckboxDropped(p: Notion2MarkdownParser, name: string, id: string)
    ensures p.PropertyLine(name, Property(id, Checkbox(false), false)) == None
    ensures "checkbox" in p.propertyHandlers ==>
      p.PropertyLine(name, Property(id, Checkbox(true), false)) == Some("**" + name + "**: ✅\n")
  {
    assert "**" + name + "**: " + "✅" + "\n" == "**" + name + "**: ✅\n";
  }

  /** A unique id whose prefix is null prints as "None" followed by the number. */
  lemma NullPrefixPrintsNone(n: nat, formatDate: string -> string)
    ensures PropertyMarkdown(UniqueId(Some(PyNone), n), formatDate) == "None" + NatToString(n)
    ensures PropertyMarkdown(UniqueId(None, n), formatDate) == NatToString(n)
  {
  }

  /** A number prints as Python's `str()` of it, a float included, and a
      zero float is falsy, so its property is dropped; a rollup prints its
      result the same way after the function's name. */
  lemma NumberPrintsAsStr(p: Notion2MarkdownParser, name: string, id: string, formatDate: string -> string)
    ensures PropertyMarkdown(Number(Some(PyFloat("2.5"))), formatDate) == "2.5"
    ensures PropertyMarkdown(Number(Some(PyInt(3))), formatDate) == "3"
    ensures PropertyMarkdown(Rollup("sum", Some(PyFloat("3.0"))), formatDate) == "sum: 3.0"
    ensures p.PropertyLine(name, Property(id, Number(Some(PyFloat("0.0"))), false)) == None
    ensures p.PropertyLine(name, Property(id, Number(Some(PyFloat("-0.0"))), false)) == None
  {
  }
}
