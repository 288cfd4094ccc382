/**
 * The Notion walker: starting from the root page it follows child pages,
 * child databases, database items, page links, relation properties and
 * hrefs in rich text, and fills a map of prepared pages (keyed by
 * normalised id, or by URL for bookmarks) and a list of relations. Page
 * nesting is bounded by a depth limit; block nesting is not.
 */
module NotionProcessor {
  import opened Wrappers
  import opened Text
  import opened GraphDataClasses
  import opened NotionRecords
  import opened MarkdownParser
  import CacheUtil

  // ---------------------------------------------------------------------
  // Identifiers

  /** One character of `\w{8}-\w{4}-\w{4}-\w{4}-\w{12}`. */
  predicate UuidShapeAt(s: string, i: nat)
    requires i < |s|
  {
    if i == 8 || i == 13 || i == 18 || i == 23 then s[i] == '-' else IsWordChar(s[i])
  }

  predicate UuidShape(s: string) {
    |s| == 36 && forall i :: 0 <= i < 36 ==> UuidShapeAt(s, i)
  }

  /** `re.match(r'^\w{8}-\w{4}-\w{4}-\w{4}-\w{12}$', s)`: `$` also matches
      before a final line feed. */
  predicate DashedUuid(s: string) {
    UuidShape(s) || (|s| == 37 && s[36] == '\n' && UuidShape(s[..36]))
  }

  /** `normalize_uuid` */
  function NormalizeUuid(s: string): (r: string)
    ensures DashedUuid(s) ==> r == RemoveHyphens(s) && '-' !in r
    ensures !DashedUuid(s) ==> r == s
  {
    if DashedUuid(s) then RemoveHyphens(s) else s
  }

  predicate IsNormalized(s: string) {
    NormalizeUuid(s) == s
  }

  /** A string without hyphens is not a dashed id. */
  lemma NoHyphenNotDashed(s: string)
    requires '-' !in s
    ensures !DashedUuid(s)
  {
    if |s| == 36 {
      assert s[8] in s;
      assert !UuidShapeAt(s, 8);
    }
    if |s| == 37 {
      assert s[..36][8] == s[8] && s[8] in s;
      assert !UuidShapeAt(s[..36], 8);
    }
  }

  /** A dashed id loses all its hyphens and is then left alone, so
      normalising twice is normalising once. */
  lemma NormalizeIdempotent(s: string)
    ensures IsNormalized(NormalizeUuid(s))
  {
    if DashedUuid(s) {
      NoHyphenNotDashed(NormalizeUuid(s));
    }
  }

  /** The dashed and the undashed spelling of an id give the same key. */
  lemma DashedAndUndashedAgree(s: string)
    requires UuidShape(s)
    ensures NormalizeUuid(s) == NormalizeUuid(RemoveHyphens(s))
  {
    NormalizeIdempotent(s);
  }

  predicate WordGroup(g: string, n: nat) {
    |g| == n && forall k :: 0 <= k < n ==> IsWordChar(g[k])
  }

  lemma WordGroupHasNoHyphen(g: string, n: nat)
    requires WordGroup(g, n)
    ensures '-' !in g
  {
    forall k | 0 <= k < |g| ensures g[k] != '-' {
      assert IsWordChar(g[k]);
    }
  }

  /** An id written as groups of 8, 4, 4, 4 and 12 word characters joined
      by hyphens normalises to the groups run together. */
  lemma NormalizeJoinsGroups(a: string, b: string, c: string, d: string, e: string)
    requires WordGroup(a, 8) && WordGroup(b, 4) && WordGroup(c, 4) && WordGroup(d, 4) && WordGroup(e, 12)
    ensures NormalizeUuid(a + "-" + b + "-" + c + "-" + d + "-" + e) == a + b + c + d + e
  {
    var s := a + "-" + b + "-" + c + "-" + d + "-" + e;
    assert UuidShape(s) by {
      forall i | 0 <= i < 36 ensures UuidShapeAt(s, i) {
        if i < 8 { assert s[i] == a[i]; }
        else if i == 8 {}
        else if i < 13 { assert s[i] == b[i - 9]; }
        else if i == 13 {}
        else if i < 18 { assert s[i] == c[i - 14]; }
        else if i == 18 {}
        else if i < 23 { assert s[i] == d[i - 19]; }
        else if i == 23 {}
        else { assert s[i] == e[i - 24]; }
      }
    }
    WordGroupHasNoHyphen(a, 8);
    WordGroupHasNoHyphen(b, 4);
    WordGroupHasNoHyphen(c, 4);
    WordGroupHasNoHyphen(d, 4);
    WordGroupHasNoHyphen(e, 12);
    DashedRemoval(a, b, c, d, e);
  }

  lemma ExampleGroups()
    ensures "bf98f999-c90a-41e1-98f9-99c90a01e1d2" == "bf98f999" + "-" + "c90a" + "-" + "41e1" + "-" + "98f9" + "-" + "99c90a01e1d2"
    ensures "bf98f999" + "c90a" + "41e1" + "98f9" + "99c90a01e1d2" == "bf98f999c90a41e198f999c90a01e1d2"
  {
  }

  lemma ExampleGroupsAreWords()
    ensures WordGroup("bf98f999", 8) && WordGroup("c90a", 4) && WordGroup("41e1", 4) && WordGroup("98f9", 4)
    ensures WordGroup("99c90a01e1d2", 12)
  {
  }

  lemma NormalizeDashedExample()
    ensures NormalizeUuid("bf98f999-c90a-41e1-98f9-99c90a01e1d2") == "bf98f999c90a41e198f999c90a01e1d2"
  {
    ExampleGroups();
    ExampleGroupsAreWords();
    NormalizeJoinsGroups("bf98f999", "c90a", "41e1", "98f9", "99c90a01e1d2");
  }

  lemma NormalizeUndashedExample()
    ensures NormalizeUuid("bf98f999c90a41e198f999c90a01e1d2") == "bf98f999c90a41e198f999c90a01e1d2"
  {
    var t := "bf98f999c90a41e198f999c90a01e1d2";
    assert '-' !in t;
    NoHyphenNotDashed(t);
  }

  /** Removing hyphens around a hyphen joins the two sides. */
  lemma RemoveHyphensAround(x: string, y: string)
    ensures RemoveHyphens(x + "-" + y) == RemoveHyphens(x) + RemoveHyphens(y)
  {
    RemoveCharConcat(x + "-", y, '-');
    RemoveCharConcat(x, "-", '-');
  }

  /** Removing the four hyphens of a dashed id joins its five groups. */
  lemma DashedRemoval(a: string, b: string, c: string, d: string, e: string)
    requires '-' !in a && '-' !in b && '-' !in c && '-' !in d && '-' !in e
    ensures RemoveHyphens(a + "-" + b + "-" + c + "-" + d + "-" + e) == a + b + c + d + e
  {
    RemoveCharAbsent(a, '-');
    RemoveCharAbsent(b, '-');
    RemoveCharAbsent(c, '-');
    RemoveCharAbsent(d, '-');
    RemoveCharAbsent(e, '-');
    var ab := a + "-" + b;
    RemoveHyphensAround(a, b);
    var abc := ab + "-" + c;
    RemoveHyphensAround(ab, c);
    var abcd := abc + "-" + d;
    RemoveHyphensAround(abc, d);
    RemoveHyphensAround(abcd, e);
  }

  /** The characters of `[a-zA-Z0-9\-]`. */
  predicate IsSlugChar(c: char) {
    IsAlnum(c) || c == '-'
  }

  /** The end of the run of slug characters starting at `i`. */
  function SlugEnd(s: string, i: nat): (e: nat)
    requires i <= |s|
    ensures i <= e <= |s|
    ensures forall k :: i <= k < e ==> IsSlugChar(s[k])
    ensures e < |s| ==> !IsSlugChar(s[e])
    decreases |s| - i
  {
    if i == |s| || !IsSlugChar(s[i]) then i else SlugEnd(s, i + 1)
  }

  predicate AllLowerHex(t: string) {
    forall k :: 0 <= k < |t| ==> IsLowerHex(t[k])
  }

  /** `[a-f0-9]{n}` at `i` */
  predicate HexRun(s: string, i: nat, n: nat) {
    i + n <= |s| && AllLowerHex(s[i..i + n])
  }

  /** `-?`: a hyphen at `i` is taken. */
  function OptionalHyphen(s: string, i: nat): nat {
    if i < |s| && s[i] == '-' then i + 1 else i
  }

  /** Group 4 matched at `start`: it spans `s[start..end]`, and `digits` is
      its 32 hexadecimal digits. */
  datatype UuidMatch = UuidMatch(start: nat, end: nat, digits: string)

  /** `-?[a-f0-9]{n}` after position `p`: where the digits start. */
  function NextGroup(s: string, p: nat, n: nat): (a: Option<nat>)
    ensures a.Some? ==> p <= a.value <= p + 1 && HexRun(s, a.value, n)
  {
    var a := OptionalHyphen(s, p);
    if HexRun(s, a, n) then Some(a) else None
  }

  /** The digits of one group `-?[a-f0-9]{n}` that starts after `p`: where
      the group ends and its digits. */
  function GroupDigits(s: string, p: nat, n: nat): (m: Option<(nat, string)>)
    ensures m.Some? ==> p + n <= m.value.0 <= |s| && |m.value.1| == n
    ensures m.Some? ==> forall k :: 0 <= k < n ==> IsLowerHex(m.value.1[k])
  {
    match NextGroup(s, p, n)
    case None => None
    case Some(a) => Some((a + n, s[a..a + n]))
  }

  /** Two results chained: where the second ends, and the digits of both. */
  function Chain(first: Option<(nat, string)>, rest: Option<(nat, string)>): Option<(nat, string)> {
    if first.None? || rest.None? then None else Some((rest.value.0, first.value.1 + rest.value.1))
  }

  function Total(sizes: seq<nat>): nat {
    if sizes == [] then 0 else sizes[0] + Total(sizes[1..])
  }

  /** The groups of an id after its first eight digits. */
  const IdGroupSizes: seq<nat> := [4, 4, 4, 12]

  /** `-?[a-f0-9]{n}` for each `n` of `sizes` in turn, after `p`: where the
      last group ends and the digits of all of them. */
  function Groups(s: string, p: nat, sizes: seq<nat>): (m: Option<(nat, string)>)
    ensures m.Some? ==> p + Total(sizes) <= m.value.0 && |m.value.1| == Total(sizes)
    ensures m.Some? && sizes != [] ==> m.value.0 <= |s|
    ensures m.Some? ==> forall k :: 0 <= k < |m.value.1| ==> IsLowerHex(m.value.1[k])
    decreases |sizes|
  {
    if sizes == [] then Some((p, ""))
    else
      var g := GroupDigits(s, p, sizes[0]);
      if g.None? then None else Chain(g, Groups(s, g.value.0, sizes[1..]))
  }

  /** Group 4, `[a-f0-9]{8}-?[a-f0-9]{4}-?[a-f0-9]{4}-?[a-f0-9]{4}-?[a-f0-9]{12}`,
      matched at `r`, with its digits collected. A hyphen is always taken
      when present: skipping it would leave a hyphen where a digit is
      needed. */
  function UuidAt(s: string, r: nat): (m: Option<UuidMatch>)
    ensures m.Some? ==> m.value.start == r && r + 32 <= m.value.end <= |s|
    ensures m.Some? ==> |m.value.digits| == 32 && forall k :: 0 <= k < 32 ==> IsLowerHex(m.value.digits[k])
  {
    if !HexRun(s, r, 8) then None
    else
      var g := Groups(s, r + 8, IdGroupSizes);
      if g.None? then None else Some(UuidMatch(r, g.value.0, s[r..r + 8] + g.value.1))
  }

  /** The two parts of a match: eight digits, then the other groups. */
  lemma UuidAtParts(s: string, m: UuidMatch) returns (g: (nat, string))
    requires UuidAt(s, m.start) == Some(m)
    ensures HexRun(s, m.start, 8) && Groups(s, m.start + 8, IdGroupSizes) == Some(g)
    ensures m.end == g.0 && m.digits == s[m.start..m.start + 8] + g.1
  {
    g := Groups(s, m.start + 8, IdGroupSizes).value;
  }

  /** `([a-zA-Z0-9\-]+-)?` followed by group 4, at `q`, trying the group-3
      hyphens at `j` and below (the greedy `+` backs off one character at
      a time), and at last the empty group 3. */
  function UuidAfterSlug(s: string, q: nat, j: nat): (m: Option<UuidMatch>)
    ensures m.Some? ==> UuidAt(s, m.value.start) == m
    decreases j
  {
    if j <= q then UuidAt(s, q)
    else if j < |s| && s[j] == '-' && UuidAt(s, j + 1).Some? then UuidAt(s, j + 1)
    else UuidAfterSlug(s, q, j - 1)
  }

  function Group3And4(s: string, q: nat): (m: Option<UuidMatch>)
    requires q <= |s|
    ensures m.Some? ==> UuidAt(s, m.value.start) == m
  {
    var e := SlugEnd(s, q);
    if e == q then UuidAt(s, q) else UuidAfterSlug(s, q, e - 1)
  }

  const NotionOrigin: string := "https://www.notion.so"

  /** Where the optional group 1, `(https://www.notion.so)?`, ends. */
  function OriginEnd(href: string): (p: nat)
    ensures p == 0 || p == |NotionOrigin| <= |href|
  {
    if StartsWith(href, NotionOrigin) then |NotionOrigin| else 0
  }

  /** The notion-link pattern matched from the start of `href`, as the
      backtracking matcher explores it: group 1 if present, the '/', then
      group 2 (`[a-zA-Z0-9\-]+/`) taken before it is skipped. The trailing
      optional query group never makes a match fail. */
  function NotionLinkMatch(href: string): (m: Option<UuidMatch>)
    ensures m.Some? ==> UuidAt(href, m.value.start) == m
  {
    var p := OriginEnd(href);
    if p >= |href| || href[p] != '/' then None
    else
      var e := SlugEnd(href, p + 1);
      var withDirectory := if p + 1 < e < |href| && href[e] == '/' then Group3And4(href, e + 1) else None;
      if withDirectory.Some? then withDirectory else Group3And4(href, p + 1)
  }

  /** `_extract_notion_uuid`: group 4 without its hyphens: 32 lower-case
      hexadecimal digits. */
  function ExtractNotionUuid(href: string): (r: Option<string>)
    ensures r.Some? ==> |r.value| == 32 && forall k :: 0 <= k < 32 ==> IsLowerHex(r.value[k])
  {
    match NotionLinkMatch(href)
    case Some(m) => Some(m.digits)
    case None => None
  }

  /** An extracted id is already normalised. */
  lemma ExtractedUuidIsNormalized(href: string)
    requires ExtractNotionUuid(href).Some?
    ensures IsNormalized(ExtractNotionUuid(href).value)
  {
    var u := ExtractNotionUuid(href).value;
    assert !DashedUuid(u) by {
      assert |u| == 32;
    }
  }

  // Proofs about the matcher: a dashed id after any prefix, and the link
  // of the test suite.

  lemma {:induction false} SlugEndIs(s: string, i: nat, e: nat)
    requires i <= e <= |s|
    requires forall k :: i <= k < e ==> IsSlugChar(s[k])
    requires e < |s| ==> !IsSlugChar(s[e])
    ensures SlugEnd(s, i) == e
    decreases e - i
  {
    if i < e {
      SlugEndIs(s, i + 1, e);
    }
  }

  /** Backing off from `j` to `j2` passes no match: the four characters
      after `j2` are not hyphens, and any later hyphen leaves fewer than 32
      characters. */
  lemma {:induction false} BackoffPastId(s: string, q: nat, j: nat, j2: nat)
    requires q <= j2 <= j < |s| && |s| <= j2 + 37
    requires forall k :: j2 < k < j2 + 5 && k < |s| ==> s[k] != '-'
    ensures UuidAfterSlug(s, q, j) == UuidAfterSlug(s, q, j2)
    decreases j
  {
    if j > j2 {
      if j >= j2 + 5 {
        UuidAtTooShort(s, j + 1);
      }
      BackOffOne(s, q, j);
      BackoffPastId(s, q, j - 1, j2);
    }
  }

  /** A character that is not a hyphen followed by an id is backed off. */
  lemma BackOffOne(s: string, q: nat, j: nat)
    requires q < j < |s| && (s[j] != '-' || UuidAt(s, j + 1).None?)
    ensures UuidAfterSlug(s, q, j) == UuidAfterSlug(s, q, j - 1)
  {
  }

  predicate HexGroup(g: string, n: nat) {
    |g| == n && AllLowerHex(g)
  }

  function Dashed(a: string, b: string, c: string, d: string, e: string): string {
    a + "-" + b + "-" + c + "-" + d + "-" + e
  }

  predicate DashedGroups(a: string, b: string, c: string, d: string, e: string) {
    HexGroup(a, 8) && HexGroup(b, 4) && HexGroup(c, 4) && HexGroup(d, 4) && HexGroup(e, 12)
  }

  lemma DashedParts(a: string, b: string, c: string, d: string, e: string)
    requires |a| == 8 && |b| == 4 && |c| == 4 && |d| == 4 && |e| == 12
    ensures var u := Dashed(a, b, c, d, e);
      |u| == 36 && u[0..8] == a && u[9..13] == b && u[14..18] == c && u[19..23] == d && u[24..36] == e
    ensures var u := Dashed(a, b, c, d, e);
      u[8] == '-' && u[13] == '-' && u[18] == '-' && u[23] == '-'
  {
    var u := Dashed(a, b, c, d, e);
    assert u == a + ("-" + b + "-" + c + "-" + d + "-" + e);
  }

  lemma WindowSlice(s: string, o: nat, n: nat, x: nat, y: nat)
    requires o + n <= |s| && x <= y <= n
    ensures s[o + x..o + y] == s[o..o + n][x..y]
  {
    var l, r := s[o + x..o + y], s[o..o + n][x..y];
    forall k | 0 <= k < |l| ensures l[k] == r[k] {
      assert r[k] == s[o..o + n][x + k] == s[o + x + k];
    }
    assert l == r;
  }

  /** The groups of a dashed id that starts at `o`, after its first eight
      digits. */
  lemma DashedGroupsAt(s: string, o: nat, a: string, b: string, c: string, d: string, e: string)
    requires DashedGroups(a, b, c, d, e)
    requires o + 36 <= |s| && s[o..o + 36] == Dashed(a, b, c, d, e)
    ensures Groups(s, o + 8, IdGroupSizes) == Some((o + 36, b + (c + (d + (e + "")))))
  {
    var u := Dashed(a, b, c, d, e);
    DashedParts(a, b, c, d, e);
    WindowSlice(s, o, 36, 9, 13);
    WindowSlice(s, o, 36, 14, 18);
    WindowSlice(s, o, 36, 19, 23);
    WindowSlice(s, o, 36, 24, 36);
    assert s[o + 8] == u[8] && s[o + 13] == u[13] && s[o + 18] == u[18] && s[o + 23] == u[23];
    assert GroupDigits(s, o + 8, 4) == Some((o + 13, b));
    assert GroupDigits(s, o + 13, 4) == Some((o + 18, c));
    assert GroupDigits(s, o + 18, 4) == Some((o + 23, d));
    assert GroupDigits(s, o + 23, 12) == Some((o + 36, e));
    assert Groups(s, o + 36, []) == Some((o + 36, ""));
    assert Groups(s, o + 23, [12]) == Some((o + 36, e + ""));
    assert Groups(s, o + 18, [4, 12]) == Some((o + 36, d + (e + "")));
    assert Groups(s, o + 13, [4, 4, 12]) == Some((o + 36, c + (d + (e + ""))));
  }

  /** Every character of a dashed id is a slug character. */
  lemma DashedIsSlug(a: string, b: string, c: string, d: string, e: string)
    requires DashedGroups(a, b, c, d, e)
    ensures forall i :: 0 <= i < |Dashed(a, b, c, d, e)| ==> IsSlugChar(Dashed(a, b, c, d, e)[i])
  {
    var u := Dashed(a, b, c, d, e);
    DashedParts(a, b, c, d, e);
    forall i | 0 <= i < |u| ensures IsSlugChar(u[i]) {
      if i < 8 { assert u[i] == a[i]; }
      else if i == 8 {}
      else if i < 13 { assert u[i] == b[i - 9]; }
      else if i == 13 {}
      else if i < 18 { assert u[i] == c[i - 14]; }
      else if i == 18 {}
      else if i < 23 { assert u[i] == d[i - 19]; }
      else if i == 23 {}
      else { assert u[i] == e[i - 24]; }
    }
  }

  predicate IsSlug(t: string) {
    forall k :: 0 <= k < |t| ==> IsSlugChar(t[k])
  }

  /** A slug run `t` between `x` and a non-slug character. */
  lemma SlugEndOver(s: string, x: string, t: string, y: string)
    requires s == x + t + y && IsSlug(t)
    requires y != [] && !IsSlugChar(y[0])
    ensures SlugEnd(s, |x|) == |x| + |t|
  {
    forall k | |x| <= k < |x| + |t| ensures IsSlugChar(s[k]) {
      assert s[k] == t[k - |x|];
    }
    assert s[|x| + |t|] == y[0];
    SlugEndIs(s, |x|, |x| + |t|);
  }

  /** A slug run `t` to the end of the string. */
  lemma SlugEndToEnd(s: string, x: string, t: string)
    requires s == x + t && IsSlug(t)
    ensures SlugEnd(s, |x|) == |s|
  {
    forall k | |x| <= k < |s| ensures IsSlugChar(s[k]) {
      assert s[k] == t[k - |x|];
    }
    SlugEndIs(s, |x|, |s|);
  }

  lemma SlugJoin(t: string, u: string)
    requires IsSlug(t) && IsSlug(u)
    ensures IsSlug(t + "-" + u)
  {
    var v := t + "-" + u;
    forall k | 0 <= k < |v| ensures IsSlugChar(v[k]) {
      if k < |t| { assert v[k] == t[k]; }
      else if k > |t| { assert v[k] == u[k - |t| - 1]; }
    }
  }

  /** Group 3 backs off from the end of `s` to the hyphen that ends the
      title, just before `at`: every later hyphen leaves fewer than 32
      characters. */
  lemma TitleBackoff(s: string, q: nat, at: nat)
    requires q + 1 < at && |s| == at + 36
    requires s[at - 1] == '-'
    requires forall k :: at <= k < at + 4 ==> s[k] != '-'
    requires UuidAt(s, at).Some?
    requires SlugEnd(s, q) == |s|
    ensures Group3And4(s, q) == UuidAt(s, at)
  {
    var j := at - 1;
    assert forall k :: j < k < j + 5 && k < |s| ==> s[k] != '-';
    BackoffToHyphen(s, q, j);
    UuidAfterSlugHit(s, q, j);
  }

  /** From the end of the slug run, group 3 backs off at least to `j`. */
  lemma BackoffToHyphen(s: string, q: nat, j: nat)
    requires q <= j < |s| && |s| <= j + 37
    requires forall k :: j < k < j + 5 && k < |s| ==> s[k] != '-'
    requires SlugEnd(s, q) == |s|
    ensures Group3And4(s, q) == UuidAfterSlug(s, q, j)
  {
    assert Group3And4(s, q) == UuidAfterSlug(s, q, |s| - 1) by {
      Group3And4Backs(s, q);
    }
    assert UuidAfterSlug(s, q, |s| - 1) == UuidAfterSlug(s, q, j) by {
      BackoffPastId(s, q, |s| - 1, j);
    }
  }

  /** A hyphen followed by an id stops the backing off. */
  lemma UuidAfterSlugHit(s: string, q: nat, j: nat)
    requires q < j < |s| && s[j] == '-' && UuidAt(s, j + 1).Some?
    ensures UuidAfterSlug(s, q, j) == UuidAt(s, j + 1)
  {
  }

  /** A slug run to the end of `s` backs off from its last character. */
  lemma Group3And4Backs(s: string, q: nat)
    requires q < |s| && SlugEnd(s, q) == |s|
    ensures Group3And4(s, q) == UuidAfterSlug(s, q, |s| - 1)
  {
  }

  /** Fewer than 32 characters after `r` leave no room for an id. */
  lemma UuidAtTooShort(s: string, r: nat)
    requires |s| < r + 32
    ensures UuidAt(s, r).None?
  {
  }

  /** The ways the link splits into its parts. */
  lemma LinkLayout(dir: string, title: string, u: string)
    ensures var s := NotionOrigin + "/" + dir + "/" + title + "-" + u;
      s == (NotionOrigin + "/") + dir + ("/" + title + "-" + u) &&
      s == (NotionOrigin + "/" + dir + "/") + (title + "-" + u) &&
      OriginEnd(s) == 21 && s[21] == '/'
  {
    var s := NotionOrigin + "/" + dir + "/" + title + "-" + u;
    assert s == NotionOrigin + ("/" + dir + "/" + title + "-" + u);
  }

  /** A dashed id after any prefix matches where it starts. */
  lemma UuidAtAfter(pre: string, a: string, b: string, c: string, d: string, e: string)
    requires DashedGroups(a, b, c, d, e)
    ensures UuidAt(pre + Dashed(a, b, c, d, e), |pre|) == Some(UuidMatch(|pre|, |pre| + 36, a + b + c + d + e))
  {
    var u := Dashed(a, b, c, d, e);
    var s := pre + u;
    var o := |pre|;
    DashedParts(a, b, c, d, e);
    assert s[o..o + 36] == u;
    DashedGroupsAt(s, o, a, b, c, d, e);
    assert s[o..o + 8] == a;
    assert HexRun(s, o, 8);
    assert a + (b + (c + (d + (e + "")))) == a + b + c + d + e;
  }

  /** With the origin, a directory and a match after it, the match is the
      one after the directory. */
  lemma LinkWithDirectory(s: string, de: nat)
    requires OriginEnd(s) == 21 && 21 < |s| && s[21] == '/'
    requires SlugEnd(s, 22) == de && 22 < de < |s| && s[de] == '/'
    requires Group3And4(s, de + 1).Some?
    ensures NotionLinkMatch(s) == Group3And4(s, de + 1)
  {
  }

  /** A link `https://www.notion.so/<dir>/<title>-<dashed id>` yields the
      id's 32 digits: the greedy title group backs off past the hyphens of
      the id itself, which leave too few characters for a match. */
  lemma NotionLinkUuid(dir: string, title: string, a: string, b: string, c: string, d: string, e: string)
    requires |dir| > 0 && IsSlug(dir) && |title| > 0 && IsSlug(title)
    requires DashedGroups(a, b, c, d, e)
    ensures ExtractNotionUuid(NotionOrigin + "/" + dir + "/" + title + "-" + Dashed(a, b, c, d, e)) == Some(a + b + c + d + e)
  {
    var u := Dashed(a, b, c, d, e);
    var pre := NotionOrigin + "/" + dir + "/" + title + "-";
    var s := pre + u;
    var x1 := NotionOrigin + "/";
    var x2 := x1 + dir + "/";
    assert |x1| == 22;
    LinkLayout(dir, title, u);
    UuidAtAfter(pre, a, b, c, d, e);
    assert SlugEnd(s, 22) == 22 + |dir| by {
      assert ("/" + title + "-" + u)[0] == '/';
      SlugEndOver(s, x1, dir, "/" + title + "-" + u);
    }
    assert Group3And4(s, |x2|) == UuidAt(s, |pre|) by {
      DashedParts(a, b, c, d, e);
      DashedIsSlug(a, b, c, d, e);
      SlugJoin(title, u);
      SlugEndToEnd(s, x2, title + "-" + u);
      forall k | |pre| <= k < |pre| + 4 ensures s[k] != '-' {
        assert s[k] == u[k - |pre|] == a[k - |pre|];
      }
      assert s[|pre| - 1] == '-';
      TitleBackoff(s, |x2|, |pre|);
    }
    assert s[22 + |dir|] == '/';
    LinkWithDirectory(s, 22 + |dir|);
  }

  lemma TestLinkParts()
    ensures IsSlug("username") && IsSlug("Some-Page")
    ensures DashedGroups("bf98f999", "c90a", "41e1", "98f9", "99c90a01e1d2")
  {
  }

  lemma TestLinkLayout()
    ensures "https://www.notion.so/username/Some-Page-" + "bf98f999-c90a-41e1-98f9-99c90a01e1d2" ==
      NotionOrigin + "/" + "username" + "/" + "Some-Page" + "-" + Dashed("bf98f999", "c90a", "41e1", "98f9", "99c90a01e1d2")
  {
    TestLinkPrefix();
    TestLinkId();
  }

  lemma TestLinkId()
    ensures Dashed("bf98f999", "c90a", "41e1", "98f9", "99c90a01e1d2") == "bf98f999-c90a-41e1-98f9-99c90a01e1d2"
  {
    ExampleGroups();
  }

  lemma TestLinkPrefix()
    ensures NotionOrigin + "/" + "username" + "/" + "Some-Page" + "-" == "https://www.notion.so/username/Some-Page-"
  {
  }

  /** The link of the test suite yields the id without its hyphens. */
  lemma ExtractNotionUuidTestLink()
    ensures ExtractNotionUuid("https://www.notion.so/username/Some-Page-" + "bf98f999-c90a-41e1-98f9-99c90a01e1d2") ==
      Some("bf98f999c90a41e198f999c90a01e1d2")
  {
    TestLinkParts();
    TestLinkLayout();
    NotionLinkUuid("username", "Some-Page", "bf98f999", "c90a", "41e1", "98f9", "99c90a01e1d2");
    ExampleGroups();
  }

  /** A link outside Notion that does not start with '/' yields nothing. */
  lemma ExtractNotionUuidOtherSite()
    ensures ExtractNotionUuid("https://www.example.com") == None
  {
    var s := "https://www.example.com";
    assert OriginEnd(s) == 0 by {
      assert s[12] != NotionOrigin[12];
    }
    assert s[0] != '/';
  }

  // ---------------------------------------------------------------------
  // Titles, text and times

  predicate NonEmptyTitle(p: Property) {
    p.value.Title? && p.value.title != []
  }

  /** The first property of type title with a non-empty title. */
  function FirstTitleProperty(props: seq<(string, Property)>): (r: Option<nat>)
    ensures r.Some? ==> r.value < |props| && NonEmptyTitle(props[r.value].1)
    ensures r.Some? ==> forall i :: 0 <= i < r.value ==> !NonEmptyTitle(props[i].1)
    ensures r.None? ==> forall i :: 0 <= i < |props| ==> !NonEmptyTitle(props[i].1)
  {
    if props == [] then None
    else if NonEmptyTitle(props[0].1) then Some(0)
    else match FirstTitleProperty(props[1..])
      case Some(i) => Some(i + 1)
      case None => None
  }

  /** `_extract_title`: a non-empty top-level title, else the first
      non-empty title property, else "Untitled"; the first element's plain
      text in either case. */
  function TitleOf(info: PageInfo): string {
    if info.title.Some? && info.title.value != [] then info.title.value[0].plainText
    else match FirstTitleProperty(info.properties)
      case Some(i) => info.properties[i].1.value.title[0].plainText
      case None => "Untitled"
  }

  /** The loop of `_extract_title`. */
  method ExtractTitle(info: PageInfo) returns (title: string)
    ensures title == TitleOf(info)
  {
    if info.title.Some? && info.title.value != [] {
      return info.title.value[0].plainText;
    }
    var i := 0;
    while i < |info.properties|
      invariant 0 <= i <= |info.properties|
      invariant forall k :: 0 <= k < i ==> !NonEmptyTitle(info.properties[k].1)
    {
      var prop := info.properties[i].1;
      if prop.value.Title? && prop.value.title != [] {
        FirstTitleIsFirst(info.properties, i);
        return prop.value.title[0].plainText;
      }
      i := i + 1;
    }
    return "Untitled";
  }

  lemma {:induction false} FirstTitleIsFirst(props: seq<(string, Property)>, i: nat)
    requires i < |props| && NonEmptyTitle(props[i].1)
    requires forall k :: 0 <= k < i ==> !NonEmptyTitle(props[k].1)
    ensures FirstTitleProperty(props) == Some(i)
  {
    if i > 0 {
      assert !NonEmptyTitle(props[0].1);
      assert forall k :: 0 <= k < i - 1 ==> props[1..][k] == props[k + 1];
      FirstTitleIsFirst(props[1..], i - 1);
    }
  }

  function SimpleTitle(text: string): seq<RichText> {
    [RichText(text, Annotations(false, false, false, false, false, "default"), TextKind, None, None)]
  }

  function TitleProperty(text: string): Property {
    Property("title", Title(SimpleTitle(text)), false)
  }

  /** A top-level title wins over a title property; a title property is
      used when there is no top-level title; with neither the title is
      "Untitled". */
  lemma TitleExamples(id: string, url: string, time: string)
    ensures TitleOf(PageInfo(id, DatabaseObject, url, time, false, false, Some(SimpleTitle("Test Title")),
                             [("Name", TitleProperty("Property Title"))])) == "Test Title"
    ensures TitleOf(PageInfo(id, PageObject, url, time, false, false, None,
                             [("Name", TitleProperty("Property Title"))])) == "Property Title"
    ensures TitleOf(PageInfo(id, PageObject, url, time, false, false, None, [])) == "Untitled"
  {
    assert FirstTitleProperty([("Name", TitleProperty("Property Title"))]) == Some(0);
  }

  /** The processor's `_extract_rich_text`: the plain texts joined. */
  function PlainText(rts: seq<RichText>): string {
    if rts == [] then "" else PlainText(rts[..|rts| - 1]) + rts[|rts| - 1].plainText
  }

  predicate Unadorned(rt: RichText) {
    var a := rt.annotations;
    !a.code && !a.bold && !a.italic && !a.strikethrough && !a.underline && a.color == "default" &&
    !(rt.kind == TextKind && rt.link.Some?) && !HasHref(rt)
  }

  /** With no annotation, link or colour, the markdown of a text is its plain text. */
  lemma {:induction false} UnadornedIsPlain(rts: seq<RichText>)
    requires forall i :: 0 <= i < |rts| ==> Unadorned(rts[i])
    ensures RichTextMarkdown(rts) == PlainText(rts)
  {
    if rts != [] {
      UnadornedIsPlain(rts[..|rts| - 1]);
    }
  }

  /** `first_time_after_second`: strictly later. Timestamps are read
      through `instant`, which stands for parsing the ISO format. */
  predicate FirstTimeAfterSecond(instant: string -> int, first: string, second: string) {
    instant(first) > instant(second)
  }

  lemma FirstTimeAfterSecondIsStrict(instant: string -> int, t: string, u: string)
    ensures !FirstTimeAfterSecond(instant, t, t)
    ensures FirstTimeAfterSecond(instant, t, u) ==> !FirstTimeAfterSecond(instant, u, t)
  {
  }

  // ---------------------------------------------------------------------
  // Page acceptance

  /** The configuration values the walker reads. */
  datatype Config = Config(
    maxDepth: int,
    recursiveProcessReferencePages: bool,
    addArchivedPageNodes: bool,
    addRemovedPageNodes: bool,
    cacheEnabled: bool,
    notionRootPageId: string)

  /** `_should_add_page` */
  predicate ShouldAddPage(config: Config, info: PageInfo) {
    if info.archived then config.addArchivedPageNodes
    else if info.inTrash then config.addRemovedPageNodes
    else true
  }

  /** `_update_page_title` */
  function UpdatedTitle(info: PageInfo, title: string): string {
    if info.archived then "[ARCHIVED] " + title
    else if info.inTrash then "[REMOVED] " + title
    else title
  }

  /** `_should_process_content` */
  predicate ShouldProcessContent(info: PageInfo) {
    !(info.archived || info.inTrash)
  }

  /** A live page is always added, under its own title, and has its content
      processed; an archived or trashed page never has its content
      processed, is added only when configured to, and is marked in its
      title, "[ARCHIVED] " first. */
  lemma AcceptanceCases(config: Config, info: PageInfo, title: string)
    ensures ShouldProcessContent(info) <==> !info.archived && !info.inTrash
    ensures ShouldProcessContent(info) ==> ShouldAddPage(config, info) && UpdatedTitle(info, title) == title
    ensures info.archived ==> (ShouldAddPage(config, info) <==> config.addArchivedPageNodes) &&
                              UpdatedTitle(info, title) == "[ARCHIVED] " + title
    ensures !info.archived && info.inTrash ==> (ShouldAddPage(config, info) <==> config.addRemovedPageNodes) &&
                                               UpdatedTitle(info, title) == "[REMOVED] " + title
  {
  }

  /** `get_page_type_from_string(page_info['object'])` */
  function PageTypeOfObject(k: ObjectKind): (t: PageType)
    ensures GetPageTypeFromString(ObjectName(k)) == Success(t)
  {
    UpperIs("page", "PAGE");
    UpperIs("database", "DATABASE");
    match k
    case PageObject => PAGE
    case DatabaseObject => DATABASE
  }

  /** The page built for an accepted page or database, before its title is marked. */
  function PageFromInfo(id: string, info: PageInfo): GraphPage {
    GraphPage(id, TitleOf(info), PageTypeOfObject(info.objectKind), info.url, None, "Notion", Some(info.lastEditedTime), [])
  }

  /** The bookmark node for `url`: title and description from the scraper,
      or empty strings when scraping fails. */
  function BookmarkPage(api: Api, url: string): (p: GraphPage)
    ensures p.id == url && p.url == url && p.pageType == BOOKMARK && p.source == "Web"
    ensures url !in api.scrape ==> p.title == "" && p.content == Some("")
  {
    var (title, description) := if url in api.scrape then api.scrape[url] else ("", Some(""));
    GraphPage(url, title, BOOKMARK, url, description, "Web", None, [])
  }

  /** The metadata the walker works from: the given one, else the answer of
      the request `is_database` selects; `None` when that request fails. */
  function Fetched(api: Api, id: string, isDatabase: Option<bool>, given: Option<PageInfo>): Option<PageInfo> {
    if given.Some? then given
    else
      var source := match isDatabase
        case None => api.rootInfo
        case Some(true) => api.databaseInfo
        case Some(false) => api.pageInfo;
      if id in source then Some(source[id]) else None
  }

  /** The stored page is at least as recent as the fetched metadata. A
      stored page without an edit time is treated as recent. */
  predicate NotNewer(instant: string -> int, info: PageInfo, stored: GraphPage) {
    stored.lastEditedTime.None? || !FirstTimeAfterSecond(instant, info.lastEditedTime, stored.lastEditedTime.value)
  }

  // ---------------------------------------------------------------------
  // Content

  predicate IsRichTextBlock(d: BlockData) {
    d.Paragraph? || d.Heading? || d.BulletedListItem? || d.NumberedListItem? || d.ToDo? || d.Toggle? ||
    d.Code? || d.Quote? || d.Callout? || d.Template?
  }

  predicate IsUrlBlock(d: BlockData) {
    d.Bookmark? || d.Embed? || d.LinkPreview?
  }

  predicate IsChildPage(d: BlockData) {
    d.ChildPage? || d.ChildDatabase?
  }

  /** Whether the walker descends into the block's children. */
  predicate Descends(b: Block) {
    !b.data.Unsupported? && b.hasChildren && !IsChildPage(b.data) && b.childrenFetched
  }

  /** The text `recursive_process_block` returns: "" for an unsupported
      block, otherwise the block's own markdown at `level` followed, for a
      block with children other than a child page or database, by its
      children's text at `level + 1`. */
  function RenderBlock(p: Notion2MarkdownParser, b: Block, level: nat): string
    decreases b, 1
  {
    if b.data.Unsupported? then ""
    else
      var own := p.ParseBlock(b.data, level).GetOr("");
      if Descends(b) then own + RenderChildren(p, b, 0, level + 1) else own
  }

  /** The text of the children of `b` from index `i` on. */
  function RenderChildren(p: Notion2MarkdownParser, b: Block, i: nat, level: nat): string
    decreases b, 0, |b.children| - i
  {
    if i >= |b.children| then ""
    else
      assert b.children[i] in b.children;
      RenderBlock(p, b.children[i], level) + RenderChildren(p, b, i + 1, level)
  }

  /** The text of top-level blocks, at level 0. */
  function RenderBlocks(p: Notion2MarkdownParser, bs: seq<Block>): string {
    if bs == [] then "" else RenderBlocks(p, bs[..|bs| - 1]) + RenderBlock(p, bs[|bs| - 1], 0)
  }

  /** A child page or database contributes only its own line, never its
      children's text; an unsupported block contributes nothing. */
  lemma RenderBlockCases(p: Notion2MarkdownParser, b: Block, level: nat)
    ensures IsChildPage(b.data) ==> RenderBlock(p, b, level) == p.ParseBlock(b.data, level).GetOr("")
    ensures b.data.Unsupported? ==> RenderBlock(p, b, level) == ""
    ensures !b.data.Unsupported? ==> StartsWith(RenderBlock(p, b, level), p.ParseBlock(b.data, level).GetOr(""))
  {
    var own := p.ParseBlock(b.data, level).GetOr("");
    if !b.data.Unsupported? {
      assert RenderBlock(p, b, level)[..|own|] == own;
    }
  }

  /** The text `recursive_process_page_content` returns below the depth
      limit: the properties' markdown (pages only), then the top-level
      blocks' text; just the properties when the block request fails. */
  function PageText(p: Notion2MarkdownParser, api: Api, info: PageInfo): string {
    var head := if info.objectKind == DatabaseObject then "" else p.PropertiesMarkdown(info.properties);
    if info.id in api.contentBlocks then head + RenderBlocks(p, api.contentBlocks[info.id]) else head
  }

  /** `'href' in text and text['href']`, counted. */
  function HrefCount(rts: seq<RichText>): (n: nat)
    ensures n <= |rts|
  {
    if rts == [] then 0 else HrefCount(rts[..|rts| - 1]) + (if HasHref(rts[|rts| - 1]) then 1 else 0)
  }

  /** Counting hrefs one more element at a time, as the loops over rich
      text do. */
  lemma HrefCountStep(rts: seq<RichText>, i: nat)
    requires i < |rts|
    ensures HrefCount(rts[..i + 1]) == HrefCount(rts[..i]) + (if HasHref(rts[i]) then 1 else 0)
  {
    assert rts[..i + 1][..i] == rts[..i];
  }

  /** The relations a block tree is sure to add: one per child page or
      database, page link and url block, one per href in its rich text, and
      those of the children it descends into. */
  function BlockLinks(b: Block): nat
    decreases b, 1
  {
    if b.data.Unsupported? then 0
    else OwnLinks(b.data) + (if Descends(b) then ChildLinks(b, 0) else 0)
  }

  /** The relations a block saves for itself, before its children's. */
  function OwnLinks(d: BlockData): nat {
    if IsChildPage(d) || d.LinkToPage? || IsUrlBlock(d) then 1
    else if IsRichTextBlock(d) then HrefCount(d.richText)
    else 0
  }

  function ChildLinks(b: Block, i: nat): nat
    decreases b, 0, |b.children| - i
  {
    if i >= |b.children| then 0
    else
      assert b.children[i] in b.children;
      BlockLinks(b.children[i]) + ChildLinks(b, i + 1)
  }

  /** `f"{rel_context}\n{text}" if rel_context else text` */
  function FullContext(relContext: Option<string>, rts: seq<RichText>): string {
    if NonEmptyStr(relContext) then relContext.value + "\n" + PlainText(rts) else PlainText(rts)
  }

  /** `get_paginated_properties` for a relation property: the fetched
      list when `has_more`, else the ids in the property. */
  function PaginatedRelations(api: Api, pageId: string, prop: Property): seq<string>
    requires prop.value.Relation?
  {
    if prop.hasMore then
      if (pageId, prop.id) in api.relationItems then api.relationItems[(pageId, prop.id)] else []
    else prop.value.relatedIds
  }

  /** `get_paginated_properties` for a rich text or title property. */
  function PaginatedText(api: Api, pageId: string, prop: Property): seq<RichText>
    requires prop.value.RichTextValue? || prop.value.Title?
  {
    if prop.hasMore then
      if (pageId, prop.id) in api.textItems then api.textItems[(pageId, prop.id)] else []
    else if prop.value.RichTextValue? then prop.value.richText
    else prop.value.title
  }

  /** The relations one property is sure to add. */
  function PropertyLinks(api: Api, pageId: string, prop: Property): nat {
    if prop.value.Relation? && prop.value.relatedIds != [] then |PaginatedRelations(api, pageId, prop)|
    else if (prop.value.RichTextValue? && prop.value.richText != []) || (prop.value.Title? && prop.value.title != []) then
      HrefCount(PaginatedText(api, pageId, prop))
    else if prop.value.Url? && NonEmptyStr(prop.value.url) then 1
    else 0
  }

  function PropertiesLinks(api: Api, pageId: string, props: seq<(string, Property)>): nat {
    if props == [] then 0
    else PropertiesLinks(api, pageId, props[..|props| - 1]) + PropertyLinks(api, pageId, props[|props| - 1].1)
  }

  // ---------------------------------------------------------------------
  // How the walker's state may change

  /** A stored page is kept, possibly with its content filled in, or
      replaced by one with a strictly later edit time. */
  predicate KeptOrNewer(instant: string -> int, before: GraphPage, after: GraphPage) {
    after.(content := before.content) == before ||
    (before.lastEditedTime.Some? && after.lastEditedTime.Some? &&
     FirstTimeAfterSecond(instant, after.lastEditedTime.value, before.lastEditedTime.value))
  }

  /** The walker only adds keys, replaces a page only by a newer version,
      and keys every page it writes by the page's id. */
  predicate PagesEvolve(instant: string -> int, before: map<string, GraphPage>, after: map<string, GraphPage>) {
    (forall k :: k in before ==> k in after && KeptOrNewer(instant, before[k], after[k])) &&
    (forall k :: k in after && (k !in before || after[k] != before[k]) ==> after[k].id == k)
  }

  /** The walker only appends relations, each from a normalised id. */
  predicate RelationsEvolve(before: seq<GraphRelation>, after: seq<GraphRelation>) {
    before <= after && forall i :: |before| <= i < |after| ==> IsNormalized(after[i].fromPageId)
  }

  lemma PagesEvolveTrans(instant: string -> int, a: map<string, GraphPage>, b: map<string, GraphPage>, c: map<string, GraphPage>)
    requires PagesEvolve(instant, a, b) && PagesEvolve(instant, b, c)
    ensures PagesEvolve(instant, a, c)
  {
  }

  lemma RelationsEvolveTrans(a: seq<GraphRelation>, b: seq<GraphRelation>, c: seq<GraphRelation>)
    requires RelationsEvolve(a, b) && RelationsEvolve(b, c)
    ensures RelationsEvolve(a, c)
  {
    forall i | |a| <= i < |c| ensures IsNormalized(c[i].fromPageId) {
      if i < |b| {
        assert c[i] == b[i];
      }
    }
  }

  /** The relation `save_relation_and_process_page` appends. */
  function PageRelation(parentId: string, relationType: RelationType, pageId: string, context: Option<string>): (r: GraphRelation)
    ensures IsNormalized(r.fromPageId) && IsNormalized(r.toPageId)
  {
    NormalizeIdempotent(parentId);
    NormalizeIdempotent(pageId);
    GraphRelation(NormalizeUuid(parentId), relationType, NormalizeUuid(pageId), context)
  }

  /** The relation `save_relation_and_process_bookmark` appends: the
      target is the raw URL. */
  function BookmarkRelation(parentId: string, relationType: RelationType, url: string, context: Option<string>): (r: GraphRelation)
    ensures IsNormalized(r.fromPageId) && r.toPageId == url
  {
    NormalizeIdempotent(parentId);
    GraphRelation(NormalizeUuid(parentId), relationType, url, context)
  }

  /** The relations the top-level blocks of a page are sure to add. */
  function BlocksLinks(bs: seq<Block>): nat {
    if bs == [] then 0 else BlocksLinks(bs[..|bs| - 1]) + BlockLinks(bs[|bs| - 1])
  }

  /** The relations processing a page's content is sure to add: one per
      database item, or those of the properties, then those of the blocks. */
  function PageLinks(api: Api, info: PageInfo): nat {
    (if info.objectKind == DatabaseObject then |api.DatabaseItems(info.id)| else PropertiesLinks(api, info.id, info.properties)) +
    (if info.id in api.contentBlocks then BlocksLinks(api.contentBlocks[info.id]) else 0)
  }

  /** The page `recursive_process_unprocessed_page` inserts for accepted
      metadata: its title marked when archived or trashed, no content yet. */
  function AcceptedPage(id: string, info: PageInfo): (p: GraphPage)
    ensures p.id == id && p.content == None && p.lastEditedTime == Some(info.lastEditedTime)
    ensures p.title == UpdatedTitle(info, TitleOf(info))
  {
    PageFromInfo(id, info).(title := UpdatedTitle(info, TitleOf(info)))
  }

  /** Why `recursive_process_unprocessed_page` stops before inserting: the
      metadata request failed, the stored version is not older, or the page
      is not to be added. */
  predicate Declined(config: Config, instant: string -> int, id: string, info: Option<PageInfo>, pages: map<string, GraphPage>) {
    info.None? || (id in pages && NotNewer(instant, info.value, pages[id])) || !ShouldAddPage(config, info.value)
  }

  /** The content to store for a page processed at `depth`. */
  function ContentAt(config: Config, p: Notion2MarkdownParser, api: Api, info: PageInfo, depth: int): Option<string> {
    if depth + 1 >= config.maxDepth then None else Some(PageText(p, api, info))
  }

  /** Both cached lists load for `rootPageId`: `process_pages` returns
      them without walking. */
  predicate CacheHit(config: Config, files: map<string, CacheUtil.CacheFile>, ttlSeconds: int, rootPageId: string, now: int) {
    config.cacheEnabled &&
    CacheUtil.LoadPagesFrom(files, ttlSeconds, rootPageId, CacheUtil.PagesFile, now).Success? &&
    CacheUtil.LoadRelationsFrom(files, ttlSeconds, rootPageId, CacheUtil.RelationsFile, now).Success?
  }

  /** The pages a walk starts from: the cached pages when those load (even
      if the relations then fail to), else the pages already held. */
  function StartPages(config: Config, files: map<string, CacheUtil.CacheFile>, ttlSeconds: int, rootPageId: string, now: int,
                      pages: map<string, GraphPage>): map<string, GraphPage> {
    var loaded := CacheUtil.LoadPagesFrom(files, ttlSeconds, rootPageId, CacheUtil.PagesFile, now);
    if config.cacheEnabled && loaded.Success? then loaded.value else pages
  }

  /** The files after `process_pages` saves a walk: pages, then relations. */
  function SavedWalk(files: map<string, CacheUtil.CacheFile>, rootPageId: string, pages: map<string, GraphPage>,
                     relations: seq<GraphRelation>, now: int): map<string, CacheUtil.CacheFile> {
    var withPages := CacheUtil.Saved(files, CacheUtil.PagesFile, CacheUtil.PagesValue(pages), GraphPageVersion, rootPageId, now);
    CacheUtil.Saved(withPages, CacheUtil.RelationsFile, CacheUtil.RelationsValue(relations), GraphRelationVersion, rootPageId, now)
  }

  /** A saved walk loads back at the same instant: the pages keyed by id
      (without chunks, which are not cached), the relations in order. */
  lemma {:induction false} SavedWalkReloads(files: map<string, CacheUtil.CacheFile>, ttlSeconds: int, rootPageId: string,
                                            pages: map<string, GraphPage>, relations: seq<GraphRelation>, now: int)
    requires ttlSeconds >= 0
    ensures CacheUtil.LoadPagesFrom(SavedWalk(files, rootPageId, pages, relations, now), ttlSeconds, rootPageId, CacheUtil.PagesFile, now)
      == Success(map k | k in pages :: pages[k].(chunks := []))
    ensures CacheUtil.LoadRelationsFrom(SavedWalk(files, rootPageId, pages, relations, now), ttlSeconds, rootPageId, CacheUtil.RelationsFile, now)
      == Success(relations)
  {
    var withPages := CacheUtil.Saved(files, CacheUtil.PagesFile, CacheUtil.PagesValue(pages), GraphPageVersion, rootPageId, now);
    assert CacheUtil.PagesFile[1] != CacheUtil.RelationsFile[1];
    CacheUtil.PagesCacheRoundTrip(files, ttlSeconds, rootPageId, CacheUtil.PagesFile, pages, now, now);
    CacheUtil.SaveKeepsOtherEntries(withPages, ttlSeconds, CacheUtil.RelationsFile, CacheUtil.RelationsValue(relations),
                                    GraphRelationVersion, rootPageId, now, CacheUtil.PagesFile, rootPageId, GraphPageVersion, now);
    CacheUtil.RelationsCacheRoundTrip(withPages, ttlSeconds, rootPageId, CacheUtil.RelationsFile, relations, now, now);
  }

  // ---------------------------------------------------------------------
  // The walker

  /** `NotionProcessor`. The Notion API, the scraper and the clock are the
      `api` and `instant` values; the cache directory is `cache`. */
  class NotionProcessor {
    const api: Api
    const config: Config
    const parser: Notion2MarkdownParser
    const instant: string -> int
    const cache: CacheUtil.CacheStore
    var preparedPages: map<string, GraphPage>
    var pageRelations: seq<GraphRelation>

    constructor (api: Api, config: Config, parser: Notion2MarkdownParser, instant: string -> int, cache: CacheUtil.CacheStore)
      ensures this.api == api && this.config == config && this.parser == parser
      ensures this.instant == instant && this.cache == cache
      ensures preparedPages == map[] && pageRelations == []
    {
      this.api := api;
      this.config := config;
      this.parser := parser;
      this.instant := instant;
      this.cache := cache;
      preparedPages := map[];
      pageRelations := [];
    }

    /** Page levels left below the depth limit. */
    function Budget(depth: int): nat {
      if depth < config.maxDepth then config.maxDepth - depth else 0
    }

    /** `recursive_process_page_content` */
    method RecursiveProcessPageContent(info: PageInfo, depth: int) returns (content: Option<string>)
      modifies this
      decreases Budget(depth), 0
      ensures content == ContentAt(config, parser, api, info, depth)
      ensures depth + 1 >= config.maxDepth ==> preparedPages == old(preparedPages) && pageRelations == old(pageRelations)
      ensures depth + 1 < config.maxDepth ==> |pageRelations| >= |old(pageRelations)| + PageLinks(api, info)
      ensures PagesEvolve(instant, old(preparedPages), preparedPages)
      ensures RelationsEvolve(old(pageRelations), pageRelations)
    {
      var d := depth + 1;
      if d >= config.maxDepth {
        return None;
      }
      var text := "";
      if info.objectKind == DatabaseObject {
        var items := api.DatabaseItems(info.id);
        var i := 0;
        while i < |items|
          invariant 0 <= i <= |items|
          invariant |pageRelations| >= |old(pageRelations)| + i
          invariant PagesEvolve(instant, old(preparedPages), preparedPages)
          invariant RelationsEvolve(old(pageRelations), pageRelations)
        {
          ghost var pages0, relations0 := preparedPages, pageRelations;
          SaveRelationAndProcessPage(info.id, CONTAINS, items[i].id, None, None, Some(items[i]), d);
          PagesEvolveTrans(instant, old(preparedPages), pages0, preparedPages);
          RelationsEvolveTrans(old(pageRelations), relations0, pageRelations);
          i := i + 1;
        }
      } else {
        RecursiveProcessPageProperties(info, d);
        text := parser.ParseProperties(info.properties);
      }
      if info.id !in api.contentBlocks {
        return Some(text);
      }
      ghost var pages0, relations0 := preparedPages, pageRelations;
      var blocksText := ProcessPageBlocks(info.id, api.contentBlocks[info.id], d);
      PagesEvolveTrans(instant, old(preparedPages), pages0, preparedPages);
      RelationsEvolveTrans(old(pageRelations), relations0, pageRelations);
      return Some(text + blocksText);
    }

    /** The loop of `recursive_process_page_content` over the page's
        top-level blocks, each at indentation level 0. */
    method ProcessPageBlocks(pageId: string, blocks: seq<Block>, depth: int) returns (text: string)
      modifies this
      decreases Budget(depth), 6
      ensures text == RenderBlocks(parser, blocks)
      ensures |pageRelations| >= |old(pageRelations)| + BlocksLinks(blocks)
      ensures PagesEvolve(instant, old(preparedPages), preparedPages)
      ensures RelationsEvolve(old(pageRelations), pageRelations)
    {
      text := "";
      var j := 0;
      while j < |blocks|
        invariant 0 <= j <= |blocks|
        invariant text == RenderBlocks(parser, blocks[..j])
        invariant |pageRelations| >= |old(pageRelations)| + BlocksLinks(blocks[..j])
        invariant PagesEvolve(instant, old(preparedPages), preparedPages)
        invariant RelationsEvolve(old(pageRelations), pageRelations)
      {
        ghost var pages0, relations0 := preparedPages, pageRelations;
        var c := RecursiveProcessBlock(blocks[j], pageId, 0, depth);
        PagesEvolveTrans(instant, old(preparedPages), pages0, preparedPages);
        RelationsEvolveTrans(old(pageRelations), relations0, pageRelations);
        assert blocks[..j + 1][..j] == blocks[..j];
        text := text + c;
        j := j + 1;
      }
      assert blocks[..j] == blocks;
    }

    /** `save_relation_and_process_page`: the relation first, then the page
        unless it is a reference and references are not followed. */
    method SaveRelationAndProcessPage(parentId: string, relationType: RelationType, pageId: string,
                                      relContext: Option<string>, isDatabase: Option<bool>,
                                      pageInfo: Option<PageInfo>, depth: int)
      modifies this
      decreases Budget(depth), 2
      ensures |pageRelations| > |old(pageRelations)|
      ensures pageRelations[|old(pageRelations)|] == PageRelation(parentId, relationType, pageId, relContext)
      ensures relationType == REFERENCES && !config.recursiveProcessReferencePages ==>
        pageRelations == old(pageRelations) + [PageRelation(parentId, relationType, pageId, relContext)] &&
        preparedPages == old(preparedPages)
      ensures PagesEvolve(instant, old(preparedPages), preparedPages)
      ensures RelationsEvolve(old(pageRelations), pageRelations)
    {
      var relation := PageRelation(parentId, relationType, pageId, relContext);
      pageRelations := pageRelations + [relation];
      if relationType == REFERENCES && !config.recursiveProcessReferencePages {
        return;
      }
      ghost var relations0 := pageRelations;
      RecursiveProcessUnprocessedPage(pageId, isDatabase, pageInfo, depth);
      RelationsEvolveTrans(old(pageRelations), relations0, pageRelations);
    }

    /** `save_relation_and_process_bookmark` */
    method SaveRelationAndProcessBookmark(parentId: string, url: string, relationType: RelationType, relContext: Option<string>)
      modifies this
      ensures pageRelations == old(pageRelations) + [BookmarkRelation(parentId, relationType, url, relContext)]
      ensures url in old(preparedPages) ==> preparedPages == old(preparedPages)
      ensures url !in old(preparedPages) ==> preparedPages == old(preparedPages)[url := BookmarkPage(api, url)]
      ensures PagesEvolve(instant, old(preparedPages), preparedPages)
      ensures RelationsEvolve(old(pageRelations), pageRelations)
    {
      pageRelations := pageRelations + [BookmarkRelation(parentId, relationType, url, relContext)];
      ProcessUnprocessedBookmark(url);
    }

    /** `process_unprocessed_bookmark`: a bookmark node for a new URL. */
    method ProcessUnprocessedBookmark(url: string)
      modifies this
      ensures url in old(preparedPages) ==> preparedPages == old(preparedPages)
      ensures url !in old(preparedPages) ==> preparedPages == old(preparedPages)[url := BookmarkPage(api, url)]
      ensures pageRelations == old(pageRelations)
    {
      if url !in preparedPages {
        var title, description;
        if url in api.scrape {
          title, description := api.scrape[url].0, api.scrape[url].1;
        } else {
          title, description := "", Some("");
        }
        preparedPages := preparedPages[url := GraphPage(url, title, BOOKMARK, url, description, "Web", None, [])];
      }
    }

    /** `recursive_process_block` */
    method RecursiveProcessBlock(block: Block, parentId: string, indentLevel: nat, depth: int) returns (content: string)
      modifies this
      decreases Budget(depth), 5, block
      ensures content == RenderBlock(parser, block, indentLevel)
      ensures |pageRelations| >= |old(pageRelations)| + BlockLinks(block)
      ensures IsChildPage(block.data) ==>
        pageRelations[|old(pageRelations)|] == PageRelation(parentId, CONTAINS, block.id, None)
      ensures block.data.LinkToPage? ==>
        pageRelations[|old(pageRelations)|] == PageRelation(parentId, REFERENCES, block.data.target, None)
      ensures IsUrlBlock(block.data) ==>
        pageRelations[|old(pageRelations)|] == BookmarkRelation(parentId, REFERENCES, block.data.url, None) &&
        block.data.url in preparedPages
      ensures block.data.Unsupported? ==> preparedPages == old(preparedPages) && pageRelations == old(pageRelations)
      ensures PagesEvolve(instant, old(preparedPages), preparedPages)
      ensures RelationsEvolve(old(pageRelations), pageRelations)
    {
      var d := block.data;
      if d.Unsupported? {
        return "";
      }
      SaveBlockLinks(block, parentId, depth);
      var own := parser.ParseBlock(d, indentLevel).GetOr("");
      content := own;
      if block.hasChildren && !IsChildPage(d) {
        if !block.childrenFetched {
          return;
        }
        ghost var pages0, relations0 := preparedPages, pageRelations;
        var text := ProcessChildBlocks(block, parentId, indentLevel + 1, depth);
        BlockWalkJoined(instant, block, old(preparedPages), pages0, preparedPages, old(pageRelations), relations0, pageRelations);
        content := own + text;
      }
    }

    /** The block's own part of `recursive_process_block`: the relation its
        type calls for, and the page or bookmark that relation reaches. */
    method SaveBlockLinks(block: Block, parentId: string, depth: int)
      requires !block.data.Unsupported?
      modifies this
      decreases Budget(depth), 5, block, 1
      ensures |pageRelations| >= |old(pageRelations)| + OwnLinks(block.data)
      ensures IsChildPage(block.data) ==>
        pageRelations[|old(pageRelations)|] == PageRelation(parentId, CONTAINS, block.id, None)
      ensures block.data.LinkToPage? ==>
        pageRelations[|old(pageRelations)|] == PageRelation(parentId, REFERENCES, block.data.target, None)
      ensures IsUrlBlock(block.data) ==>
        pageRelations[|old(pageRelations)|] == BookmarkRelation(parentId, REFERENCES, block.data.url, None) &&
        block.data.url in preparedPages
      ensures PagesEvolve(instant, old(preparedPages), preparedPages)
      ensures RelationsEvolve(old(pageRelations), pageRelations)
    {
      var d := block.data;
      if IsChildPage(d) {
        SaveRelationAndProcessPage(parentId, CONTAINS, block.id, None, Some(d.ChildDatabase?), None, depth);
      } else if d.LinkToPage? {
        SaveRelationAndProcessPage(parentId, REFERENCES, d.target, None, None, None, depth);
      } else if IsRichTextBlock(d) {
        ProcessRichTextArray(d.richText, parentId, depth, None);
      } else if IsUrlBlock(d) {
        SaveRelationAndProcessBookmark(parentId, d.url, REFERENCES, None);
      }
    }

    /** The block's relations and pages, then its children's, make one walk
        from the state before the block. */
    static lemma BlockWalkJoined(instant: string -> int, block: Block,
                                 pages: map<string, GraphPage>, pages0: map<string, GraphPage>, pages1: map<string, GraphPage>,
                                 relations: seq<GraphRelation>, relations0: seq<GraphRelation>, relations1: seq<GraphRelation>)
      requires PagesEvolve(instant, pages, pages0) && PagesEvolve(instant, pages0, pages1)
      requires RelationsEvolve(relations, relations0) && RelationsEvolve(relations0, relations1)
      requires |relations0| >= |relations| + OwnLinks(block.data)
      requires |relations1| >= |relations0| + ChildLinks(block, 0)
      requires IsUrlBlock(block.data) ==> block.data.url in pages0
      ensures PagesEvolve(instant, pages, pages1) && RelationsEvolve(relations, relations1)
      ensures |relations1| >= |relations| + OwnLinks(block.data) + ChildLinks(block, 0)
      ensures |relations| < |relations0| ==> relations1[|relations|] == relations0[|relations|]
      ensures IsUrlBlock(block.data) ==> block.data.url in pages1
    {
      PagesEvolveTrans(instant, pages, pages0, pages1);
      RelationsEvolveTrans(relations, relations0, relations1);
    }

    /** The loop of `recursive_process_block` over a block's children, each
        processed one indentation level deeper. */
    method ProcessChildBlocks(block: Block, parentId: string, level: nat, depth: int) returns (text: string)
      modifies this
      decreases Budget(depth), 5, block, 0
      ensures text == RenderChildren(parser, block, 0, level)
      ensures |pageRelations| >= |old(pageRelations)| + ChildLinks(block, 0)
      ensures PagesEvolve(instant, old(preparedPages), preparedPages)
      ensures RelationsEvolve(old(pageRelations), pageRelations)
    {
      text := "";
      var i := 0;
      while i < |block.children|
        invariant 0 <= i <= |block.children|
        invariant text + RenderChildren(parser, block, i, level) == RenderChildren(parser, block, 0, level)
        invariant |pageRelations| + ChildLinks(block, i) >= |old(pageRelations)| + ChildLinks(block, 0)
        invariant PagesEvolve(instant, old(preparedPages), preparedPages)
        invariant RelationsEvolve(old(pageRelations), pageRelations)
      {
        assert block.children[i] in block.children;
        ghost var pages0, relations0 := preparedPages, pageRelations;
        var c := RecursiveProcessBlock(block.children[i], parentId, level, depth);
        PagesEvolveTrans(instant, old(preparedPages), pages0, preparedPages);
        RelationsEvolveTrans(old(pageRelations), relations0, pageRelations);
        ghost var rest := RenderChildren(parser, block, i + 1, level);
        assert (text + c) + rest == text + (c + rest);
        text := text + c;
        i := i + 1;
      }
    }

    /** `process_rich_text_array`: every text with an href links the page
        to a Notion page when the href is a Notion link, else to a bookmark. */
    method ProcessRichTextArray(rts: seq<RichText>, parentId: string, depth: int, relContext: Option<string>)
      modifies this
      decreases Budget(depth), 3
      ensures |pageRelations| >= |old(pageRelations)| + HrefCount(rts)
      ensures HrefCount(rts) == 0 ==> preparedPages == old(preparedPages) && pageRelations == old(pageRelations)
      ensures PagesEvolve(instant, old(preparedPages), preparedPages)
      ensures RelationsEvolve(old(pageRelations), pageRelations)
    {
      var i := 0;
      while i < |rts|
        invariant 0 <= i <= |rts|
        invariant |pageRelations| >= |old(pageRelations)| + HrefCount(rts[..i])
        invariant HrefCount(rts[..i]) == 0 ==> preparedPages == old(preparedPages) && pageRelations == old(pageRelations)
        invariant PagesEvolve(instant, old(preparedPages), preparedPages)
        invariant RelationsEvolve(old(pageRelations), pageRelations)
      {
        HrefCountStep(rts, i);
        ghost var pages0, relations0 := preparedPages, pageRelations;
        ProcessRichText(rts[i], rts, parentId, depth, relContext);
        PagesEvolveTrans(instant, old(preparedPages), pages0, preparedPages);
        RelationsEvolveTrans(old(pageRelations), relations0, pageRelations);
        i := i + 1;
      }
      assert rts[..i] == rts;
    }

    /** One element of that loop: for an href, a reference to the page it
        links to when it is a notion link, else a bookmark relation, both
        with the full context; nothing without an href. */
    method ProcessRichText(text: RichText, rts: seq<RichText>, parentId: string, depth: int, relContext: Option<string>)
      modifies this
      decreases Budget(depth), 3, 0
      ensures HasHref(text) ==> |pageRelations| > |old(pageRelations)|
      ensures HasHref(text) && ExtractNotionUuid(text.href.value).Some? ==>
        pageRelations[|old(pageRelations)|] ==
          PageRelation(parentId, REFERENCES, ExtractNotionUuid(text.href.value).value, Some(FullContext(relContext, rts)))
      ensures HasHref(text) && ExtractNotionUuid(text.href.value).None? ==>
        pageRelations == old(pageRelations) + [BookmarkRelation(parentId, REFERENCES, text.href.value, Some(FullContext(relContext, rts)))] &&
        text.href.value in preparedPages
      ensures !HasHref(text) ==> preparedPages == old(preparedPages) && pageRelations == old(pageRelations)
      ensures PagesEvolve(instant, old(preparedPages), preparedPages)
      ensures RelationsEvolve(old(pageRelations), pageRelations)
    {
      if HasHref(text) {
        var href := text.href.value;
        var uuid := ExtractNotionUuid(href);
        var fullContext := FullContext(relContext, rts);
        if uuid.Some? {
          SaveRelationAndProcessPage(parentId, REFERENCES, uuid.value, Some(fullContext), None, None, depth);
        } else {
          SaveRelationAndProcessBookmark(parentId, href, REFERENCES, Some(fullContext));
        }
      }
    }

    /** `recursive_process_unprocessed_page`: fetch the metadata unless it
        is given, then process the page as `ProcessFetchedPage` does. */
    method RecursiveProcessUnprocessedPage(pageId: string, isDatabase: Option<bool>, pageInfo: Option<PageInfo>, depth: int)
      modifies this
      decreases Budget(depth), 1
      ensures var id := NormalizeUuid(pageId); var info := Fetched(api, id, isDatabase, pageInfo);
        info.None? ==> preparedPages == old(preparedPages) && pageRelations == old(pageRelations)
      ensures var id := NormalizeUuid(pageId); var info := Fetched(api, id, isDatabase, pageInfo);
        info.Some? ==> Processed(id, info.value, depth, old(preparedPages), old(pageRelations), preparedPages, pageRelations)
      ensures PagesEvolve(instant, old(preparedPages), preparedPages)
      ensures RelationsEvolve(old(pageRelations), pageRelations)
    {
      var id := NormalizeUuid(pageId);
      var info := pageInfo;
      if info.None? {
        var source := match isDatabase
          case None => api.rootInfo
          case Some(true) => api.databaseInfo
          case Some(false) => api.pageInfo;
        if id !in source {
          return;
        }
        info := Some(source[id]);
      }
      ProcessFetchedPage(id, info.value, depth);
    }

    /** What processing fetched metadata does to the state: nothing when
        the stored version is not older or the page is not to be added;
        otherwise the page is stored, with the content of its subtree when
        that is processed, unless a strictly newer version of it was stored
        meanwhile. */
    ghost predicate Processed(id: string, info: PageInfo, depth: int,
                              pages0: map<string, GraphPage>, relations0: seq<GraphRelation>,
                              pages: map<string, GraphPage>, relations: seq<GraphRelation>)
      reads this
    {
      (Declined(config, instant, id, Some(info), pages0) ==> pages == pages0 && relations == relations0) &&
      (!Declined(config, instant, id, Some(info), pages0) ==> id in pages) &&
      (!Declined(config, instant, id, Some(info), pages0) && (!ShouldProcessContent(info) || depth + 1 >= config.maxDepth) ==>
         pages == pages0[id := AcceptedPage(id, info)] && relations == relations0) &&
      (!Declined(config, instant, id, Some(info), pages0) && ShouldProcessContent(info) && depth + 1 < config.maxDepth ==>
         id in pages &&
         (pages[id] == AcceptedPage(id, info).(content := Some(PageText(parser, api, info))) ||
          (pages[id].lastEditedTime.Some? && FirstTimeAfterSecond(instant, pages[id].lastEditedTime.value, info.lastEditedTime))) &&
         |relations| >= |relations0| + PageLinks(api, info))
    }

    /** `recursive_process_unprocessed_page` once the metadata is at hand. */
    method ProcessFetchedPage(id: string, info: PageInfo, depth: int)
      modifies this
      decreases Budget(depth), 1, 0
      ensures Processed(id, info, depth, old(preparedPages), old(pageRelations), preparedPages, pageRelations)
      ensures PagesEvolve(instant, old(preparedPages), preparedPages)
      ensures RelationsEvolve(old(pageRelations), pageRelations)
    {
      if id in preparedPages && NotNewer(instant, info, preparedPages[id]) {
        return;
      }
      var title := ExtractTitle(info);
      var page := GraphPage(id, title, PageTypeOfObject(info.objectKind), info.url, None, "Notion",
                            Some(info.lastEditedTime), []);
      if !ShouldAddPage(config, info) {
        return;
      }
      page := page.(title := UpdatedTitle(info, page.title));
      assert page == AcceptedPage(id, info);
      preparedPages := preparedPages[id := page];
      if !ShouldProcessContent(info) {
        return;
      }
      ghost var pages0 := preparedPages;
      FillContent(id, page, info, depth);
      PagesEvolveTrans(instant, old(preparedPages), pages0, preparedPages);
    }

    /** The content step of `recursive_process_unprocessed_page`: the
        subtree is processed, then its text is written into the stored page
        unless a newer version of the page replaced it meanwhile. */
    method FillContent(id: string, page: GraphPage, info: PageInfo, depth: int)
      requires id in preparedPages && preparedPages[id] == page && page.id == id
      requires page.content == None && page.lastEditedTime == Some(info.lastEditedTime)
      modifies this
      decreases Budget(depth), 1, 0, 0
      ensures id in preparedPages
      ensures depth + 1 >= config.maxDepth ==> preparedPages == old(preparedPages) && pageRelations == old(pageRelations)
      ensures depth + 1 < config.maxDepth ==>
        (preparedPages[id] == page.(content := Some(PageText(parser, api, info))) ||
         (preparedPages[id].lastEditedTime.Some? &&
          FirstTimeAfterSecond(instant, preparedPages[id].lastEditedTime.value, info.lastEditedTime))) &&
        |pageRelations| >= |old(pageRelations)| + PageLinks(api, info)
      ensures PagesEvolve(instant, old(preparedPages), preparedPages)
      ensures RelationsEvolve(old(pageRelations), pageRelations)
    {
      var content := RecursiveProcessPageContent(info, depth);
      ghost var pages0 := preparedPages;
      assert KeptOrNewer(instant, page, preparedPages[id]);
      if preparedPages[id].(content := None) == page {
        preparedPages := preparedPages[id := page.(content := content)];
        PagesEvolveTrans(instant, old(preparedPages), pages0, preparedPages);
      } else {
        assert FirstTimeAfterSecond(instant, preparedPages[id].lastEditedTime.value, info.lastEditedTime);
      }
    }

    /** `recursive_process_page_properties`: relation, text, title and URL
        properties link the page to what they name. */
    method RecursiveProcessPageProperties(info: PageInfo, depth: int)
      modifies this
      decreases Budget(depth), 4
      ensures |pageRelations| >= |old(pageRelations)| + PropertiesLinks(api, info.id, info.properties)
      ensures PagesEvolve(instant, old(preparedPages), preparedPages)
      ensures RelationsEvolve(old(pageRelations), pageRelations)
    {
      var i := 0;
      while i < |info.properties|
        invariant 0 <= i <= |info.properties|
        invariant |pageRelations| >= |old(pageRelations)| + PropertiesLinks(api, info.id, info.properties[..i])
        invariant PagesEvolve(instant, old(preparedPages), preparedPages)
        invariant RelationsEvolve(old(pageRelations), pageRelations)
      {
        var (name, prop) := info.properties[i];
        ghost var pages0, relations0 := preparedPages, pageRelations;
        if prop.value.Relation? && prop.value.relatedIds != [] {
          var relations := PaginatedRelations(api, info.id, prop);
          var j := 0;
          while j < |relations|
            invariant 0 <= j <= |relations|
            invariant |pageRelations| >= |relations0| + j
            invariant PagesEvolve(instant, pages0, preparedPages)
            invariant RelationsEvolve(relations0, pageRelations)
          {
            ghost var pages1, relations1 := preparedPages, pageRelations;
            SaveRelationAndProcessPage(info.id, REFERENCES, relations[j], Some("Relation property **" + name + "**"),
                                       None, None, depth);
            PagesEvolveTrans(instant, pages0, pages1, preparedPages);
            RelationsEvolveTrans(relations0, relations1, pageRelations);
            j := j + 1;
          }
        }
        if prop.value.RichTextValue? && prop.value.richText != [] {
          ProcessRichTextArray(PaginatedText(api, info.id, prop), info.id, depth, Some("Text property **" + name + "**:"));
        }
        if prop.value.Title? && prop.value.title != [] {
          ProcessRichTextArray(PaginatedText(api, info.id, prop), info.id, depth, Some("Title property **" + name + "**:"));
        }
        if prop.value.Url? && NonEmptyStr(prop.value.url) {
          SaveRelationAndProcessBookmark(info.id, prop.value.url.value, REFERENCES, Some("Url property **" + name + "**"));
        }
        PagesEvolveTrans(instant, old(preparedPages), pages0, preparedPages);
        RelationsEvolveTrans(old(pageRelations), relations0, pageRelations);
        assert info.properties[..i + 1][..i] == info.properties[..i];
        i := i + 1;
      }
      assert info.properties[..i] == info.properties;
    }

    /** What walking from the root metadata does: the root page is stored
        unconditionally, over whatever was held under its key, then the
        walk proceeds as from any accepted page. */
    ghost predicate RootWalked(root: PageInfo, pages0: map<string, GraphPage>, relations0: seq<GraphRelation>,
                               pages: map<string, GraphPage>, relations: seq<GraphRelation>)
      reads this
    {
      var key := NormalizeUuid(root.id);
      var page := PageFromInfo(key, root);
      key in pages &&
      PagesEvolve(instant, pages0[key := page], pages) &&
      RelationsEvolve(relations0, relations) &&
      (pages[key] == page.(content := ContentAt(config, parser, api, root, 0)) ||
       (pages[key].lastEditedTime.Some? && FirstTimeAfterSecond(instant, pages[key].lastEditedTime.value, root.lastEditedTime))) &&
      (1 < config.maxDepth ==> |relations| >= |relations0| + PageLinks(api, root))
    }

    /** The walk of `process_pages` once the root metadata is at hand. */
    method WalkFromRoot(root: PageInfo)
      modifies this
      ensures RootWalked(root, old(preparedPages), old(pageRelations), preparedPages, pageRelations)
    {
      var key := NormalizeUuid(root.id);
      var title := ExtractTitle(root);
      var page := GraphPage(key, title, PageTypeOfObject(root.objectKind), root.url, None, "Notion",
                            Some(root.lastEditedTime), []);
      preparedPages := preparedPages[key := page];
      ghost var pages0 := preparedPages;
      var content := RecursiveProcessPageContent(root, 0);
      assert KeptOrNewer(instant, page, preparedPages[key]);
      if preparedPages[key].(content := None) == page {
        preparedPages := preparedPages[key := page.(content := content)];
        PagesEvolveTrans(instant, old(preparedPages)[key := page], pages0, preparedPages);
      }
    }

    /** `process_pages`: answer from the cache when both lists load;
        otherwise walk from the root page and save the result when caching
        is on. `ok` is false where the root metadata request raises. */
    method ProcessPages(rootPageId: string, now: int) returns (ok: bool)
      modifies this, cache
      ensures CacheHit(config, old(cache.files), cache.ttlSeconds, rootPageId, now) ==>
        ok && cache.files == old(cache.files) &&
        Success(preparedPages) == CacheUtil.LoadPagesFrom(old(cache.files), cache.ttlSeconds, rootPageId, CacheUtil.PagesFile, now) &&
        Success(pageRelations) == CacheUtil.LoadRelationsFrom(old(cache.files), cache.ttlSeconds, rootPageId, CacheUtil.RelationsFile, now)
      ensures !CacheHit(config, old(cache.files), cache.ttlSeconds, rootPageId, now) ==> (ok <==> rootPageId in api.rootInfo)
      ensures !ok ==>
        preparedPages == StartPages(config, old(cache.files), cache.ttlSeconds, rootPageId, now, old(preparedPages)) &&
        pageRelations == old(pageRelations) && cache.files == old(cache.files)
      ensures !CacheHit(config, old(cache.files), cache.ttlSeconds, rootPageId, now) && ok ==>
        RootWalked(api.rootInfo[rootPageId], StartPages(config, old(cache.files), cache.ttlSeconds, rootPageId, now, old(preparedPages)),
                   old(pageRelations), preparedPages, pageRelations)
      ensures !CacheHit(config, old(cache.files), cache.ttlSeconds, rootPageId, now) && ok && config.cacheEnabled ==>
        cache.files == SavedWalk(old(cache.files), rootPageId, preparedPages, pageRelations, now) &&
        (cache.ttlSeconds >= 0 ==> CacheHit(config, cache.files, cache.ttlSeconds, rootPageId, now))
      ensures !config.cacheEnabled ==> cache.files == old(cache.files)
    {
      var hit := LoadFromCache(rootPageId, now);
      if hit {
        return true;
      }
      if rootPageId !in api.rootInfo {
        return false;
      }
      WalkFromRoot(api.rootInfo[rootPageId]);
      if config.cacheEnabled {
        SaveWalk(rootPageId, now);
      }
      return true;
    }

    /** The cache branch of `process_pages`: the pages, then the relations,
        each loaded when they can be; a hit only when both load. */
    method LoadFromCache(rootPageId: string, now: int) returns (hit: bool)
      modifies this
      ensures hit <==> CacheHit(config, cache.files, cache.ttlSeconds, rootPageId, now)
      ensures hit ==>
        Success(preparedPages) == CacheUtil.LoadPagesFrom(cache.files, cache.ttlSeconds, rootPageId, CacheUtil.PagesFile, now) &&
        Success(pageRelations) == CacheUtil.LoadRelationsFrom(cache.files, cache.ttlSeconds, rootPageId, CacheUtil.RelationsFile, now)
      ensures !hit ==>
        preparedPages == StartPages(config, cache.files, cache.ttlSeconds, rootPageId, now, old(preparedPages)) &&
        pageRelations == old(pageRelations)
    {
      if config.cacheEnabled {
        var pagesLoad := cache.LoadPreparedPagesFromCache(rootPageId, CacheUtil.PagesFile, now);
        if pagesLoad.Success? {
          preparedPages := pagesLoad.value;
          var relationsLoad := cache.LoadPageRelationsFromCache(rootPageId, CacheUtil.RelationsFile, now);
          if relationsLoad.Success? {
            pageRelations := relationsLoad.value;
            return true;
          }
        }
      }
      return false;
    }

    /** The saving branch of `process_pages`: pages, then relations, after
        which the same root loads back from the cache while the entries are
        fresh. */
    method SaveWalk(rootPageId: string, now: int)
      requires config.cacheEnabled
      modifies cache
      ensures cache.files == SavedWalk(old(cache.files), rootPageId, preparedPages, pageRelations, now)
      ensures cache.ttlSeconds >= 0 ==> CacheHit(config, cache.files, cache.ttlSeconds, rootPageId, now)
    {
      cache.SavePreparedPagesToCache(rootPageId, preparedPages, CacheUtil.PagesFile, now);
      cache.SavePageRelationsToCache(rootPageId, pageRelations, CacheUtil.RelationsFile, now);
      if cache.ttlSeconds >= 0 {
        SavedWalkReloads(old(cache.files), cache.ttlSeconds, rootPageId, preparedPages, pageRelations, now);
      }
    }

    /** `fetch_data`: process the configured root page and hand out the
        walker's pages and relations; `None` where the walk raises. */
    method FetchData(now: int) returns (data: Option<ProcessedData>)
      modifies this, cache
      ensures data.Some? <==>
        CacheHit(config, old(cache.files), cache.ttlSeconds, config.notionRootPageId, now) || config.notionRootPageId in api.rootInfo
      ensures data.Some? ==> fresh(data.value) && data.value.pages == preparedPages && data.value.relations == pageRelations
    {
      var ok := ProcessPages(config.notionRootPageId, now);
      if !ok {
        return None;
      }
      var processed := new ProcessedData(preparedPages, pageRelations);
      return Some(processed);
    }
  }
}
