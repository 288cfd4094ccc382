/**
 * The regular-expression steps both `TextCleaner`s share: dropping every
 * character outside a class, `re.sub(r'\s+', ' ', ...)` and `str.strip()`.
 * Whitespace is `Text.IsSpace`, the class `\s` of text patterns.
 */
module TextCleaning {
  import opened Text

  predicate NotSpace(c: char) { !IsSpace(c) }

  /** `re.sub(r'[^...]', '', s)`: the characters `keep` accepts, in order. */
  function KeepOnly(s: string, keep: char -> bool): (r: string)
    ensures |r| <= |s|
    ensures forall i :: 0 <= i < |r| ==> keep(r[i]) && r[i] in s
  {
    if s == [] then [] else (if keep(s[0]) then [s[0]] else []) + KeepOnly(s[1..], keep)
  }

  lemma {:induction false} KeepOnlyConcat(a: string, b: string, keep: char -> bool)
    ensures KeepOnly(a + b, keep) == KeepOnly(a, keep) + KeepOnly(b, keep)
  {
    if a != [] {
      assert (a + b)[0] == a[0];
      assert (a + b)[1..] == a[1..] + b;
      KeepOnlyConcat(a[1..], b, keep);
    } else {
      assert a + b == b;
    }
  }

  /** A string all of whose characters are kept is its own filtering. */
  lemma {:induction false} KeepOnlyAll(s: string, keep: char -> bool)
    requires forall i :: 0 <= i < |s| ==> keep(s[i])
    ensures KeepOnly(s, keep) == s
  {
    if s != [] {
      KeepOnlyAll(s[1..], keep);
    }
  }

  /** `re.sub(r'\s+', ' ', s)`, scanning with `inRun` set inside a run of
      whitespace that has already been replaced. */
  function CollapseFrom(s: string, inRun: bool): string {
    if s == [] then []
    else if IsSpace(s[0]) then (if inRun then [] else " ") + CollapseFrom(s[1..], true)
    else [s[0]] + CollapseFrom(s[1..], false)
  }

  function Collapse(s: string): string {
    CollapseFrom(s, false)
  }

  /** Whitespace that survives is a single space, never two in a row, never
      first after a run; everything else is a character of `s`, and the
      non-whitespace characters are those of `s`, in order. */
  lemma CollapseShape(s: string, inRun: bool)
    ensures forall i :: 0 <= i < |CollapseFrom(s, inRun)| ==>
      CollapseFrom(s, inRun)[i] == ' ' || (!IsSpace(CollapseFrom(s, inRun)[i]) && CollapseFrom(s, inRun)[i] in s)
    ensures forall i :: 0 <= i < |CollapseFrom(s, inRun)| - 1 ==>
      !(CollapseFrom(s, inRun)[i] == ' ' && CollapseFrom(s, inRun)[i + 1] == ' ')
    ensures inRun && CollapseFrom(s, inRun) != [] ==> CollapseFrom(s, inRun)[0] != ' '
    ensures KeepOnly(CollapseFrom(s, inRun), NotSpace) == KeepOnly(s, NotSpace)
  {
    CollapseChars(s, inRun);
    CollapseSingleSpaces(s, inRun);
    CollapseKeeps(s, inRun);
  }

  lemma {:induction false} CollapseChars(s: string, inRun: bool)
    ensures forall i :: 0 <= i < |CollapseFrom(s, inRun)| ==>
      CollapseFrom(s, inRun)[i] == ' ' || (!IsSpace(CollapseFrom(s, inRun)[i]) && CollapseFrom(s, inRun)[i] in s)
  {
    if s != [] {
      CollapseChars(s[1..], IsSpace(s[0]));
      var tail := CollapseFrom(s[1..], IsSpace(s[0]));
      var head := if IsSpace(s[0]) then (if inRun then [] else " ") else [s[0]];
      assert CollapseFrom(s, inRun) == head + tail;
      forall i | 0 <= i < |head + tail|
        ensures (head + tail)[i] == ' ' || (!IsSpace((head + tail)[i]) && (head + tail)[i] in s)
      {
        if i >= |head| {
          var c := tail[i - |head|];
          assert (head + tail)[i] == c;
          assert c in s[1..] ==> c in s;
        } else if !IsSpace(s[0]) {
          assert (head + tail)[i] == s[0];
        } else {
          assert (head + tail)[i] == ' ';
        }
      }
    }
  }

  lemma {:induction false} CollapseSingleSpaces(s: string, inRun: bool)
    ensures forall i :: 0 <= i < |CollapseFrom(s, inRun)| - 1 ==>
      !(CollapseFrom(s, inRun)[i] == ' ' && CollapseFrom(s, inRun)[i + 1] == ' ')
    ensures inRun && CollapseFrom(s, inRun) != [] ==> CollapseFrom(s, inRun)[0] != ' '
  {
    if s != [] {
      CollapseSingleSpaces(s[1..], IsSpace(s[0]));
      var tail := CollapseFrom(s[1..], IsSpace(s[0]));
      var head := if IsSpace(s[0]) then (if inRun then [] else " ") else [s[0]];
      assert CollapseFrom(s, inRun) == head + tail;
      forall i | 0 <= i < |head + tail| - 1
        ensures !((head + tail)[i] == ' ' && (head + tail)[i + 1] == ' ')
      {
        if i >= |head| {
          assert (head + tail)[i] == tail[i - |head|] && (head + tail)[i + 1] == tail[i + 1 - |head|];
        } else if IsSpace(s[0]) {
          assert (head + tail)[i + 1] == tail[0];
        } else {
          assert (head + tail)[i] == s[0];
        }
      }
    }
  }

  lemma {:induction false} CollapseKeeps(s: string, inRun: bool)
    ensures KeepOnly(CollapseFrom(s, inRun), NotSpace) == KeepOnly(s, NotSpace)
  {
    if s != [] {
      CollapseKeeps(s[1..], IsSpace(s[0]));
      var tail := CollapseFrom(s[1..], IsSpace(s[0]));
      var head := if IsSpace(s[0]) then (if inRun then [] else " ") else [s[0]];
      assert CollapseFrom(s, inRun) == head + tail;
      KeepOnlyConcat(head, tail, NotSpace);
      assert KeepOnly(head, NotSpace) == (if NotSpace(s[0]) then [s[0]] else []);
    }
  }

  /** A string already in collapsed form is left as it is. */
  lemma {:induction false} CollapseFixes(s: string, inRun: bool)
    requires forall i :: 0 <= i < |s| ==> s[i] == ' ' || !IsSpace(s[i])
    requires forall i :: 0 <= i < |s| - 1 ==> !(s[i] == ' ' && s[i + 1] == ' ')
    requires inRun ==> s == [] || s[0] != ' '
    ensures CollapseFrom(s, inRun) == s
  {
    if s != [] {
      CollapseFixes(s[1..], IsSpace(s[0]));
    }
  }

  /** `s.lstrip()`: the suffix after the leading whitespace. */
  function StripLeft(s: string): (r: string)
    ensures |r| <= |s| && r == s[|s| - |r|..]
    ensures r == [] || !IsSpace(r[0])
    ensures forall i :: 0 <= i < |s| - |r| ==> IsSpace(s[i])
  {
    if s != [] && IsSpace(s[0]) then StripLeft(s[1..]) else s
  }

  /** `s.rstrip()`: the prefix before the trailing whitespace. */
  function StripRight(s: string): (r: string)
    ensures |r| <= |s| && r == s[..|r|]
    ensures r == [] || !IsSpace(r[|r| - 1])
    ensures forall i :: |r| <= i < |s| ==> IsSpace(s[i])
  {
    if s != [] && IsSpace(s[|s| - 1]) then StripRight(s[..|s| - 1]) else s
  }

  /** `s.strip()` */
  function Strip(s: string): string {
    StripRight(StripLeft(s))
  }

  /** Where the stripped text begins in `s`. */
  function StripStart(s: string): nat {
    |s| - |StripLeft(s)|
  }

  /** Stripping cuts one slice out of `s`: whitespace before and after it,
      and no whitespace at either of its ends. */
  lemma StripSlice(s: string)
    ensures StripStart(s) + |Strip(s)| <= |s| && Strip(s) == s[StripStart(s)..StripStart(s) + |Strip(s)|]
    ensures forall i :: 0 <= i < StripStart(s) ==> IsSpace(s[i])
    ensures forall i :: StripStart(s) + |Strip(s)| <= i < |s| ==> IsSpace(s[i])
    ensures Strip(s) == [] || (!IsSpace(Strip(s)[0]) && !IsSpace(Strip(s)[|Strip(s)| - 1]))
  {
    StripPlace(s);
    StripTrailing(s);
    StripEnds(s);
  }

  lemma StripPlace(s: string)
    ensures StripStart(s) + |Strip(s)| <= |s| && Strip(s) == s[StripStart(s)..StripStart(s) + |Strip(s)|]
  {
    var l := StripLeft(s);
    var a := |s| - |l|;
    assert l == s[a..];
    assert Strip(s) == l[..|Strip(s)|];
  }

  lemma StripTrailing(s: string)
    ensures forall i :: StripStart(s) + |Strip(s)| <= i < |s| ==> IsSpace(s[i])
  {
    var l := StripLeft(s);
    var a := |s| - |l|;
    assert l == s[a..];
    forall i | a + |Strip(s)| <= i < |s| ensures IsSpace(s[i]) {
      assert s[i] == l[i - a];
    }
  }

  lemma StripEnds(s: string)
    ensures Strip(s) == [] || (!IsSpace(Strip(s)[0]) && !IsSpace(Strip(s)[|Strip(s)| - 1]))
  {
    var l := StripLeft(s);
    if Strip(s) != [] {
      assert Strip(s)[0] == l[0];
    }
  }

  /** A string without whitespace at its ends is already stripped. */
  lemma StripFixes(s: string)
    requires s == [] || (!IsSpace(s[0]) && !IsSpace(s[|s| - 1]))
    ensures Strip(s) == s
  {
  }

  /** Stripping only drops whitespace: the other characters stay, in order. */
  lemma StripKeeps(s: string)
    ensures KeepOnly(Strip(s), NotSpace) == KeepOnly(s, NotSpace)
  {
    StripLeftKeeps(s);
    StripRightKeeps(StripLeft(s));
  }

  lemma {:induction false} StripLeftKeeps(s: string)
    ensures KeepOnly(StripLeft(s), NotSpace) == KeepOnly(s, NotSpace)
  {
    if s != [] && IsSpace(s[0]) {
      StripLeftKeeps(s[1..]);
    }
  }

  lemma {:induction false} StripRightKeeps(s: string)
    ensures KeepOnly(StripRight(s), NotSpace) == KeepOnly(s, NotSpace)
  {
    if s != [] && IsSpace(s[|s| - 1]) {
      var init := s[..|s| - 1];
      StripRightKeeps(init);
      assert s == init + [s[|s| - 1]];
      KeepOnlyConcat(init, [s[|s| - 1]], NotSpace);
    }
  }

  /** Each character is kept and not whitespace, or a space. */
  predicate SpacedChars(r: string, keep: char -> bool) {
    forall i :: 0 <= i < |r| ==> r[i] == ' ' || (!IsSpace(r[i]) && keep(r[i]))
  }

  /** No two spaces in a row. */
  predicate SingleSpaced(r: string) {
    forall i :: 0 <= i < |r| - 1 ==> !(r[i] == ' ' && r[i + 1] == ' ')
  }

  /** The shape of a cleaned text: each character is kept and not whitespace,
      or a single space between two such characters. */
  predicate Cleaned(r: string, keep: char -> bool) {
    SpacedChars(r, keep) && SingleSpaced(r) && (r == [] || (r[0] != ' ' && r[|r| - 1] != ' '))
  }

  lemma SliceShape(c: string, a: nat, b: nat, keep: char -> bool)
    requires a <= b <= |c| && SpacedChars(c, keep) && SingleSpaced(c)
    ensures SpacedChars(c[a..b], keep) && SingleSpaced(c[a..b])
  {
    assert forall i :: 0 <= i < b - a ==> c[a..b][i] == c[a + i];
  }

  lemma CollapsedChars(f: string, keep: char -> bool)
    requires forall i :: 0 <= i < |f| ==> keep(f[i])
    ensures SpacedChars(Collapse(f), keep) && SingleSpaced(Collapse(f))
  {
    CollapseChars(f, false);
    CollapseSingleSpaces(f, false);
  }

  /** `re.sub(r'\s+', ' ', re.sub(r'[^...]', '', s)).strip()` for the class
      `keep`, which holds every whitespace character. */
  function CleanWith(s: string, keep: char -> bool): string {
    Strip(Collapse(KeepOnly(s, keep)))
  }

  /** A cleaned text has the cleaned shape. */
  lemma CleanWithShape(s: string, keep: char -> bool)
    ensures Cleaned(CleanWith(s, keep), keep)
  {
    var c := Collapse(KeepOnly(s, keep));
    CollapsedChars(KeepOnly(s, keep), keep);
    StripSlice(c);
    SliceShape(c, StripStart(c), StripStart(c) + |Strip(c)|, keep);
  }

  /** Cleaning keeps every kept non-whitespace character of the input, in
      order, and no other. */
  lemma CleanWithKeeps(s: string, keep: char -> bool)
    ensures KeepOnly(CleanWith(s, keep), NotSpace) == KeepOnly(KeepOnly(s, keep), NotSpace)
  {
    CollapseKeeps(KeepOnly(s, keep), false);
    StripKeeps(Collapse(KeepOnly(s, keep)));
  }

  /** A text in cleaned shape is its own cleaning, so cleaning twice is
      cleaning once. */
  lemma CleanWithFixes(r: string, keep: char -> bool)
    requires keep(' ') && Cleaned(r, keep)
    ensures CleanWith(r, keep) == r
  {
    KeepOnlyAll(r, keep);
    CollapseFixes(r, false);
    StripFixes(r);
  }
}
