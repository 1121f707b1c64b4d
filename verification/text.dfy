/**
  String operations the contact pipeline relies on, written as explicit character predicates
  instead of regular expressions. Strings are sequences of Unicode scalar values.
 */
module Text {

  /** The characters JavaScript's `\s` matches; `String.prototype.trim` removes the same set. */
  predicate IsSpace(c: char) {
    || c == ' ' || c == '\t' || c == '\n' || c == '\r' || c == '\U{000B}' || c == '\U{000C}'
    || c == '\U{00A0}' || c == '\U{1680}' || ('\U{2000}' <= c <= '\U{200A}')
    || c == '\U{2028}' || c == '\U{2029}' || c == '\U{202F}' || c == '\U{205F}'
    || c == '\U{3000}' || c == '\U{FEFF}'
  }

  predicate IsBlank(s: string) {
    forall i :: 0 <= i < |s| ==> IsSpace(s[i])
  }

  /** Neither end of `s` is a space: what `trim()` guarantees of its result. */
  predicate IsTrimmed(s: string) {
    |s| == 0 || (!IsSpace(s[0]) && !IsSpace(s[|s| - 1]))
  }

  /** The first index at or after `from` that holds a non-space, or `|s|`. */
  function SkipSpaces(s: string, from: nat): (r: nat)
    requires from <= |s|
    ensures from <= r <= |s|
    ensures forall i :: from <= i < r ==> IsSpace(s[i])
    ensures r < |s| ==> !IsSpace(s[r])
    decreases |s| - from
  {
    if from < |s| && IsSpace(s[from]) then SkipSpaces(s, from + 1) else from
  }

  /** The least end `r <= to` such that `s[r..to]` is all spaces. */
  function SkipSpacesBack(s: string, to: nat): (r: nat)
    requires to <= |s|
    ensures r <= to
    ensures forall i :: r <= i < to ==> IsSpace(s[i])
    ensures r > 0 ==> !IsSpace(s[r - 1])
  {
    if to > 0 && IsSpace(s[to - 1]) then SkipSpacesBack(s, to - 1) else to
  }

  /** `r` is the slice of `s` starting at `k`, and everything of `s` outside that slice is space. */
  ghost predicate SliceWithSpaceMargins(s: string, r: string, k: int) {
    && 0 <= k <= |s| - |r| && r == s[k..k + |r|]
    && (forall i :: 0 <= i < k ==> IsSpace(s[i]))
    && (forall i :: k + |r| <= i < |s| ==> IsSpace(s[i]))
  }

  /** JavaScript's `s.trim()`: the slice of `s` that has no space at either end and only spaces outside it. */
  function Trim(s: string): (r: string)
    ensures IsTrimmed(r)
    ensures |r| <= |s|
    ensures exists k :: SliceWithSpaceMargins(s, r, k)
    ensures r == [] <==> IsBlank(s)
  {
    var a := SkipSpaces(s, 0);
    var b := SkipSpacesBack(s, |s|);
    if a == |s| then
      assert SliceWithSpaceMargins(s, [], a);
      []
    else
      assert a < b;
      var r := s[a..b];
      assert SliceWithSpaceMargins(s, r, a);
      assert !IsBlank(s) by { assert !IsSpace(s[a]); }
      r
  }

  lemma TrimOfTrimmed(s: string)
    requires IsTrimmed(s)
    ensures Trim(s) == s
  {
    if |s| > 0 {
      assert SkipSpaces(s, 0) == 0;
      assert SkipSpacesBack(s, |s|) == |s|;
    }
  }

  /** Trimming twice is trimming once. */
  lemma TrimIdempotent(s: string)
    ensures Trim(Trim(s)) == Trim(s)
  {
    TrimOfTrimmed(Trim(s));
  }

  /** ASCII `A`-`Z` to `a`-`z`; every other character is kept. */
  function LowerChar(c: char): char {
    if 'A' <= c <= 'Z' then (c as int + 32) as char else c
  }

  /** `s.toLowerCase()`, restricted to the ASCII letters. */
  function ToLower(s: string): (r: string)
    ensures |r| == |s|
    ensures forall i :: 0 <= i < |s| ==> r[i] == LowerChar(s[i])
  {
    if |s| == 0 then [] else [LowerChar(s[0])] + ToLower(s[1..])
  }

  lemma ToLowerIdempotent(s: string)
    ensures ToLower(ToLower(s)) == ToLower(s)
  {
  }

  /** Lower-casing keeps a string trimmed, so trimming after lower-casing a trimmed string changes nothing. */
  lemma ToLowerKeepsTrimmed(s: string)
    requires IsTrimmed(s)
    ensures IsTrimmed(ToLower(s))
    ensures Trim(ToLower(s)) == ToLower(s)
  {
    assert IsTrimmed(ToLower(s));
    TrimOfTrimmed(ToLower(s));
  }

  predicate OccursAt(s: string, sub: string, i: int) {
    0 <= i <= |s| - |sub| && s[i..i + |sub|] == sub
  }

  /** JavaScript's `s.includes(sub)`. */
  predicate Contains(s: string, sub: string) {
    exists i | 0 <= i <= |s| - |sub| :: OccursAt(s, sub, i)
  }

  predicate LacksChar(s: string, c: char) {
    forall j :: 0 <= j < |s| ==> s[j] != c
  }

  /** A string lacking one of the characters of `sub` does not contain `sub`. */
  lemma CharAbsent(s: string, sub: string, k: nat)
    requires k < |sub| && LacksChar(s, sub[k])
    ensures !Contains(s, sub)
  {
    forall i | 0 <= i <= |s| - |sub|
      ensures !OccursAt(s, sub, i)
    {
      assert s[i..i + |sub|][k] == s[i + k];
    }
  }

  /** Position of the first `c` in `s` at or after `from`, if any. */
  function IndexOf(s: string, c: char, from: nat): (r: int)
    ensures r == -1 || from <= r < |s|
    ensures r == -1 ==> forall i :: from <= i < |s| ==> s[i] != c
    ensures r >= 0 ==> s[r] == c && forall i :: from <= i < r ==> s[i] != c
    decreases |s| - from
  {
    if from >= |s| then -1
    else if s[from] == c then from
    else IndexOf(s, c, from + 1)
  }

  /** `s.split(',')[0]`: everything before the first comma. */
  function FirstField(s: string): (r: string)
    ensures ',' !in r
    ensures |r| <= |s| && r == s[..|r|]
    ensures |r| < |s| ==> s[|r|] == ','
  {
    var k := IndexOf(s, ',', 0);
    if k < 0 then s else s[..k]
  }

  // ---------------------------------------------------------------------------
  // Character classes of the regular expressions used by the pipeline.

  /** One character of `[a-zA-Z\s\-']`. */
  predicate IsNameChar(c: char) {
    ('a' <= c <= 'z') || ('A' <= c <= 'Z') || IsSpace(c) || c == '-' || c == '\''
  }

  /** `/^[a-zA-Z\s\-']+$/.test(s)`. */
  predicate MatchesNamePattern(s: string) {
    |s| > 0 && forall i :: 0 <= i < |s| ==> IsNameChar(s[i])
  }

  /** One character of `[^\s@]`. */
  predicate IsAddressChar(c: char) {
    !IsSpace(c) && c != '@'
  }

  predicate AllAddressChars(s: string) {
    forall i :: 0 <= i < |s| ==> IsAddressChar(s[i])
  }

  /**
    The reading of `/^[^\s@]+@[^\s@]+\.[^\s@]+$/` as a split: a non-empty local part, the `@` at `at`,
    a domain with the `.` at `dot` that has at least one character on each side, and no space or
    further `@` anywhere.
   */
  ghost predicate EmailSplit(s: string, at: int, dot: int) {
    && 0 < at && at + 1 < dot < |s| - 1
    && s[at] == '@' && s[dot] == '.'
    && AllAddressChars(s[..at]) && AllAddressChars(s[at + 1..])
  }

  ghost predicate EmailShape(s: string) {
    exists at, dot :: EmailSplit(s, at, dot)
  }

  /** Executable test of the e-mail pattern: no spaces, exactly one `@` not in first place, and a `.` strictly inside the domain. */
  function MatchesEmailPattern(s: string): (b: bool)
    ensures b <==> EmailShape(s)
  {
    var at := IndexOf(s, '@', 0);
    if at < 0 then
      NoSplitWithoutAt(s);
      false
    else if at == 0 then
      NoSplitAtStart(s);
      false
    else if at + 3 > |s| then
      NoSplitWhenShort(s, at);
      false
    else
      var dot := IndexOf(s[..|s| - 1], '.', at + 2);
      var ok := dot >= 0 && AllAddressChars(s[..at]) && AllAddressChars(s[at + 1..]);
      if ok then
        assert EmailSplit(s, at, dot);
        true
      else
        NoSplitOtherwise(s, at, dot);
        false
  }

  lemma NoSplitWithoutAt(s: string)
    requires forall i :: 0 <= i < |s| ==> s[i] != '@'
    ensures !EmailShape(s)
  {
  }

  /** No prefix that reaches past an `@` consists of address characters. */
  lemma PrefixesPastAt(s: string, at: int)
    requires 0 <= at < |s| && s[at] == '@'
    ensures forall a :: at < a <= |s| ==> !AllAddressChars(s[..a])
  {
    forall a | at < a <= |s|
      ensures !AllAddressChars(s[..a])
    {
      assert s[..a][at] == '@';
    }
  }

  lemma NoSplitAtStart(s: string)
    requires |s| > 0 && s[0] == '@'
    ensures !EmailShape(s)
  {
    PrefixesPastAt(s, 0);
  }

  lemma NoSplitWhenShort(s: string, at: int)
    requires 0 < at < |s| && s[at] == '@' && at + 3 > |s|
    requires forall i :: 0 <= i < at ==> s[i] != '@'
    ensures !EmailShape(s)
  {
    PrefixesPastAt(s, at);
  }

  lemma NoSplitOtherwise(s: string, at: int, dot: int)
    requires 0 < at && at + 3 <= |s| && s[at] == '@'
    requires forall i :: 0 <= i < at ==> s[i] != '@'
    requires dot == IndexOf(s[..|s| - 1], '.', at + 2)
    requires !(dot >= 0 && AllAddressChars(s[..at]) && AllAddressChars(s[at + 1..]))
    ensures !EmailShape(s)
  {
    PrefixesPastAt(s, at);
    if dot < 0 {
      forall d | at + 2 <= d < |s| - 1
        ensures s[d] != '.'
      {
        assert s[..|s| - 1][d] == s[d];
      }
    }
  }

  // ---------------------------------------------------------------------------
  // The two rewriting steps of the record's pre-save hook.

  /** No two neighbouring characters are both spaces. */
  predicate NoDoubleSpace(s: string) {
    forall i :: 0 <= i < |s| - 1 ==> !(IsSpace(s[i]) && IsSpace(s[i + 1]))
  }

  /** Every space character is the plain blank. */
  predicate OnlyBlanks(s: string) {
    forall i :: 0 <= i < |s| ==> IsSpace(s[i]) ==> s[i] == ' '
  }

  /** `s.replace(/\s+/g, ' ')`: every maximal run of spaces becomes one blank. */
  function CollapseSpaces(s: string): (r: string)
    ensures NoDoubleSpace(r) && OnlyBlanks(r)
    ensures |r| <= |s|
    ensures |r| == 0 <==> |s| == 0
    ensures |r| > 0 ==> (IsSpace(r[0]) <==> IsSpace(s[0]))
    ensures |r| > 0 ==> (IsSpace(r[|r| - 1]) <==> IsSpace(s[|s| - 1]))
    decreases |s|
  {
    if |s| == 0 then []
    else if IsSpace(s[0]) then
      var rest := s[SkipSpaces(s, 1)..];
      [' '] + CollapseSpaces(rest)
    else
      [s[0]] + CollapseSpaces(s[1..])
  }

  /** A string already in collapsed form is left alone. */
  lemma {:induction false} CollapseFixesCollapsed(s: string)
    requires NoDoubleSpace(s) && OnlyBlanks(s)
    ensures CollapseSpaces(s) == s
    decreases |s|
  {
    if |s| > 0 {
      assert NoDoubleSpace(s[1..]) && OnlyBlanks(s[1..]);
      if IsSpace(s[0]) {
        assert |s| > 1 ==> !IsSpace(s[1]);
        assert SkipSpaces(s, 1) == 1;
      }
      CollapseFixesCollapsed(s[1..]);
    }
  }

  /** Collapsing twice is collapsing once. */
  lemma CollapseIdempotent(s: string)
    ensures CollapseSpaces(CollapseSpaces(s)) == CollapseSpaces(s)
  {
    CollapseFixesCollapsed(CollapseSpaces(s));
  }

  /** No `<` has a `>` somewhere after it, so `/<[^>]*>/` has nothing to match. */
  predicate NoTag(s: string) {
    forall i, j :: 0 <= i < j < |s| && s[i] == '<' ==> s[j] != '>'
  }

  /**
    `s.replace(/<[^>]*>/g, '')`: scanning left to right, a `<` and everything up to the first `>`
    after it are removed; a `<` with no later `>` is kept.
   */
  function StripTags(s: string): (r: string)
    ensures NoTag(r)
    ensures |r| <= |s|
    ensures forall i :: 0 <= i < |r| ==> r[i] in s
    decreases |s|
  {
    if |s| == 0 then []
    else
      var close := IndexOf(s, '>', 1);
      if s[0] == '<' && close > 0 then
        var r := StripTags(s[close + 1..]);
        assert forall i :: 0 <= i < |r| ==> r[i] in s[close + 1..];
        r
      else
        var rest := StripTags(s[1..]);
        assert forall i :: 0 <= i < |rest| ==> rest[i] in s[1..];
        [s[0]] + rest
  }

  /** A string without tags is left alone. */
  lemma {:induction false} StripFixesTagFree(s: string)
    requires NoTag(s)
    ensures StripTags(s) == s
    decreases |s|
  {
    if |s| > 0 {
      assert NoTag(s[1..]);
      StripFixesTagFree(s[1..]);
    }
  }

  /** A single trailing space after a trimmed word is what trimming removes. */
  lemma TrimDropsTrailingSpace(w: string, c: char)
    requires IsTrimmed(w) && |w| > 0 && IsSpace(c)
    ensures Trim(w + [c]) == w
  {
    var s := w + [c];
    assert !IsSpace(s[0]);
    assert SkipSpaces(s, 0) == 0;
    assert !IsSpace(s[|w| - 1]);
    assert SkipSpacesBack(s, |w|) == |w|;
    assert SkipSpacesBack(s, |s|) == |w|;
    assert s[0..|w|] == w;
  }

  /** Trimming a tag-free string keeps it tag-free: the result is a slice of it. */
  lemma TrimKeepsTagFree(s: string)
    requires NoTag(s)
    ensures NoTag(Trim(s))
  {
    var r := Trim(s);
    var k :| SliceWithSpaceMargins(s, r, k);
    assert forall i :: 0 <= i < |r| ==> r[i] == s[k + i];
  }

  /** Text before the first `<` is kept as it is. */
  lemma {:induction false} StripPlainPrefix(p: string, t: string)
    requires '<' !in p
    ensures StripTags(p + t) == p + StripTags(t)
    decreases |p|
  {
    if |p| > 0 {
      var s := p + t;
      assert s[0] == p[0] && p[0] != '<';
      assert s[1..] == p[1..] + t;
      assert '<' !in p[1..] by {
        forall i | 0 <= i < |p[1..]|
          ensures p[1..][i] != '<'
        {
          assert p[1..][i] == p[i + 1];
        }
      }
      assert StripTags(s) == [s[0]] + StripTags(s[1..]);
      StripPlainPrefix(p[1..], t);
      assert p == [p[0]] + p[1..];
    } else {
      assert p + t == t;
    }
  }

  /** Stripping twice is stripping once. */
  lemma StripIdempotent(s: string)
    ensures StripTags(StripTags(s)) == StripTags(s)
  {
    StripFixesTagFree(StripTags(s));
  }
}
