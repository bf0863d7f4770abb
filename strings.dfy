/** The .NET string operations the exporter relies on, with ordinal
    (character-by-character) comparison: `Contains`, `IndexOf`,
    `Split` (also what `Regex.Split` does with a pattern free of
    metacharacters), `Replace`, `Join` and `Trim`. */
module Strings {
  import opened Wrappers

  /** `pat` occurs in `s` at index `i`. */
  ghost predicate OccursAt(s: string, pat: string, i: int) {
    0 <= i && i + |pat| <= |s| && s[i..i + |pat|] == pat
  }

  lemma {:induction false} OccursShift(s: string, pat: string)
    requires |s| > 0
    ensures forall j :: 1 <= j ==> (OccursAt(s, pat, j) <==> OccursAt(s[1..], pat, j - 1))
  {
    forall j | 1 <= j
      ensures OccursAt(s, pat, j) <==> OccursAt(s[1..], pat, j - 1)
    {
      if j + |pat| <= |s| {
        assert s[1..][j - 1..j - 1 + |pat|] == s[j..j + |pat|];
      }
    }
  }

  /** Index of the first occurrence of `pat` in `s`, if any. */
  function IndexOf(s: string, pat: string): (r: Option<nat>)
    ensures r.Some? ==> OccursAt(s, pat, r.value)
    ensures r.Some? ==> forall j :: j < r.value ==> !OccursAt(s, pat, j)
    ensures r.None? ==> forall j :: !OccursAt(s, pat, j)
    decreases |s|
  {
    if |s| < |pat| then None
    else if pat <= s then
      assert s[0..|pat|] == pat;
      Some(0)
    else
      OccursShift(s, pat);
      assert !OccursAt(s, pat, 0);
      match IndexOf(s[1..], pat)
      case None => None
      case Some(k) => Some(k + 1)
  }

  /** `String.Contains`. */
  function Contains(s: string, pat: string): (b: bool)
    ensures b <==> exists j :: OccursAt(s, pat, j)
  {
    IndexOf(s, pat).Some?
  }

  /** The pieces of `s` between the non-overlapping occurrences of `sep`,
      found left to right. */
  function Split(s: string, sep: string): (parts: seq<string>)
    requires |sep| > 0
    ensures |parts| >= 1
    decreases |s|
  {
    match IndexOf(s, sep)
    case None => [s]
    case Some(i) => [s[..i]] + Split(s[i + |sep|..], sep)
  }

  /** Every occurrence of `pat`, found left to right without overlap, replaced
      by `rep`. */
  function Replace(s: string, pat: string, rep: string): string
    requires |pat| > 0
    decreases |s|
  {
    if |s| < |pat| then s
    else if pat <= s then rep + Replace(s[|pat|..], pat, rep)
    else [s[0]] + Replace(s[1..], pat, rep)
  }

  /** `String.Join`. */
  function Join(parts: seq<string>, sep: string): string {
    if |parts| == 0 then ""
    else if |parts| == 1 then parts[0]
    else parts[0] + sep + Join(parts[1..], sep)
  }

  /** `Char.IsWhiteSpace`: the Unicode space separators, line and paragraph
      separators, and U+0009 to U+000D, U+0085, U+00A0. */
  predicate IsWhiteSpace(c: char) {
    ('\t' <= c <= '\r') || c == ' ' || c == '\U{0085}' || c == '\U{00A0}'
    || c == '\U{1680}' || ('\U{2000}' <= c <= '\U{200A}') || c == '\U{2028}'
    || c == '\U{2029}' || c == '\U{202F}' || c == '\U{205F}' || c == '\U{3000}'
  }

  function TrimStart(s: string): (r: string)
    ensures |r| <= |s| && r == s[|s| - |r|..]
    ensures forall i :: 0 <= i < |s| - |r| ==> IsWhiteSpace(s[i])
    ensures r == [] || !IsWhiteSpace(r[0])
  {
    if |s| > 0 && IsWhiteSpace(s[0]) then TrimStart(s[1..]) else s
  }

  function TrimEnd(s: string): (r: string)
    ensures |r| <= |s| && r == s[..|r|]
    ensures forall i :: |r| <= i < |s| ==> IsWhiteSpace(s[i])
    ensures r == [] || !IsWhiteSpace(r[|r| - 1])
  {
    if |s| > 0 && IsWhiteSpace(s[|s| - 1]) then TrimEnd(s[..|s| - 1]) else s
  }

  /** `String.Trim()`. */
  function Trim(s: string): string {
    TrimEnd(TrimStart(s))
  }

  /** A trimmed string is a run of the original with no white space at
      either end; so it holds no character the original does not. */
  lemma {:induction false} TrimFacts(s: string, c: char)
    ensures var t := Trim(s);
      && (t == [] || (!IsWhiteSpace(t[0]) && !IsWhiteSpace(t[|t| - 1])))
      && (c !in s ==> c !in t)
  {
    var front := TrimStart(s);
    var t := Trim(s);
    assert t == front[..|t|];
    if t != [] {
      assert t[0] == front[0];
    }
    if c !in s {
      forall k | 0 <= k < |t| ensures t[k] != c {
        assert t[k] == front[k] == s[|s| - |front| + k];
      }
    }
  }

  /** The first occurrence of a one-character separator is the first index
      holding that character. */
  lemma {:induction false} IndexOfChar(s: string, c: char, i: nat)
    requires i < |s| && s[i] == c
    requires forall j :: 0 <= j < i ==> s[j] != c
    ensures IndexOf(s, [c]) == Some(i)
  {
    assert OccursAt(s, [c], i);
    var r := IndexOf(s, [c]);
    CharAt(s, [c], r.value, 0);
  }

  lemma {:induction false} NoIndexOfChar(s: string, c: char)
    requires c !in s
    ensures IndexOf(s, [c]) == None
  {
    var r := IndexOf(s, [c]);
    if r.Some? {
      CharAt(s, [c], r.value, 0);
      assert false;
    }
  }

  /** The first piece of a split is the text before the first separator, and
      there is a second piece exactly when the separator occurs. */
  lemma {:induction false} SplitFirst(s: string, sep: string)
    requires |sep| > 0
    ensures |Split(s, sep)| >= 2 <==> IndexOf(s, sep).Some?
    ensures IndexOf(s, sep).Some? ==> Split(s, sep)[0] == s[..IndexOf(s, sep).value]
    ensures IndexOf(s, sep).None? ==> Split(s, sep) == [s]
  {
    match IndexOf(s, sep)
    case None =>
    case Some(i) =>
      assert |Split(s[i + |sep|..], sep)| >= 1;
  }

  /** The index of the first `c` in `s`, or `|s|` when there is none. */
  function FirstIndexOf(s: string, c: char): (k: nat)
    ensures k <= |s|
    ensures forall j :: 0 <= j < k ==> s[j] != c
    ensures k < |s| ==> s[k] == c
    decreases |s|
  {
    if s == [] then 0
    else if s[0] == c then 0
    else 1 + FirstIndexOf(s[1..], c)
  }

  /** The first piece of a split on one character is the text before its
      first occurrence. */
  lemma {:induction false} SplitFirstChar(s: string, c: char)
    ensures Split(s, [c])[0] == s[..FirstIndexOf(s, c)]
  {
    var k := FirstIndexOf(s, c);
    SplitFirst(s, [c]);
    if k < |s| {
      IndexOfChar(s, c, k);
    } else {
      NoIndexOfChar(s, c);
      assert s[..k] == s;
    }
  }

  /** Splitting on a one-character separator undoes `Join` when no part holds
      that character. */
  lemma {:induction false} SplitJoin(parts: seq<string>, c: char)
    requires |parts| >= 1
    requires forall k :: 0 <= k < |parts| ==> c !in parts[k]
    ensures Split(Join(parts, [c]), [c]) == parts
    decreases |parts|
  {
    if |parts| == 1 {
      NoIndexOfChar(parts[0], c);
    } else {
      var p := parts[0];
      var rest := Join(parts[1..], [c]);
      var s := p + [c] + rest;
      assert Join(parts, [c]) == s;
      assert s[|p|] == c;
      forall j | 0 <= j < |p| ensures s[j] != c {
        assert s[j] == p[j];
      }
      IndexOfChar(s, c, |p|);
      assert s[..|p|] == p;
      assert s[|p| + 1..] == rest;
      SplitJoin(parts[1..], c);
      assert parts == [p] + parts[1..];
    }
  }

  lemma {:induction false} CharAt(s: string, pat: string, i: int, k: int)
    requires OccursAt(s, pat, i) && 0 <= k < |pat|
    ensures s[i + k] == pat[k]
  {
    assert s[i..i + |pat|][k] == s[i + k];
  }

  /** An occurrence of `pat` in `a + [c] + b`, where `c` is not a character
      of `pat`, lies wholly inside `a` or wholly inside `b`. */
  lemma {:induction false} NotAcross(a: string, c: char, b: string, pat: string, i: int)
    requires c !in pat && |pat| > 0
    requires OccursAt(a + [c] + b, pat, i)
    ensures OccursAt(a, pat, i) || OccursAt(b, pat, i - |a| - 1)
  {
    var s := a + [c] + b;
    if i <= |a| && |a| < i + |pat| {
      CharAt(s, pat, i, |a| - i);
      assert false;
    } else if i + |pat| <= |a| {
      assert s[i..i + |pat|] == a[i..i + |pat|];
    } else {
      assert s[i..i + |pat|] == b[i - |a| - 1..i - |a| - 1 + |pat|];
    }
  }

  /** Replacing `pat` by nothing in `x + pat` gives `x` back when no
      occurrence of `pat` begins inside `x`. */
  lemma {:induction false} ReplaceDropsTrailing(x: string, pat: string)
    requires |pat| > 0
    requires forall i :: 0 <= i < |x| ==> !OccursAt(x + pat, pat, i)
    ensures Replace(x + pat, pat, "") == x
    decreases |x|
  {
    var s := x + pat;
    if |x| == 0 {
      assert s == pat;
      assert s[|pat|..] == [];
    } else {
      assert !OccursAt(s, pat, 0);
      assert s[1..] == x[1..] + pat;
      OccursShift(s, pat);
      forall i | 0 <= i < |x| - 1 ensures !OccursAt(x[1..] + pat, pat, i) {
        assert !OccursAt(s, pat, i + 1);
      }
      ReplaceDropsTrailing(x[1..], pat);
      assert [s[0]] + x[1..] == x;
    }
  }
}
