/**
 * The JavaScript string operations the watcher and the lookup service rely on:
 * `indexOf`/`includes`, `split(sep)[0]`, the text after the first `sep` (whose
 * `split(sep)[0]` is `split(sep)[1]`), `split(/[...]/)[0]`, `trim` and
 * `toLowerCase`. A `char` is one Unicode scalar value, where
 * JavaScript counts UTF-16 code units.
 */
module Text {
  import opened Wrappers

  /** `sub` occurs in `s` starting at index `i`. */
  predicate OccursAt(s: string, sub: string, i: int) {
    0 <= i && i + |sub| <= |s| && s[i..i + |sub|] == sub
  }

  /** `s.indexOf(sub, from)`, with None for -1: the first occurrence at or after `from`. */
  function IndexOfFrom(s: string, sub: string, from: nat): (r: Option<nat>)
    requires from <= |s|
    ensures r.Some? ==> from <= r.value && OccursAt(s, sub, r.value)
    ensures forall j :: from <= j && (r.None? || j < r.value) ==> !OccursAt(s, sub, j)
    decreases |s| - from
  {
    if OccursAt(s, sub, from) then Some(from)
    else if from == |s| then None
    else IndexOfFrom(s, sub, from + 1)
  }

  /** `s.indexOf(sub)`: the first occurrence of `sub` in `s`. */
  function IndexOf(s: string, sub: string): (r: Option<nat>)
    ensures r.Some? ==> OccursAt(s, sub, r.value)
    ensures r.Some? ==> forall j :: 0 <= j < r.value ==> !OccursAt(s, sub, j)
    ensures r.None? ==> forall j :: !OccursAt(s, sub, j)
  {
    IndexOfFrom(s, sub, 0)
  }

  /** `s.includes(sub)`. */
  predicate Includes(s: string, sub: string)
    ensures Includes(s, sub) <==> exists i :: OccursAt(s, sub, i)
  {
    var r := IndexOf(s, sub);
    assert r.Some? ==> OccursAt(s, sub, r.value);
    r.Some?
  }

  /** No occurrence of `sub` starts before `n` when its `k`-th character is missing from `s[..n + k]`. */
  lemma NoOccurrenceBefore(s: string, sub: string, k: nat, n: nat)
    requires k < |sub| && n + k <= |s|
    requires sub[k] !in s[..n + k]
    ensures forall j :: 0 <= j < n ==> !OccursAt(s, sub, j)
  {
    forall j | 0 <= j < n ensures !OccursAt(s, sub, j) {
      assert s[..n + k][j + k] == s[j + k];
    }
  }

  /** `sub` is not included in `s` when one of its characters is missing from `s`. */
  lemma MissingCharExcludes(s: string, sub: string, k: nat)
    requires k < |sub| && sub[k] !in s
    ensures !Includes(s, sub)
  {
    forall j | 0 <= j && j + |sub| <= |s| ensures !OccursAt(s, sub, j) {
      assert s[j..j + |sub|][k] == s[j + k];
    }
  }

  /** When `mark` first occurs right after `prefix`, the text after it is the rest of `s`. */
  lemma AfterFirstOfPrefix(s: string, prefix: string, mark: string, rest: string)
    requires s == prefix + mark + rest
    requires forall j :: 0 <= j < |prefix| ==> !OccursAt(s, mark, j)
    ensures Includes(s, mark) && AfterFirst(s, mark) == rest
  {
    assert s[|prefix|..|prefix| + |mark|] == mark;
    assert OccursAt(s, mark, |prefix|);
    assert |s| - |AfterFirst(s, mark)| - |mark| == |prefix|;
  }

  /** `s.split(sep)[0]` for a non-empty separator: everything before the first `sep`. */
  function SplitHead(s: string, sep: string): (r: string)
    requires sep != []
    ensures r <= s
    ensures |r| < |s| ==> OccursAt(s, sep, |r|)
    ensures forall j :: 0 <= j < |r| ==> !OccursAt(s, sep, j)
    ensures !Includes(r, sep)
  {
    match IndexOf(s, sep)
    case None => s
    case Some(i) =>
      forall j | OccursAt(s[..i], sep, j) ensures false {
        assert s[..i][j..j + |sep|] == s[j..j + |sep|];
        assert OccursAt(s, sep, j);
      }
      s[..i]
  }

  /** The text after the first occurrence of `sep` in `s`. */
  function AfterFirst(s: string, sep: string): (r: string)
    requires Includes(s, sep)
    ensures |r| + |sep| <= |s| && r == s[|s| - |r|..]
    ensures OccursAt(s, sep, |s| - |r| - |sep|)
    ensures forall j :: 0 <= j < |s| - |r| - |sep| ==> !OccursAt(s, sep, j)
  {
    var i := IndexOf(s, sep).value;
    s[i + |sep|..]
  }

  /** `s.split(/[...]/)[0]`: the longest prefix of `s` holding none of the characters in `stops`. */
  function CutAt(s: string, stops: set<char>): (r: string)
    ensures r <= s
    ensures forall i :: 0 <= i < |r| ==> r[i] !in stops
    ensures |r| < |s| ==> s[|r|] in stops
  {
    if s == [] || s[0] in stops then []
    else [s[0]] + CutAt(s[1..], stops)
  }

  /** The three facts in CutAt's contract determine its result. */
  lemma CutAtUnique(s: string, stops: set<char>, p: string)
    requires p <= s
    requires forall i :: 0 <= i < |p| ==> p[i] !in stops
    requires |p| < |s| ==> s[|p|] in stops
    ensures CutAt(s, stops) == p
  {
  }

  /**
   * When the separator starts with a stop character, cutting `s.split(sep)[0]`
   * at the stops gives the same as cutting `s` itself.
   */
  lemma CutAtSplitHead(s: string, sep: string, stops: set<char>)
    requires sep != [] && sep[0] in stops
    ensures CutAt(SplitHead(s, sep), stops) == CutAt(s, stops)
  {
    var h := SplitHead(s, sep);
    var c := CutAt(s, stops);
    if |h| < |s| {
      assert s[|h|] == sep[0];
      assert |c| <= |h|;
      assert c <= h;
      CutAtUnique(h, stops, c);
    }
  }

  /** The characters ECMAScript's `trim` removes: WhiteSpace and LineTerminator. */
  predicate IsJsWhitespace(c: char) {
    || c == '\t' || c == '\n' || c == '\U{000B}' || c == '\U{000C}' || c == '\r'
    || c == ' ' || c == '\U{00A0}' || c == '\U{1680}' || ('\U{2000}' <= c <= '\U{200A}')
    || c == '\U{2028}' || c == '\U{2029}' || c == '\U{202F}' || c == '\U{205F}'
    || c == '\U{3000}' || c == '\U{FEFF}'
  }

  /** `s.trimStart()`. */
  function TrimStart(s: string): (r: string)
    ensures |r| <= |s| && r == s[|s| - |r|..]
    ensures forall i :: 0 <= i < |s| - |r| ==> IsJsWhitespace(s[i])
    ensures r == [] || !IsJsWhitespace(r[0])
  {
    if s != [] && IsJsWhitespace(s[0]) then TrimStart(s[1..]) else s
  }

  /** `s.trimEnd()`. */
  function TrimEnd(s: string): (r: string)
    ensures r <= s
    ensures forall i :: |r| <= i < |s| ==> IsJsWhitespace(s[i])
    ensures r == [] || !IsJsWhitespace(r[|r| - 1])
  {
    if s != [] && IsJsWhitespace(s[|s| - 1]) then TrimEnd(s[..|s| - 1]) else s
  }

  /** `r` is the piece of `s` at index `i`, with only whitespace around it. */
  predicate TrimmedAt(s: string, r: string, i: int) {
    && OccursAt(s, r, i)
    && (forall k :: 0 <= k < i ==> IsJsWhitespace(s[k]))
    && (forall k :: i + |r| <= k < |s| ==> IsJsWhitespace(s[k]))
  }

  /** `s.trim()`: `s` without its leading and trailing whitespace. */
  function Trim(s: string): (r: string)
    ensures exists i :: TrimmedAt(s, r, i)
    ensures r == [] || (!IsJsWhitespace(r[0]) && !IsJsWhitespace(r[|r| - 1]))
  {
    TrimBothEnds(s);
    TrimEnd(TrimStart(s))
  }

  /** Trimming the end after the start leaves a piece of `s` with only whitespace around it. */
  lemma TrimBothEnds(s: string)
    ensures TrimmedAt(s, TrimEnd(TrimStart(s)), |s| - |TrimStart(s)|)
  {
    var t := TrimStart(s);
    var r := TrimEnd(t);
    var i := |s| - |t|;
    assert t == s[i..];
    assert forall k :: 0 <= k < i ==> IsJsWhitespace(s[k]);
    TrimEndInSuffix(s, t, r, i);
  }

  /** A trimmed end of the suffix `t` of `s` sits in `s` with only whitespace after it. */
  lemma TrimEndInSuffix(s: string, t: string, r: string, i: nat)
    requires i <= |s| && t == s[i..] && r <= t
    requires forall k :: |r| <= k < |t| ==> IsJsWhitespace(t[k])
    ensures OccursAt(s, r, i)
    ensures forall k :: i + |r| <= k < |s| ==> IsJsWhitespace(s[k])
  {
    assert s[i..i + |r|] == t[..|r|];
    forall k | i + |r| <= k < |s| ensures IsJsWhitespace(s[k]) {
      assert s[k] == t[k - i];
    }
  }

  /** Two pieces of `s` with only whitespace around them and none at their ends are the same. */
  lemma TrimmedAtUnique(s: string, a: string, i: int, b: string, j: int)
    requires TrimmedAt(s, a, i) && a != [] && !IsJsWhitespace(a[0]) && !IsJsWhitespace(a[|a| - 1])
    requires TrimmedAt(s, b, j) && b != [] && !IsJsWhitespace(b[0]) && !IsJsWhitespace(b[|b| - 1])
    ensures a == b
  {
    assert s[i] == a[0] && s[j] == b[0];
    assert i == j;
    assert s[i + |a| - 1] == a[|a| - 1] && s[j + |b| - 1] == b[|b| - 1];
    assert |a| == |b|;
  }

  /** Every character of `s` is one `trim` removes. */
  predicate AllWhitespace(s: string) {
    forall k :: 0 <= k < |s| ==> IsJsWhitespace(s[k])
  }

  /** `trim` gives the empty string exactly when there is nothing but whitespace. */
  lemma TrimEmptyIffAllWhitespace(s: string)
    ensures Trim(s) == [] <==> AllWhitespace(s)
  {
    var r := Trim(s);
    var i :| TrimmedAt(s, r, i);
    if r != [] {
      assert s[i] == r[0];
    }
  }

  /** Whitespace, then a piece with no whitespace at its ends, then whitespace: `trim` gives the piece. */
  lemma TrimOfPadded(pre: string, core: string, post: string)
    requires AllWhitespace(pre) && AllWhitespace(post)
    requires core != [] && !IsJsWhitespace(core[0]) && !IsJsWhitespace(core[|core| - 1])
    ensures Trim(pre + core + post) == core
  {
    var s := pre + core + post;
    PaddedIsTrimmedAt(pre, core, post);
    TrimUnique(s, core, |pre|);
  }

  /** In `pre + core + post`, `core` sits at `|pre|` with only whitespace around it. */
  lemma PaddedIsTrimmedAt(pre: string, core: string, post: string)
    requires AllWhitespace(pre) && AllWhitespace(post)
    ensures TrimmedAt(pre + core + post, core, |pre|)
  {
    var s := pre + core + post;
    assert s[|pre|..|pre| + |core|] == core;
    forall k | |pre| + |core| <= k < |s| ensures IsJsWhitespace(s[k]) {
      assert s[k] == post[k - |pre| - |core|];
    }
  }

  /** A piece of `s` with only whitespace around it and none at its ends is `trim`'s result. */
  lemma TrimUnique(s: string, core: string, i: int)
    requires TrimmedAt(s, core, i)
    requires core != [] && !IsJsWhitespace(core[0]) && !IsJsWhitespace(core[|core| - 1])
    ensures Trim(s) == core
  {
    assert s[i] == core[0];
    TrimEmptyIffAllWhitespace(s);
    var r := Trim(s);
    var j :| TrimmedAt(s, r, j);
    TrimmedAtUnique(s, r, j, core, i);
  }

  /** `toLowerCase` on one character, for the ASCII letters. */
  function LowerChar(c: char): char {
    if 'A' <= c <= 'Z' then (c as int - 'A' as int + 'a' as int) as char else c
  }

  /** `s.toLowerCase()`, restricted to ASCII letters. */
  function ToLower(s: string): (r: string)
    ensures |r| == |s|
    ensures forall i :: 0 <= i < |s| ==> r[i] == LowerChar(s[i])
  {
    seq(|s|, i requires 0 <= i < |s| => LowerChar(s[i]))
  }

  /** Lowering twice is lowering once. */
  lemma ToLowerIdempotent(s: string)
    ensures ToLower(ToLower(s)) == ToLower(s)
  {
  }
}
