/**
 * The Python built-ins the core relies on, on `string` (a sequence of code points)
 * and on lists (sequences): `sep.join(parts)`, `list.insert(i, x)`, `str.strip()`,
 * and the first and last position of a character.
 */
module Strings {
  import opened Wrappers

  predicate StartsWith(s: string, prefix: string) {
    |prefix| <= |s| && s[..|prefix|] == prefix
  }

  predicate EndsWith(s: string, suffix: string) {
    |suffix| <= |s| && s[|s| - |suffix|..] == suffix
  }

  lemma EndsWithConcat(a: string, b: string, suffix: string)
    requires EndsWith(b, suffix)
    ensures EndsWith(a + b, suffix)
  {
    assert (a + b)[|a + b| - |suffix|..] == b[|b| - |suffix|..];
  }

  // ---------------------------------------------------------------- sep.join

  /** `sep.join(parts)`: the parts in order, with `sep` between each two neighbours. */
  function Join(parts: seq<string>, sep: string): string {
    if |parts| == 0 then ""
    else if |parts| == 1 then parts[0]
    else parts[0] + sep + Join(parts[1..], sep)
  }

  /** Joining a concatenation is joining each half and putting one separator between them. */
  lemma {:induction false} JoinConcat(a: seq<string>, b: seq<string>, sep: string)
    requires |a| > 0 && |b| > 0
    ensures Join(a + b, sep) == Join(a, sep) + sep + Join(b, sep)
  {
    if |a| == 1 {
      assert (a + b)[1..] == b;
    } else {
      assert (a + b)[1..] == a[1..] + b;
      JoinConcat(a[1..], b, sep);
    }
  }

  /** A join of two or more parts begins with the first part and a separator. */
  lemma JoinStartsWith(first: string, rest: seq<string>, sep: string)
    requires |rest| > 0
    ensures StartsWith(Join([first] + rest, sep), first + sep)
  {
    assert ([first] + rest)[1..] == rest;
  }

  /** Joining two more parts onto a join appends a separator and each of them. */
  lemma JoinLastTwo(init: seq<string>, a: string, b: string, sep: string)
    requires |init| > 0
    ensures Join(init + [a, b], sep) == Join(init, sep) + (sep + a + sep + b)
  {
    JoinConcat(init, [a, b], sep);
    assert [a, b][1..] == [b];
    ConcatRegroup(Join(init, sep), sep, a, b);
  }

  lemma ConcatRegroup(x: string, sep: string, a: string, b: string)
    ensures x + sep + (a + sep + b) == x + (sep + a + sep + b)
  {
  }

  /** A join of at least three parts ends with the last two parts, each after a separator. */
  lemma JoinEndsWith(init: seq<string>, a: string, b: string, sep: string)
    requires |init| > 0
    ensures EndsWith(Join(init + [a, b], sep), sep + a + sep + b)
  {
    JoinLastTwo(init, a, b, sep);
    EndsWithConcat(Join(init, sep), sep + a + sep + b, sep + a + sep + b);
  }

  // ---------------------------------------------------------------- list.insert

  /**
   * `list.insert(i, x)` for a non-negative `i`: `x` goes before position `i`,
   * or at the end when `i` is past the end.
   */
  function Insert<T>(s: seq<T>, i: nat, x: T): (r: seq<T>)
    ensures |r| == |s| + 1
    ensures i <= |s| ==> r[i] == x && r[..i] == s[..i] && r[i + 1..] == s[i..]
    ensures i > |s| ==> r == s + [x]
  {
    if i <= |s| then s[..i] + [x] + s[i..] else s + [x]
  }

  // ---------------------------------------------------------------- str.strip

  /** The characters Python's `str.isspace` accepts, which `str.strip()` removes. */
  predicate IsSpace(c: char) {
    ('\U{9}' <= c <= '\U{D}') || ('\U{1C}' <= c <= '\U{20}') ||
    c == '\U{85}' || c == '\U{A0}' || c == '\U{1680}' ||
    ('\U{2000}' <= c <= '\U{200A}') || c == '\U{2028}' || c == '\U{2029}' ||
    c == '\U{202F}' || c == '\U{205F}' || c == '\U{3000}'
  }

  predicate AllSpace(s: string) {
    forall k :: 0 <= k < |s| ==> IsSpace(s[k])
  }

  /** The number of whitespace characters at the front of `s`. */
  function LeadingSpace(s: string): (n: nat)
    ensures n <= |s| && AllSpace(s[..n])
    ensures n < |s| ==> !IsSpace(s[n])
  {
    if |s| == 0 || !IsSpace(s[0]) then 0
    else
      var m := LeadingSpace(s[1..]);
      assert forall k :: 1 <= k < m + 1 ==> s[k] == s[1..][k - 1];
      m + 1
  }

  /** The number of whitespace characters at the back of `s`. */
  function TrailingSpace(s: string): (n: nat)
    ensures n <= |s| && AllSpace(s[|s| - n..])
    ensures n < |s| ==> !IsSpace(s[|s| - 1 - n])
  {
    if |s| == 0 || !IsSpace(s[|s| - 1]) then 0
    else
      var init := s[..|s| - 1];
      var m := TrailingSpace(init);
      assert forall k :: |s| - 1 - m <= k < |s| - 1 ==> s[k] == init[k];
      m + 1
  }

  /**
   * Cutting `s` at `i` and `j` leaves whitespace outside `s[i..j]`, and a middle
   * that neither begins nor ends with whitespace.
   */
  ghost predicate StripsAt(s: string, i: int, j: int) {
    0 <= i <= j <= |s| && AllSpace(s[..i]) && AllSpace(s[j..]) &&
    (i < j ==> !IsSpace(s[i]) && !IsSpace(s[j - 1]))
  }

  /** `r` is what `s.strip()` returns: `s` with the whitespace around it cut off. */
  ghost predicate IsStripOf(r: string, s: string) {
    exists i, j :: StripsAt(s, i, j) && r == s[i..j]
  }

  /** `s.strip()`. */
  function Strip(s: string): (r: string)
    ensures IsStripOf(r, s)
  {
    var i := LeadingSpace(s);
    if i == |s| then
      assert StripsAt(s, i, i);
      s[i..i]
    else
      var t := TrailingSpace(s);
      assert t < |s| - i;
      assert StripsAt(s, i, |s| - t);
      s[i..|s| - t]
  }

  lemma SpaceBefore(s: string, n: nat, k: nat)
    requires n <= |s| && AllSpace(s[..n]) && k < n
    ensures IsSpace(s[k])
  {
    assert s[k] == s[..n][k];
  }

  lemma SpaceAfter(s: string, n: nat, k: nat)
    requires n <= |s| && AllSpace(s[n..]) && n <= k < |s|
    ensures IsSpace(s[k])
  {
    assert s[k] == s[n..][k - n];
  }

  /** The cut points of a strip are the ones `Strip` computes. */
  lemma StripsAtBounds(s: string, i: int, j: int)
    requires StripsAt(s, i, j)
    ensures i == j ==> LeadingSpace(s) == |s|
    ensures i < j ==> i == LeadingSpace(s) && j == |s| - TrailingSpace(s)
  {
    var n := LeadingSpace(s);
    var t := TrailingSpace(s);
    if i == j {
      forall k | 0 <= k < |s| ensures IsSpace(s[k]) {
        if k < i { SpaceBefore(s, i, k); } else { SpaceAfter(s, j, k); }
      }
    } else {
      forall k | 0 <= k < i ensures IsSpace(s[k]) { SpaceBefore(s, i, k); }
      forall k | 0 <= k < n ensures IsSpace(s[k]) { SpaceBefore(s, n, k); }
      forall k | j <= k < |s| ensures IsSpace(s[k]) { SpaceAfter(s, j, k); }
      forall k | |s| - t <= k < |s| ensures IsSpace(s[k]) { SpaceAfter(s, |s| - t, k); }
    }
  }

  /** `IsStripOf` pins the stripped text down: it can only be what `Strip` returns. */
  lemma StripUnique(r: string, s: string)
    requires IsStripOf(r, s)
    ensures r == Strip(s)
  {
    var i, j :| StripsAt(s, i, j) && r == s[i..j];
    StripsAtBounds(s, i, j);
  }

  /** A string of whitespace only strips to the empty string. */
  lemma StripOfBlank(s: string)
    requires AllSpace(s)
    ensures Strip(s) == ""
  {
    assert s[..0] == "" && s[0..] == s;
    assert StripsAt(s, 0, 0);
    StripUnique(s[0..0], s);
  }

  lemma AllSpaceConcat(a: string, b: string)
    requires AllSpace(a) && AllSpace(b)
    ensures AllSpace(a + b)
  {
    forall k | 0 <= k < |a + b| ensures IsSpace((a + b)[k]) {
      if k < |a| { assert (a + b)[k] == a[k]; } else { assert (a + b)[k] == b[k - |a|]; }
    }
  }

  /** Cut points of `s` shift by the padding's length into cut points of the padded string. */
  lemma StripsAtPadded(pre: string, s: string, post: string, i: int, j: int)
    requires AllSpace(pre) && AllSpace(post) && StripsAt(s, i, j)
    ensures StripsAt(pre + s + post, |pre| + i, |pre| + j)
    ensures (pre + s + post)[|pre| + i..|pre| + j] == s[i..j]
  {
    var u, p := pre + s + post, |pre|;
    assert u[..p + i] == pre + s[..i];
    AllSpaceConcat(pre, s[..i]);
    assert u[p + j..] == s[j..] + post;
    AllSpaceConcat(s[j..], post);
    if i < j { assert u[p + i] == s[i] && u[p + j - 1] == s[j - 1]; }
  }

  /** Whitespace added around a string is stripped off with the rest. */
  lemma StripIgnoresPadding(pre: string, s: string, post: string)
    requires AllSpace(pre) && AllSpace(post)
    ensures Strip(pre + s + post) == Strip(s)
  {
    var r := Strip(s);
    assert IsStripOf(r, s);
    var i, j :| StripsAt(s, i, j) && r == s[i..j];
    StripsAtPadded(pre, s, post, i, j);
    StripUnique(r, pre + s + post);
  }

  // ---------------------------------------------------------------- find / rfind

  /** The first position of `c` in `s`, if any. */
  function FirstIndexOf(s: string, c: char): (r: Option<nat>)
    ensures r.Some? ==> r.value < |s| && s[r.value] == c && forall k :: 0 <= k < r.value ==> s[k] != c
    ensures r.None? ==> forall k :: 0 <= k < |s| ==> s[k] != c
  {
    if |s| == 0 then None
    else if s[0] == c then Some(0)
    else
      match FirstIndexOf(s[1..], c)
      case None =>
        assert forall k :: 1 <= k < |s| ==> s[k] == s[1..][k - 1];
        None
      case Some(i) =>
        assert forall k :: 1 <= k < i + 1 ==> s[k] == s[1..][k - 1];
        Some(i + 1)
  }

  /** The last position of `c` in `s`, if any. */
  function LastIndexOf(s: string, c: char): (r: Option<nat>)
    ensures r.Some? ==> r.value < |s| && s[r.value] == c && forall k :: r.value < k < |s| ==> s[k] != c
    ensures r.None? ==> forall k :: 0 <= k < |s| ==> s[k] != c
  {
    if |s| == 0 then None
    else if s[|s| - 1] == c then Some(|s| - 1)
    else
      var init := s[..|s| - 1];
      var r := LastIndexOf(init, c);
      assert forall k :: 0 <= k < |s| - 1 ==> s[k] == init[k];
      r
  }
}
