/**
 * The few pieces of Python's `str` behaviour that the generator relies on:
 * `str.isspace` and `str.strip()`, the `in` substring test, `str.split(sep)`
 * and its inverse `sep.join(parts)`.
 */
module Strings {
  import opened Wrappers

  /** Python's `str.isspace` on one character (the Unicode white-space characters). */
  predicate IsSpace(c: char) {
    var n := c as int;
    || 0x09 <= n <= 0x0D
    || 0x1C <= n <= 0x20
    || n == 0x85 || n == 0xA0 || n == 0x1680
    || 0x2000 <= n <= 0x200A
    || n == 0x2028 || n == 0x2029 || n == 0x202F || n == 0x205F || n == 0x3000
  }

  predicate AllSpace(s: string) {
    forall k :: 0 <= k < |s| ==> IsSpace(s[k])
  }

  /** Neither end of `s` is white space. */
  predicate Trimmed(s: string) {
    s == [] || (!IsSpace(s[0]) && !IsSpace(s[|s| - 1]))
  }

  /** `r` sits at offset `i` of `s` with only white space around it. */
  ghost predicate PaddedAt(s: string, r: string, i: int) {
    0 <= i <= |s| - |r| && s[i..i + |r|] == r && AllSpace(s[..i]) && AllSpace(s[i + |r|..])
  }

  /** Length of the white-space run at the start of `s`. */
  function LeadingSpace(s: string): (n: nat)
    ensures n <= |s| && AllSpace(s[..n])
    ensures n < |s| ==> !IsSpace(s[n])
  {
    if s == [] || !IsSpace(s[0]) then 0 else 1 + LeadingSpace(s[1..])
  }

  /** Length of the white-space run at the end of `s`. */
  function TrailingSpace(s: string): (n: nat)
    ensures n <= |s| && AllSpace(s[|s| - n..])
    ensures n < |s| ==> !IsSpace(s[|s| - n - 1])
  {
    if s == [] || !IsSpace(s[|s| - 1]) then 0 else 1 + TrailingSpace(s[..|s| - 1])
  }

  /** Python's `s.strip()`: drop white space at both ends. */
  function Strip(s: string): (r: string)
    ensures Trimmed(r)
    ensures exists i :: PaddedAt(s, r, i)
  {
    var lead := LeadingSpace(s);
    var t := s[lead..];
    var trail := TrailingSpace(t);
    var r := t[..|t| - trail];
    assert r == s[lead..lead + |r|];
    assert s[lead + |r|..] == t[|t| - trail..];
    assert PaddedAt(s, r, lead);
    r
  }

  lemma {:induction false} LeadingSpaceAfterPadding(a: string, t: string)
    requires AllSpace(a)
    ensures LeadingSpace(a + t) == |a| + LeadingSpace(t)
    decreases |a|
  {
    if a == [] {
      assert a + t == t;
    } else {
      assert (a + t)[0] == a[0];
      assert (a + t)[1..] == a[1..] + t;
      LeadingSpaceAfterPadding(a[1..], t);
    }
  }

  lemma {:induction false} TrailingSpaceBeforePadding(t: string, b: string)
    requires AllSpace(b)
    ensures TrailingSpace(t + b) == TrailingSpace(t) + |b|
    decreases |b|
  {
    if b == [] {
      assert t + b == t;
    } else {
      assert (t + b)[|t + b| - 1] == b[|b| - 1];
      assert (t + b)[..|t + b| - 1] == t + b[..|b| - 1];
      TrailingSpaceBeforePadding(t, b[..|b| - 1]);
    }
  }

  /**
   * Strip is exactly "the text between the white-space padding": whatever
   * trimmed text is surrounded by white space, Strip gives it back.
   */
  lemma StripPadded(a: string, r: string, b: string)
    requires AllSpace(a) && AllSpace(b) && Trimmed(r)
    ensures Strip(a + r + b) == r
  {
    var s := a + r + b;
    if r == [] {
      assert s == a + b;
      assert AllSpace(s);
      LeadingSpaceAfterPadding(s, []);
      assert s + [] == s;
    } else {
      assert s == a + (r + b);
      LeadingSpaceAfterPadding(a, r + b);
      assert LeadingSpace(s) == |a|;
      var t := s[|a|..];
      assert t == r + b;
      TrailingSpaceBeforePadding(r, b);
      assert t[..|t| - |b|] == r;
    }
  }

  /** Stripping twice is stripping once. */
  lemma StripIdempotent(s: string)
    ensures Strip(Strip(s)) == Strip(s)
  {
    var r := Strip(s);
    assert [] + r + [] == r;
    StripPadded([], r, []);
  }

  /** `sub` occurs in `s` starting at index `i`. */
  predicate OccursAt(s: string, sub: string, i: int) {
    0 <= i <= |s| - |sub| && s[i..i + |sub|] == sub
  }

  /** The first index at or after `from` where `sub` occurs in `s`. */
  function IndexFrom(s: string, sub: string, from: nat): (r: Option<nat>)
    ensures r.Some? ==> from <= r.value && OccursAt(s, sub, r.value)
    ensures r.Some? ==> forall j :: from <= j < r.value ==> !OccursAt(s, sub, j)
    ensures r.None? ==> forall j :: from <= j ==> !OccursAt(s, sub, j)
    decreases |s| - from
  {
    if from + |sub| > |s| then None
    else if s[from..from + |sub|] == sub then Some(from)
    else IndexFrom(s, sub, from + 1)
  }

  /** Python's `s.find(sub)`, with None for -1. */
  function IndexOf(s: string, sub: string): (r: Option<nat>)
    ensures r.Some? ==> OccursAt(s, sub, r.value) && forall j :: 0 <= j < r.value ==> !OccursAt(s, sub, j)
    ensures r.None? ==> forall j :: !OccursAt(s, sub, j)
  {
    IndexFrom(s, sub, 0)
  }

  /** Python's `sub in s`. */
  function Contains(s: string, sub: string): (b: bool)
    ensures b <==> exists i :: OccursAt(s, sub, i)
  {
    IndexOf(s, sub).Some?
  }

  lemma OccursInPrefix(s: string, sub: string, n: nat, j: int)
    requires n <= |s| && OccursAt(s[..n], sub, j)
    ensures OccursAt(s, sub, j)
  {
    assert s[..n][j..j + |sub|] == s[j..j + |sub|];
  }

  lemma OccursInSuffix(s: string, sub: string, n: nat, j: int)
    requires n <= |s| && OccursAt(s[n..], sub, j)
    ensures OccursAt(s, sub, n + j)
  {
    assert s[n..][j..j + |sub|] == s[n + j..n + j + |sub|];
  }

  lemma OccursShifted(a: string, s: string, sub: string, j: int)
    requires OccursAt(s, sub, j)
    ensures OccursAt(a + s, sub, |a| + j)
  {
    assert (a + s)[|a| + j..|a| + j + |sub|] == s[j..j + |sub|];
  }

  lemma OccursInside(a: string, s: string, b: string, sub: string, j: int)
    requires OccursAt(a + s + b, sub, j) && |a| <= j && j + |sub| <= |a| + |s|
    ensures OccursAt(s, sub, j - |a|)
  {
    assert (a + s + b)[j..j + |sub|] == s[j - |a|..j - |a| + |sub|];
  }

  /** Text found in a piece is found in any string that piece sits in. */
  lemma ContainsInMiddle(x: string, y: string, z: string, sub: string)
    requires Contains(y, sub)
    ensures Contains(x + y + z, sub)
  {
    var i :| OccursAt(y, sub, i);
    OccursShifted(x, y, sub, i);
    assert (x + y + z)[..|x + y|] == x + y;
    OccursInPrefix(x + y + z, sub, |x + y|, |x| + i);
  }

  /** Text found in `s` is still found once more text follows `s`. */
  lemma ContainsExtended(s: string, t: string, sub: string)
    requires Contains(s, sub)
    ensures Contains(s + t, sub)
  {
    var i :| OccursAt(s, sub, i);
    assert (s + t)[..|s|] == s;
    OccursInPrefix(s + t, sub, |s|, i);
  }

  /** Text inside text inside `s` is inside `s`. */
  lemma ContainsTransitive(s: string, mid: string, sub: string)
    requires Contains(s, mid) && Contains(mid, sub)
    ensures Contains(s, sub)
  {
    var i :| OccursAt(s, mid, i);
    var j :| OccursAt(mid, sub, j);
    forall k | 0 <= k < |sub| ensures s[i + j + k] == sub[k] {
      assert s[i..i + |mid|][j + k] == s[i + j + k];
      assert mid[j..j + |sub|][k] == mid[j + k];
    }
    assert s[i + j..i + j + |sub|] == sub;
    assert OccursAt(s, sub, i + j);
  }

  /** Python's `sep.join(parts)`. */
  function Join(parts: seq<string>, sep: string): string
    requires |parts| >= 1
  {
    if |parts| == 1 then parts[0] else parts[0] + sep + Join(parts[1..], sep)
  }

  /** Python's `s.split(sep)` for a non-empty separator. */
  function Split(s: string, sep: string): (parts: seq<string>)
    requires sep != []
    ensures |parts| >= 1
    ensures forall k :: 0 <= k < |parts| ==> !Contains(parts[k], sep)
    ensures Join(parts, sep) == s
    ensures |parts| == 1 <==> !Contains(s, sep)
    ensures |parts| > 1 ==> IndexOf(s, sep) == Some(|parts[0]|)
    decreases |s|
  {
    match IndexOf(s, sep)
    case None => [s]
    case Some(i) =>
      var rest := Split(s[i + |sep|..], sep);
      SplitStep(s, sep, i, rest);
      [s[..i]] + rest
  }

  /** One step of Split: the text before the first separator, then the split remainder. */
  lemma SplitStep(s: string, sep: string, i: nat, rest: seq<string>)
    requires sep != [] && IndexOf(s, sep) == Some(i)
    requires |rest| >= 1 && Join(rest, sep) == s[i + |sep|..]
    requires forall k :: 0 <= k < |rest| ==> !Contains(rest[k], sep)
    ensures var parts := [s[..i]] + rest;
      && |parts| >= 2
      && (forall k :: 0 <= k < |parts| ==> !Contains(parts[k], sep))
      && Join(parts, sep) == s
  {
    var parts := [s[..i]] + rest;
    NothingBeforeFirst(s, sep, i);
    forall k | 0 <= k < |parts| ensures !Contains(parts[k], sep) {
      if k > 0 {
        assert parts[k] == rest[k - 1];
      }
    }
    JoinCons(s[..i], rest, sep);
    AroundOccurrence(s, sep, i);
  }

  lemma JoinCons(first: string, rest: seq<string>, sep: string)
    requires |rest| >= 1
    ensures Join([first] + rest, sep) == first + sep + Join(rest, sep)
  {
    assert ([first] + rest)[1..] == rest;
  }

  lemma AroundOccurrence(s: string, sep: string, i: nat)
    requires OccursAt(s, sep, i)
    ensures s == s[..i] + sep + s[i + |sep|..]
  {
    assert s == s[..i] + s[i..i + |sep|] + s[i + |sep|..];
  }

  lemma NothingBeforeFirst(s: string, sep: string, i: nat)
    requires sep != [] && IndexOf(s, sep) == Some(i)
    ensures !Contains(s[..i], sep)
  {
    forall j | OccursAt(s[..i], sep, j) ensures false {
      OccursInPrefix(s, sep, i, j);
    }
  }
}
