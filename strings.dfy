/** The few `str` operations of the Rust standard library that the core relies on. */
module Strings {
  import opened Wrappers

  /** `char::is_whitespace`: the Unicode White_Space property. */
  predicate IsWhitespace(c: char) {
    || ('\t' <= c <= '\r')
    || c == ' '
    || c == '\U{0085}'
    || c == '\U{00A0}'
    || c == '\U{1680}'
    || ('\U{2000}' <= c <= '\U{200A}')
    || c == '\U{2028}'
    || c == '\U{2029}'
    || c == '\U{202F}'
    || c == '\U{205F}'
    || c == '\U{3000}'
  }

  predicate AllWhitespace(s: string) {
    forall k :: 0 <= k < |s| ==> IsWhitespace(s[k])
  }

  /** The number of whitespace characters that `s` starts with. */
  function LeadingWhitespace(s: string): (n: nat)
    ensures n <= |s|
    ensures forall k :: 0 <= k < n ==> IsWhitespace(s[k])
    ensures n < |s| ==> !IsWhitespace(s[n])
  {
    if s == [] || !IsWhitespace(s[0]) then 0
    else
      var m := LeadingWhitespace(s[1..]);
      assert forall k :: 1 <= k < 1 + m ==> s[k] == s[1..][k - 1];
      1 + m
  }

  /** The number of whitespace characters that `s` ends with. */
  function TrailingWhitespace(s: string): (n: nat)
    ensures n <= |s|
    ensures forall k :: |s| - n <= k < |s| ==> IsWhitespace(s[k])
    ensures n < |s| ==> !IsWhitespace(s[|s| - n - 1])
  {
    if s == [] || !IsWhitespace(s[|s| - 1]) then 0
    else
      var m := TrailingWhitespace(s[..|s| - 1]);
      assert forall k :: |s| - 1 - m <= k < |s| - 1 ==> s[k] == s[..|s| - 1][k];
      1 + m
  }

  /**
   * `str::trim`: drop leading and trailing whitespace. The result is the infix
   * of `s` between its leading and its trailing whitespace, and it neither
   * starts nor ends with whitespace.
   */
  function Trim(s: string): (r: string)
    ensures var i := LeadingWhitespace(s);
      i + |r| <= |s| && r == s[i..i + |r|]
    ensures r != [] ==> |s| - TrailingWhitespace(s) == LeadingWhitespace(s) + |r|
    ensures r != [] ==> !IsWhitespace(r[0]) && !IsWhitespace(r[|r| - 1])
  {
    var i := LeadingWhitespace(s);
    if i == |s| then []
    else
      var j := |s| - TrailingWhitespace(s);
      assert i < j by {
        assert !IsWhitespace(s[i]);
      }
      s[i..j]
  }

  /** A character that `s` does not contain is not contained in its trimmed form. */
  lemma TrimKeepsAbsentChar(s: string, c: char)
    requires c !in s
    ensures c !in Trim(s)
  {
    var r := Trim(s);
    var i := LeadingWhitespace(s);
    assert forall k :: 0 <= k < |r| ==> r[k] == s[i + k];
  }

  /** A string is trimmed to nothing exactly when it is all whitespace. */
  lemma TrimEmptyIffAllWhitespace(s: string)
    ensures Trim(s) == [] <==> AllWhitespace(s)
  {
    if LeadingWhitespace(s) < |s| {
      assert Trim(s)[0] == s[LeadingWhitespace(s)];
    }
  }

  /** `str::find(c)`: the position of the first occurrence of `c`, if any. */
  function IndexOf(s: string, c: char): (r: Option<nat>)
    ensures r.None? <==> c !in s
    ensures r.Some? ==> r.value < |s| && s[r.value] == c && c !in s[..r.value]
  {
    if s == [] then None
    else if s[0] == c then Some(0)
    else
      match IndexOf(s[1..], c)
      case None => None
      case Some(i) =>
        assert s[..i + 1] == [s[0]] + s[1..][..i];
        Some(i + 1)
  }

  /** `t` is a suffix of `s`. */
  predicate IsSuffixOf(t: string, s: string) {
    |t| <= |s| && s[|s| - |t|..] == t
  }

  /** A suffix of a suffix of `s` is a suffix of `s`. */
  lemma SuffixOfDrop(s: string, k: nat, t: string)
    requires k <= |s| && IsSuffixOf(t, s[k..])
    ensures IsSuffixOf(t, s)
  {
    assert s[|s| - |t|..] == s[k..][|s| - k - |t|..];
  }

  /** The first occurrence of `c` in `s` is also its first occurrence in any extension of `s`. */
  lemma IndexOfAppend(s: string, t: string, c: char)
    requires IndexOf(s, c).Some?
    ensures IndexOf(s + t, c) == IndexOf(s, c)
  {
    var p := IndexOf(s, c).value;
    assert (s + t)[p] == c;
  }

  /** `slice.join(sep)`: the parts with `sep` between neighbours. */
  function Join(parts: seq<string>, sep: string): (r: string)
    ensures parts == [] ==> r == []
    ensures |parts| == 1 ==> r == parts[0]
    ensures |parts| >= 2 ==> |r| >= |sep| * (|parts| - 1)
  {
    if parts == [] then []
    else if |parts| == 1 then parts[0]
    else Join(parts[..|parts| - 1], sep) + sep + parts[|parts| - 1]
  }

  /** Joining with a one-character separator gives nothing only for no parts or one empty part. */
  lemma JoinEmptyIff(parts: seq<string>, sep: string)
    requires |sep| == 1
    ensures Join(parts, sep) == [] <==> parts == [] || parts == [""]
  {
    if |parts| >= 2 {
      assert |Join(parts, sep)| >= 1;
    }
  }

  /** `s` occurs in `text` at some position. */
  predicate ContainsAt(text: string, s: string, at: nat) {
    at + |s| <= |text| && text[at..at + |s|] == s
  }

  predicate Contains(text: string, s: string) {
    exists at: nat | at <= |text| :: ContainsAt(text, s, at)
  }

  /** An occurrence in `a` is an occurrence in `a + b`, at the same position. */
  lemma ContainsAtAppendRight(a: string, b: string, s: string, at: nat)
    requires ContainsAt(a, s, at)
    ensures ContainsAt(a + b, s, at)
  {
    assert (a + b)[at..at + |s|] == a[at..at + |s|];
  }

  /** An occurrence in `b` is an occurrence in `a + b`, shifted by `|a|`. */
  lemma ContainsAtAppendLeft(a: string, b: string, s: string, at: nat)
    requires ContainsAt(b, s, at)
    ensures ContainsAt(a + b, s, |a| + at)
  {
    assert (a + b)[|a| + at..|a| + at + |s|] == b[at..at + |s|];
  }

  /** `s` occurs at the start of `s + c`. */
  lemma ContainsAtStart(s: string, c: string)
    ensures ContainsAt(s + c, s, 0)
  {
    assert (s + c)[..|s|] == s;
  }

  /** `b` occurs at the end of `a + b`. */
  lemma SuffixAt(a: string, b: string)
    ensures ContainsAt(a + b, b, |a|)
  {
    assert (a + b)[|a|..|a| + |b|] == b;
  }

  /** An occurrence inside an occurrence: positions add up. */
  lemma ContainsAtTrans(a: string, b: string, s: string, i: nat, j: nat)
    requires ContainsAt(a, b, j) && ContainsAt(b, s, i)
    ensures ContainsAt(a, s, j + i)
  {
    assert forall k :: 0 <= k < |s| ==> a[j + i + k] == b[i + k] == s[k];
  }

  /** The parts written one after another. */
  function Concat(parts: seq<string>): string {
    if parts == [] then [] else Concat(parts[..|parts| - 1]) + parts[|parts| - 1]
  }

  /** Each further part lengthens the text by its own length. */
  lemma ConcatPrefixLength(parts: seq<string>, i: nat)
    requires i < |parts|
    ensures |Concat(parts[..i + 1])| == |Concat(parts[..i])| + |parts[i]|
  {
    assert parts[..i + 1][..i] == parts[..i];
  }

  /** Every part lies in the text right after the parts before it. */
  lemma {:induction false} ConcatLayout(parts: seq<string>, i: nat)
    requires i < |parts|
    ensures ContainsAt(Concat(parts), parts[i], |Concat(parts[..i])|)
    decreases |parts|
  {
    var init := parts[..|parts| - 1];
    if i == |parts| - 1 {
      assert init == parts[..i];
      SuffixAt(Concat(init), parts[i]);
    } else {
      ConcatLayout(init, i);
      assert init[..i] == parts[..i];
      ContainsAtAppendRight(Concat(init), parts[|parts| - 1], parts[i], |Concat(parts[..i])|);
    }
  }

  /** `s` occurs in `a + s + c` right after `a`. */
  lemma ContainsInMiddle(a: string, s: string, c: string)
    ensures ContainsAt(a + s + c, s, |a|)
  {
    assert (a + s + c)[|a|..|a| + |s|] == s;
  }

  /** ASCII case folding; other characters are kept. */
  function ToLowerAscii(s: string): (r: string)
    ensures |r| == |s|
    ensures forall k :: 0 <= k < |s| ==>
      r[k] == (if 'A' <= s[k] <= 'Z' then (s[k] as int + 32) as char else s[k])
  {
    if s == [] then []
    else [if 'A' <= s[0] <= 'Z' then (s[0] as int + 32) as char else s[0]] + ToLowerAscii(s[1..])
  }
}
