/**
 * The PHP string built-ins the core relies on, on strings as sequences of characters:
 * trim, strtoupper, explode(sep, s, 2)[0], single-character str_replace, implode and the
 * decimal rendering of a non-negative int.
 */
module PhpStrings {

  /** The characters trim() strips when it is given no character list. */
  predicate IsTrimmable(c: char) {
    c == ' ' || c == '\t' || c == '\n' || c == '\r' || c == '\0' || c == '\U{000B}'
  }

  predicate IsLowerAscii(c: char) { 'a' <= c <= 'z' }

  predicate IsUpperAscii(c: char) { 'A' <= c <= 'Z' }

  predicate IsDigit(c: char) { '0' <= c <= '9' }

  /** ltrim(): drops the trimmable characters at the front, and nothing else. */
  function TrimLeft(s: string): (r: string)
    ensures |r| <= |s| && r == s[|s| - |r|..]
    ensures forall k :: 0 <= k < |s| - |r| ==> IsTrimmable(s[k])
    ensures r == [] || !IsTrimmable(r[0])
  {
    if |s| > 0 && IsTrimmable(s[0]) then TrimLeft(s[1..]) else s
  }

  /** rtrim(): drops the trimmable characters at the back, and nothing else. */
  function TrimRight(s: string): (r: string)
    ensures |r| <= |s| && r == s[..|r|]
    ensures forall k :: |r| <= k < |s| ==> IsTrimmable(s[k])
    ensures r == [] || !IsTrimmable(r[|r| - 1])
  {
    if |s| > 0 && IsTrimmable(s[|s| - 1]) then TrimRight(s[..|s| - 1]) else s
  }

  /** trim(): drops the trimmable characters at both ends. */
  function Trim(s: string): (r: string)
    ensures |r| <= |s|
    ensures r == [] || (!IsTrimmable(r[0]) && !IsTrimmable(r[|r| - 1]))
  {
    TrimRight(TrimLeft(s))
  }

  /** r is s[i..i+|r|] and everything of s around that slice is trimmable. */
  ghost predicate IsCoreAt(s: string, r: string, i: int) {
    && 0 <= i <= |s| - |r|
    && r == s[i..i + |r|]
    && (forall k :: 0 <= k < i ==> IsTrimmable(s[k]))
    && (forall k :: i + |r| <= k < |s| ==> IsTrimmable(s[k]))
  }

  /** trim() keeps a contiguous slice and removes only trimmable characters around it. */
  lemma TrimRemovesOnlyPadding(s: string)
    ensures exists i :: IsCoreAt(s, Trim(s), i)
  {
    var left := TrimLeft(s);
    var r := TrimRight(left);
    var i := |s| - |left|;
    assert left == s[i..];
    assert r == left[..|r|];
    assert r == s[i..i + |r|];
    forall k | i + |r| <= k < |s|
      ensures IsTrimmable(s[k])
    {
      assert s[k] == left[k - i];
    }
    assert r == Trim(s);
    assert IsCoreAt(s, Trim(s), i);
  }

  /** strtoupper() on one character: PHP 8 maps only the ASCII letters a-z. */
  function UpperChar(c: char): (u: char)
    ensures !IsLowerAscii(u)
    ensures IsLowerAscii(c) ==> IsUpperAscii(u)
    ensures !IsLowerAscii(c) ==> u == c
    ensures IsLowerAscii(c) ==> u as int == c as int - 32
  {
    if IsLowerAscii(c) then (c as int - 32) as char else c
  }

  /** strtoupper(): same length, no ASCII lower-case letter left, every other character kept. */
  function ToUpper(s: string): (r: string)
    ensures |r| == |s|
    ensures forall i :: 0 <= i < |r| ==> !IsLowerAscii(r[i])
    ensures forall i :: 0 <= i < |s| && !IsLowerAscii(s[i]) ==> r[i] == s[i]
    ensures forall i :: 0 <= i < |s| && IsLowerAscii(s[i]) ==> IsUpperAscii(r[i])
    ensures forall i :: 0 <= i < |s| && IsLowerAscii(s[i]) ==> r[i] as int == s[i] as int - 32
  {
    seq(|s|, i requires 0 <= i < |s| => UpperChar(s[i]))
  }

  /** explode(sep, s, 2)[0]: the longest prefix of s without sep. */
  function SplitBefore(s: string, sep: char): (r: string)
    ensures |r| <= |s| && r == s[..|r|]
    ensures sep !in r
    ensures |r| < |s| ==> s[|r|] == sep
  {
    if |s| == 0 || s[0] == sep then "" else [s[0]] + SplitBefore(s[1..], sep)
  }

  /** str_replace(from, to, s) for single characters: every `from` becomes `to`. */
  function ReplaceChar(s: string, from: char, to: char): (r: string)
    ensures |r| == |s|
    ensures forall i :: 0 <= i < |s| && s[i] != from ==> r[i] == s[i]
    ensures forall i :: 0 <= i < |s| && s[i] == from ==> r[i] == to
  {
    seq(|s|, i requires 0 <= i < |s| => if s[i] == from then to else s[i])
  }

  /** implode(sep, parts). */
  function Join(parts: seq<string>, sep: char): string {
    if |parts| == 0 then ""
    else if |parts| == 1 then parts[0]
    else parts[0] + [sep] + Join(parts[1..], sep)
  }

  function DigitChar(d: int): (c: char)
    requires 0 <= d < 10
    ensures IsDigit(c)
  {
    ('0' as int + d) as char
  }

  /** PHP's decimal rendering of a non-negative int, as in `(string) 42`. */
  function IntToString(n: nat): (r: string)
    ensures |r| > 0
    ensures forall i :: 0 <= i < |r| ==> IsDigit(r[i])
    ensures |r| > 1 ==> r[0] != '0'
  {
    if n < 10 then [DigitChar(n)] else IntToString(n / 10) + [DigitChar(n % 10)]
  }

  /** The number a string of decimal digits denotes. */
  function DecimalValue(s: string): nat
    requires forall i :: 0 <= i < |s| ==> IsDigit(s[i])
  {
    if |s| == 0 then 0
    else
      assert IsDigit(s[|s| - 1]);
      10 * DecimalValue(s[..|s| - 1]) + (s[|s| - 1] as int - '0' as int)
  }

  /** Reading the rendering back gives the number: IntToString is injective. */
  lemma {:induction false} IntToStringRoundTrip(n: nat)
    ensures DecimalValue(IntToString(n)) == n
  {
    if n >= 10 {
      IntToStringRoundTrip(n / 10);
      var r := IntToString(n);
      assert r[..|r| - 1] == IntToString(n / 10);
    }
  }

  lemma UpperCharKeepsTrimmable(c: char)
    ensures IsTrimmable(UpperChar(c)) == IsTrimmable(c)
  {
  }

  lemma {:induction false} TrimLeftUpper(s: string)
    ensures TrimLeft(ToUpper(s)) == ToUpper(TrimLeft(s))
  {
    if |s| > 0 {
      UpperCharKeepsTrimmable(s[0]);
      assert ToUpper(s)[1..] == ToUpper(s[1..]);
      if IsTrimmable(s[0]) {
        TrimLeftUpper(s[1..]);
      }
    }
  }

  lemma {:induction false} TrimRightUpper(s: string)
    ensures TrimRight(ToUpper(s)) == ToUpper(TrimRight(s))
  {
    if |s| > 0 {
      UpperCharKeepsTrimmable(s[|s| - 1]);
      assert ToUpper(s)[..|s| - 1] == ToUpper(s[..|s| - 1]);
      if IsTrimmable(s[|s| - 1]) {
        TrimRightUpper(s[..|s| - 1]);
      }
    }
  }

  /** trim and strtoupper commute: trimming never looks at letters. */
  lemma TrimUpperCommute(s: string)
    ensures Trim(ToUpper(s)) == ToUpper(Trim(s))
  {
    TrimLeftUpper(s);
    TrimRightUpper(TrimLeft(s));
  }

  /** A string without ASCII lower-case letters is its own upper-case form. */
  lemma ToUpperKeepsUpper(s: string)
    requires forall i :: 0 <= i < |s| ==> !IsLowerAscii(s[i])
    ensures ToUpper(s) == s
  {
    var u := ToUpper(s);
    assert forall i :: 0 <= i < |s| ==> u[i] == s[i];
  }

  /** Replacing a character that does not occur changes nothing. */
  lemma ReplaceAbsentChar(s: string, from: char, to: char)
    requires from !in s
    ensures ReplaceChar(s, from, to) == s
  {
    var r := ReplaceChar(s, from, to);
    assert forall i :: 0 <= i < |s| ==> r[i] == s[i];
  }

  lemma ToUpperIdempotent(s: string)
    ensures ToUpper(ToUpper(s)) == ToUpper(s)
  {
  }

  lemma {:induction false} TrimLeftSkipsPadding(pre: string, s: string)
    requires forall k :: 0 <= k < |pre| ==> IsTrimmable(pre[k])
    ensures TrimLeft(pre + s) == TrimLeft(s)
  {
    if |pre| > 0 {
      assert (pre + s)[1..] == pre[1..] + s;
      TrimLeftSkipsPadding(pre[1..], s);
    } else {
      assert pre + s == s;
    }
  }

  lemma {:induction false} TrimRightSkipsPadding(s: string, post: string)
    requires forall k :: 0 <= k < |post| ==> IsTrimmable(post[k])
    ensures TrimRight(s + post) == TrimRight(s)
  {
    if |post| > 0 {
      var p := post[..|post| - 1];
      assert (s + post)[..|s + post| - 1] == s + p;
      TrimRightSkipsPadding(s, p);
    } else {
      assert s + post == s;
    }
  }

  lemma {:induction false} TrimIgnoresTrailingPadding(s: string, post: string)
    requires forall k :: 0 <= k < |post| ==> IsTrimmable(post[k])
    ensures TrimRight(TrimLeft(s + post)) == TrimRight(TrimLeft(s))
  {
    if |s| == 0 {
      assert s + post == post;
      TrimLeftSkipsPadding(post, "");
      assert post + "" == post;
    } else if IsTrimmable(s[0]) {
      assert (s + post)[1..] == s[1..] + post;
      TrimIgnoresTrailingPadding(s[1..], post);
    } else {
      TrimRightSkipsPadding(s, post);
    }
  }

  /** Padding with trimmable characters on either side does not change what trim() returns. */
  lemma TrimIgnoresPadding(pre: string, s: string, post: string)
    requires forall k :: 0 <= k < |pre| ==> IsTrimmable(pre[k])
    requires forall k :: 0 <= k < |post| ==> IsTrimmable(post[k])
    ensures Trim(pre + s + post) == Trim(s)
  {
    assert pre + s + post == pre + (s + post);
    TrimLeftSkipsPadding(pre, s + post);
    TrimIgnoresTrailingPadding(s, post);
  }

  /** A string without trimmable characters at its ends is its own trim. */
  lemma TrimKeepsTrimmed(s: string)
    requires s == [] || (!IsTrimmable(s[0]) && !IsTrimmable(s[|s| - 1]))
    ensures Trim(s) == s
  {
  }
}
