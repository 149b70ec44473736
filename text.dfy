/**
 * The handful of JavaScript string operations the storefront relies on:
 * `toLowerCase`, `toUpperCase`, `includes`, `trim` and the `\s` class of regular expressions.
 */
module Text {

  /** The characters JavaScript's `trim` strips and `\s` matches (white space and line terminators). */
  predicate IsSpace(c: char)
  {
    c == ' ' || c == '\t' || c == '\n' || c == '\r' || c == '\U{000B}' || c == '\U{000C}'
    || c == '\U{00A0}' || c == '\U{1680}' || ('\U{2000}' <= c <= '\U{200A}')
    || c == '\U{2028}' || c == '\U{2029}' || c == '\U{202F}' || c == '\U{205F}'
    || c == '\U{3000}' || c == '\U{FEFF}'
  }

  predicate IsUpper(c: char) { 'A' <= c <= 'Z' }

  predicate IsLower(c: char) { 'a' <= c <= 'z' }

  /** `toLowerCase` of one character (ASCII letters only). */
  function LowerChar(c: char): (d: char)
    ensures !IsUpper(d)
    ensures IsLower(c) || IsUpper(c) <==> IsLower(d)
  {
    if IsUpper(c) then (c as int + 32) as char else c
  }

  /** `toUpperCase` of one character (ASCII letters only). */
  function UpperChar(c: char): (d: char)
    ensures !IsLower(d)
    ensures IsLower(c) || IsUpper(c) <==> IsUpper(d)
  {
    if IsLower(c) then (c as int - 32) as char else c
  }

  /** `s.toLowerCase()`. */
  function Lower(s: string): (r: string)
    ensures |r| == |s|
    ensures forall i :: 0 <= i < |s| ==> r[i] == LowerChar(s[i])
  {
    seq(|s|, i requires 0 <= i < |s| => LowerChar(s[i]))
  }

  /** `s.includes(q)`: `q` occurs in `s` starting at some position. */
  predicate Includes(s: string, q: string)
    decreases |s|
  {
    q <= s || (|s| > 0 && Includes(s[1..], q))
  }

  /** `Includes` holds exactly when `q` is a prefix of some suffix of `s`. */
  lemma {:induction false} IncludesAt(s: string, q: string)
    ensures Includes(s, q) <==> exists i :: 0 <= i <= |s| && q <= s[i..]
  {
    if q <= s {
      assert s[0..] == s;
    } else if |s| > 0 {
      IncludesAt(s[1..], q);
      if Includes(s[1..], q) {
        var i :| 0 <= i <= |s[1..]| && q <= s[1..][i..];
        assert s[1..][i..] == s[i + 1..];
      } else {
        forall i | 1 <= i <= |s| ensures !(q <= s[i..]) {
          assert s[1..][i - 1..] == s[i..];
        }
        assert s[0..] == s;
      }
    } else {
      assert forall i :: 0 <= i <= |s| ==> s[i..] == s;
    }
  }

  /** Drops leading white space. */
  function TrimStart(s: string): string
    decreases |s|
  {
    if |s| > 0 && IsSpace(s[0]) then TrimStart(s[1..]) else s
  }

  /** Drops trailing white space. */
  function TrimEnd(s: string): string
    decreases |s|
  {
    if |s| > 0 && IsSpace(s[|s| - 1]) then TrimEnd(s[..|s| - 1]) else s
  }

  /** `s.trim()`. */
  function Trim(s: string): string
  {
    TrimEnd(TrimStart(s))
  }

  /** Every character of `s` is white space. */
  predicate Blank(s: string)
  {
    forall i :: 0 <= i < |s| ==> IsSpace(s[i])
  }

  lemma {:induction false} TrimStartBlank(s: string)
    ensures TrimStart(s) == [] <==> Blank(s)
    ensures Blank(s) <== Blank(TrimStart(s))
    ensures TrimStart(s) != [] ==> !IsSpace(TrimStart(s)[0])
  {
    if |s| > 0 && IsSpace(s[0]) {
      TrimStartBlank(s[1..]);
      assert forall i :: 1 <= i < |s| ==> s[i] == s[1..][i - 1];
    }
  }

  lemma {:induction false} TrimEndEmpty(s: string)
    requires s == [] || !IsSpace(s[0])
    ensures TrimEnd(s) == [] <==> s == []
  {
    if |s| > 0 && IsSpace(s[|s| - 1]) {
      assert |s| > 1;
      TrimEndEmpty(s[..|s| - 1]);
    }
  }

  /** `!s.trim()`: the trimmed text is empty exactly when every character is white space. */
  lemma TrimEmpty(s: string)
    ensures Trim(s) == [] <==> Blank(s)
  {
    TrimStartBlank(s);
    TrimEndEmpty(TrimStart(s));
  }
}
