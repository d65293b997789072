/**
  The string operations the assistant relies on: `String.prototype.trim`
  and the case conversions used by the sample-data route. JavaScript
  strings are sequences of UTF-16 code units; here they are sequences of
  Unicode scalar values, so unpaired surrogates cannot occur.
 */
module Text {

  /**
    The characters `trim` removes: the WhiteSpace and LineTerminator
    characters of ECMAScript (TAB, VT, FF, SP, NBSP, ZWNBSP, the Unicode
    space separators, LF, CR, LS and PS).
   */
  predicate IsSpace(c: char) {
    || c == '\t' || c == '\U{000B}' || c == '\U{000C}' || c == ' '
    || c == '\U{00A0}' || c == '\U{FEFF}' || c == '\U{1680}'
    || ('\U{2000}' <= c <= '\U{200A}')
    || c == '\U{202F}' || c == '\U{205F}' || c == '\U{3000}'
    || c == '\n' || c == '\r' || c == '\U{2028}' || c == '\U{2029}'
  }

  predicate AllSpace(s: string) {
    forall k :: 0 <= k < |s| ==> IsSpace(s[k])
  }

  /** How many white-space characters `s` starts with. */
  function LeadingSpace(s: string): (n: nat)
    ensures n <= |s|
    decreases |s|
  {
    if |s| > 0 && IsSpace(s[0]) then 1 + LeadingSpace(s[1..]) else 0
  }

  /** How many white-space characters `s` ends with. */
  function TrailingSpace(s: string): (n: nat)
    ensures n <= |s|
    decreases |s|
  {
    if |s| > 0 && IsSpace(s[|s| - 1]) then 1 + TrailingSpace(s[..|s| - 1]) else 0
  }

  /** The leading run is all white space, and it stops at the first other character. */
  lemma {:induction false} LeadingSpaceIsMaximal(s: string)
    ensures AllSpace(s[..LeadingSpace(s)])
    ensures LeadingSpace(s) < |s| ==> !IsSpace(s[LeadingSpace(s)])
    decreases |s|
  {
    if |s| > 0 && IsSpace(s[0]) {
      var rest := s[1..];
      LeadingSpaceIsMaximal(rest);
      var n := LeadingSpace(rest);
      assert s[..n + 1] == [s[0]] + rest[..n];
      assert n < |rest| ==> s[n + 1] == rest[n];
    }
  }

  /** The trailing run is all white space, and it stops at the last other character. */
  lemma {:induction false} TrailingSpaceIsMaximal(s: string)
    ensures AllSpace(s[|s| - TrailingSpace(s)..])
    ensures TrailingSpace(s) < |s| ==> !IsSpace(s[|s| - TrailingSpace(s) - 1])
    decreases |s|
  {
    if |s| > 0 && IsSpace(s[|s| - 1]) {
      var front := s[..|s| - 1];
      TrailingSpaceIsMaximal(front);
      var n := TrailingSpace(front);
      assert s[|s| - (n + 1)..] == front[|front| - n..] + [s[|s| - 1]];
      assert n < |front| ==> s[|s| - (n + 1) - 1] == front[|front| - n - 1];
    }
  }

  /** `s.trim()`: `s` without its leading and trailing white space. */
  function Trim(s: string): (r: string)
    ensures |r| <= |s|
    ensures r == [] || (!IsSpace(r[0]) && !IsSpace(r[|r| - 1]))
  {
    var t := s[LeadingSpace(s)..];
    var r := t[..|t| - TrailingSpace(t)];
    LeadingSpaceIsMaximal(s);
    TrailingSpaceIsMaximal(t);
    assert r != [] ==> r[0] == t[0] && r[|r| - 1] == t[|t| - TrailingSpace(t) - 1];
    r
  }

  /**
    `trim` cuts away white space only: its result is the infix of `s` that
    starts after the leading white space, and only white space follows it.
   */
  lemma TrimIsSlice(s: string)
    ensures var i := LeadingSpace(s);
            && i + |Trim(s)| <= |s|
            && Trim(s) == s[i..i + |Trim(s)|]
            && AllSpace(s[..i]) && AllSpace(s[i + |Trim(s)|..])
  {
    var i := LeadingSpace(s);
    var t := s[i..];
    var m := |t| - TrailingSpace(t);
    assert Trim(s) == t[..m];
    assert Trim(s) == s[i..i + m] && s[i + m..] == t[m..] by {
      SliceOfSuffix(s, i, m);
    }
    assert AllSpace(s[..i]) by {
      LeadingSpaceIsMaximal(s);
    }
    assert AllSpace(t[m..]) by {
      TrailingSpaceIsMaximal(t);
    }
  }

  /** Cutting the suffix of `s` at `i` after `m` characters is cutting `s` at `i + m`. */
  lemma SliceOfSuffix(s: string, i: nat, m: nat)
    requires i + m <= |s|
    ensures s[i..][..m] == s[i..i + m] && s[i..][m..] == s[i + m..]
  {
  }

  /** The trimmed text is empty exactly when the text is all white space. */
  lemma TrimEmptyIffAllSpace(s: string)
    ensures Trim(s) == [] <==> AllSpace(s)
  {
    TrimIsSlice(s);
    var r := Trim(s);
    var i := LeadingSpace(s);
    var j := i + |r|;
    if r == [] {
      forall k | 0 <= k < |s| ensures IsSpace(s[k]) {
        if k < i { assert s[k] == s[..i][k]; } else { assert s[k] == s[j..][k - j]; }
      }
    } else {
      assert s[i] == r[0] && !IsSpace(s[i]);
    }
  }

  /** Trimming twice trims nothing more. */
  lemma TrimIdempotent(s: string)
    ensures Trim(Trim(s)) == Trim(s)
  {
    var r := Trim(s);
    if r != [] {
      assert LeadingSpace(r) == 0;
      assert r[0..] == r;
      assert TrailingSpace(r) == 0;
      assert r[..|r|] == r;
    }
  }

  function LowerChar(c: char): char {
    if 'A' <= c <= 'Z' then (c as int + 32) as char else c
  }

  function UpperChar(c: char): char {
    if 'a' <= c <= 'z' then (c as int - 32) as char else c
  }

  /** `s.toLowerCase()` for the ASCII letters. */
  function ToLower(s: string): string
  {
    seq(|s|, k requires 0 <= k < |s| => LowerChar(s[k]))
  }

  /** `s.toUpperCase()` for the ASCII letters. */
  function ToUpper(s: string): string
  {
    seq(|s|, k requires 0 <= k < |s| => UpperChar(s[k]))
  }
}
