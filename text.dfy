/** String helpers standing in for the Python `str` methods the core relies on.
    White space is Python's full set; letters, digits and case mapping are the ASCII ones. */
module Text {

  predicate IsDigit(c: char) { '0' <= c <= '9' }

  predicate IsAlpha(c: char) { 'a' <= c <= 'z' || 'A' <= c <= 'Z' }

  /** `str.isalnum` on one character. */
  predicate IsAlnum(c: char) { IsDigit(c) || IsAlpha(c) }

  /** The characters `str.isspace` accepts: the ASCII controls TAB to CR and FS to US, the space,
      and the Unicode separators Python counts as white space. */
  const WhiteSpace: set<char> :=
    {'\t', '\n', '\U{0B}', '\U{0C}', '\r', '\U{1C}', '\U{1D}', '\U{1E}', '\U{1F}', ' ', '\U{85}', '\U{A0}',
     '\U{1680}', '\U{2000}', '\U{2001}', '\U{2002}', '\U{2003}', '\U{2004}', '\U{2005}', '\U{2006}',
     '\U{2007}', '\U{2008}', '\U{2009}', '\U{200A}', '\U{2028}', '\U{2029}', '\U{202F}', '\U{205F}',
     '\U{3000}'}

  /** `str.isspace` on one character. */
  predicate IsSpace(c: char) {
    c in WhiteSpace
  }


  function LowerChar(c: char): char {
    if 'A' <= c <= 'Z' then (c as int + 32) as char else c
  }

  function UpperChar(c: char): char {
    if 'a' <= c <= 'z' then (c as int - 32) as char else c
  }

  /** `str.lower()` */
  function Lower(s: string): string {
    seq(|s|, i requires 0 <= i < |s| => LowerChar(s[i]))
  }

  /** `str.upper()` */
  function Upper(s: string): string {
    seq(|s|, i requires 0 <= i < |s| => UpperChar(s[i]))
  }

  /** Lower-casing forgets the letter case: a string and its upper-cased form lower-case alike,
      and lower-casing twice changes nothing. */
  lemma LowerIgnoresCase(s: string)
    ensures Lower(Upper(s)) == Lower(s)
    ensures Lower(Lower(s)) == Lower(s)
  {
  }

  function TrimStart(s: string): string {
    if |s| > 0 && IsSpace(s[0]) then TrimStart(s[1..]) else s
  }

  function TrimEnd(s: string): string {
    if |s| > 0 && IsSpace(s[|s| - 1]) then TrimEnd(s[..|s| - 1]) else s
  }

  /** `str.strip()` with no argument. */
  function Strip(s: string): string {
    TrimEnd(TrimStart(s))
  }

  /** Removing trailing white space never eats into a prefix that ends in a visible character. */
  lemma {:induction false} TrimEndKeepsPrefix(p: string, s: string)
    requires |p| > 0 && !IsSpace(p[|p| - 1])
    ensures p <= TrimEnd(p + s)
    decreases |s|
  {
    if |s| == 0 {
      assert p + s == p;
    } else if IsSpace(s[|s| - 1]) {
      assert (p + s)[..|p + s| - 1] == p + s[..|s| - 1];
      TrimEndKeepsPrefix(p, s[..|s| - 1]);
    }
  }

  /** A string that starts and has a prefix ending in visible characters keeps that prefix under `strip()`. */
  lemma StripKeepsPrefix(p: string, s: string)
    requires |p| > 0 && !IsSpace(p[0]) && !IsSpace(p[|p| - 1])
    ensures p <= Strip(p + s)
  {
    assert (p + s)[0] == p[0];
    assert TrimStart(p + s) == p + s;
    TrimEndKeepsPrefix(p, s);
  }

  function DigitChar(d: nat): char
    requires d < 10
  {
    "0123456789"[d]
  }

  /** Python's `str(n)` for a non-negative integer. */
  function NatToString(n: nat): (r: string)
    ensures |r| > 0 && forall i :: 0 <= i < |r| ==> IsDigit(r[i])
  {
    if n < 10 then [DigitChar(n)] else NatToString(n / 10) + [DigitChar(n % 10)]
  }

  /** Joins strings with nothing between them (`"".join`). */
  function Concat(ss: seq<string>): string {
    if ss == [] then "" else Concat(ss[..|ss| - 1]) + ss[|ss| - 1]
  }

  /** `str.split(sep)` with a one-character separator: the pieces between separators, always at least one. */
  function Split(s: string, sep: char): (r: seq<string>)
    ensures |r| > 0
  {
    if |s| == 0 then [""]
    else
      var rest := Split(s[1..], sep);
      if s[0] == sep then [""] + rest else [[s[0]] + rest[0]] + rest[1..]
  }

  /** `sep.join(pieces)` */
  function Join(pieces: seq<string>, sep: char): string
    requires |pieces| > 0
  {
    if |pieces| == 1 then pieces[0] else pieces[0] + [sep] + Join(pieces[1..], sep)
  }

  /** `sep.join(pieces)` with a separator of any length; empty for no pieces. */
  function JoinWith(pieces: seq<string>, sep: string): string {
    if pieces == [] then "" else if |pieces| == 1 then pieces[0] else pieces[0] + sep + JoinWith(pieces[1..], sep)
  }

  /** Splitting loses nothing: joining the pieces back gives the original string,
      and no piece contains the separator. */
  lemma {:induction false} SplitJoin(s: string, sep: char)
    ensures Join(Split(s, sep), sep) == s
    ensures forall k :: 0 <= k < |Split(s, sep)| ==> sep !in Split(s, sep)[k]
  {
    if |s| > 0 {
      var rest := Split(s[1..], sep);
      SplitJoin(s[1..], sep);
      if s[0] == sep {
        assert Split(s, sep) == [""] + rest;
        assert ([""] + rest)[1..] == rest;
        assert Join([""] + rest, sep) == "" + [sep] + Join(rest, sep);
        assert s == [s[0]] + s[1..];
        forall k | 0 <= k < |Split(s, sep)| ensures sep !in Split(s, sep)[k] {
          if k > 0 { assert Split(s, sep)[k] == rest[k - 1]; }
        }
      } else {
        var r := [[s[0]] + rest[0]] + rest[1..];
        assert Split(s, sep) == r;
        if |rest| == 1 {
          assert Join(r, sep) == [s[0]] + rest[0];
        } else {
          assert r[1..] == rest[1..];
          assert Join(rest, sep) == rest[0] + [sep] + Join(rest[1..], sep);
          assert Join(r, sep) == [s[0]] + rest[0] + [sep] + Join(rest[1..], sep);
        }
        assert s == [s[0]] + s[1..];
        forall k | 0 <= k < |r| ensures sep !in r[k] {
          if k == 0 {
            assert sep !in rest[0];
            assert forall j :: 0 <= j < |r[0]| ==> r[0][j] == if j == 0 then s[0] else rest[0][j - 1];
          } else {
            assert r[k] == rest[k];
          }
        }
      }
    }
  }
}
