/** Python string operations the two documentation servers rely on, written out
    explicitly: `str.split('\n')`, `sep.join(parts)`, `str.strip()`, `in` on
    strings, `startswith`, `lower()`, `title()` and `replace()`, plus decimal
    rendering of an integer and Python's ordering of strings. */
module Text {

  /** `s.startswith(p)` */
  predicate StartsWith(s: string, p: string) {
    |p| <= |s| && s[..|p|] == p
  }

  /** `q in s`: q occurs as a contiguous run somewhere in s (the empty
      string occurs everywhere). */
  predicate IsSubstring(q: string, s: string)
    decreases |s|
  {
    StartsWith(s, q) || (|s| > 0 && IsSubstring(q, s[1..]))
  }

  /** A run found at a known position is a substring. */
  lemma {:induction false} SubstringAt(q: string, s: string, i: nat)
    requires i + |q| <= |s| && s[i..i + |q|] == q
    ensures IsSubstring(q, s)
  {
    if i > 0 {
      assert s[1..][i - 1..i - 1 + |q|] == q;
      SubstringAt(q, s[1..], i - 1);
    }
  }

  /** Every substring is found at some position. */
  lemma {:induction false} SubstringWitness(q: string, s: string) returns (i: nat)
    requires IsSubstring(q, s)
    ensures i + |q| <= |s| && s[i..i + |q|] == q
    decreases |s|
  {
    if StartsWith(s, q) {
      i := 0;
    } else {
      var j := SubstringWitness(q, s[1..]);
      i := j + 1;
      assert s[i..i + |q|] == s[1..][j..j + |q|];
    }
  }

  /** Python's `str.isspace()` for one character: the ASCII controls 9-13 and
      28-31, the space, and the Unicode space separators and line breaks. */
  predicate IsSpace(c: char) {
    c == ' ' || ('\t' <= c <= '\r') || ('\U{1C}' <= c <= '\U{1F}') ||
    c == '\U{85}' || c == '\U{A0}' || c == '\U{1680}' ||
    ('\U{2000}' <= c <= '\U{200A}') || c == '\U{2028}' || c == '\U{2029}' ||
    c == '\U{202F}' || c == '\U{205F}' || c == '\U{3000}'
  }

  /** `s.lstrip()` */
  function TrimStart(s: string): string
    decreases |s|
  {
    if |s| > 0 && IsSpace(s[0]) then TrimStart(s[1..]) else s
  }

  /** `s.rstrip()` */
  function TrimEnd(s: string): string
    decreases |s|
  {
    if |s| > 0 && IsSpace(s[|s| - 1]) then TrimEnd(s[..|s| - 1]) else s
  }

  /** `s.strip()` */
  function Strip(s: string): string {
    TrimEnd(TrimStart(s))
  }

  /** lstrip gives the longest suffix that does not start with whitespace. */
  lemma {:induction false} TrimStartSpec(s: string)
    ensures |TrimStart(s)| <= |s| && TrimStart(s) == s[|s| - |TrimStart(s)|..]
    ensures forall j :: 0 <= j < |s| - |TrimStart(s)| ==> IsSpace(s[j])
    ensures TrimStart(s) == [] || !IsSpace(TrimStart(s)[0])
    decreases |s|
  {
    if |s| > 0 && IsSpace(s[0]) {
      TrimStartSpec(s[1..]);
    }
  }

  /** rstrip gives the longest prefix that does not end with whitespace. */
  lemma {:induction false} TrimEndSpec(s: string)
    ensures |TrimEnd(s)| <= |s| && TrimEnd(s) == s[..|TrimEnd(s)|]
    ensures forall j :: |TrimEnd(s)| <= j < |s| ==> IsSpace(s[j])
    ensures TrimEnd(s) == [] || !IsSpace(TrimEnd(s)[|TrimEnd(s)| - 1])
    decreases |s|
  {
    if |s| > 0 && IsSpace(s[|s| - 1]) {
      TrimEndSpec(s[..|s| - 1]);
    }
  }

  /** rstrip never removes a character that is not whitespace, nor anything
      before it. */
  lemma TrimEndKeeps(s: string, k: nat)
    requires k < |s| && !IsSpace(s[k])
    ensures k < |TrimEnd(s)|
  {
    TrimEndSpec(s);
  }

  /** A prefix made only of non-space characters survives `strip()`. */
  lemma StripKeepsPrefix(s: string, p: string)
    requires StartsWith(s, p) && |p| > 0
    requires forall j :: 0 <= j < |p| ==> !IsSpace(p[j])
    ensures StartsWith(Strip(s), p)
  {
    assert s[0] == p[0];
    assert TrimStart(s) == s;
    assert s[|p| - 1] == p[|p| - 1];
    TrimEndKeeps(s, |p| - 1);
    TrimEndSpec(s);
    var r := TrimEnd(s);
    assert r[..|p|] == s[..|p|];
  }

  /** `s.split(sep)` for a one-character separator: always at least one
      piece; the pieces never contain sep. */
  function Split(s: string, sep: char): (r: seq<string>)
    ensures |r| >= 1
    ensures forall i :: 0 <= i < |r| ==> sep !in r[i]
    decreases |s|
  {
    if s == [] then [""]
    else
      var rest := Split(s[1..], sep);
      if s[0] == sep then [""] + rest
      else [[s[0]] + rest[0]] + rest[1..]
  }

  /** `sep.join(parts)` for a one-character separator. */
  function Join(sep: string, parts: seq<string>): string
    decreases |parts|
  {
    if |parts| == 0 then ""
    else if |parts| == 1 then parts[0]
    else parts[0] + sep + Join(sep, parts[1..])
  }

  /** Joining the pieces of a split gives the original text back. */
  lemma {:induction false} JoinSplit(s: string, sep: char)
    ensures Join([sep], Split(s, sep)) == s
    decreases |s|
  {
    if s != [] {
      var rest := Split(s[1..], sep);
      JoinSplit(s[1..], sep);
      if s[0] == sep {
        assert Split(s, sep) == [""] + rest;
        assert ([""] + rest)[1..] == rest;
      } else {
        var r := Split(s, sep);
        assert r == [[s[0]] + rest[0]] + rest[1..];
        if |rest| == 1 {
          assert r == [[s[0]] + rest[0]];
        } else {
          assert r[1..] == rest[1..];
          assert Join([sep], rest) == rest[0] + [sep] + Join([sep], rest[1..]);
        }
      }
    }
  }

  /** Splitting a join of separator-free pieces gives the pieces back. */
  lemma {:induction false} SplitJoin(parts: seq<string>, sep: char)
    requires |parts| >= 1
    requires forall i :: 0 <= i < |parts| ==> sep !in parts[i]
    ensures Split(Join([sep], parts), sep) == parts
    decreases |parts|, |parts[0]|
  {
    if |parts[0]| > 0 {
      var p0 := parts[0];
      var tailParts := [p0[1..]] + parts[1..];
      SplitJoin(tailParts, sep);
      var s := Join([sep], parts);
      if |parts| == 1 {
        assert s == p0;
        assert s[1..] == Join([sep], tailParts);
      } else {
        assert s == p0 + [sep] + Join([sep], parts[1..]);
        assert Join([sep], tailParts) == p0[1..] + [sep] + Join([sep], parts[1..]);
        assert s[1..] == Join([sep], tailParts);
      }
      assert s[0] == p0[0];
      assert [s[0]] + p0[1..] == p0;
      assert Split(s, sep) == [p0] + tailParts[1..];
    } else if |parts| > 1 {
      SplitJoin(parts[1..], sep);
      var s := Join([sep], parts);
      assert s == [sep] + Join([sep], parts[1..]);
      assert s[1..] == Join([sep], parts[1..]);
      assert Split(s, sep) == [""] + parts[1..];
    }
  }

  /** A separator-free substring of s lies inside one piece of the split. */
  lemma {:induction false} SubstringInSomePiece(q: string, s: string, sep: char) returns (i: nat)
    requires IsSubstring(q, s) && sep !in q
    ensures i < |Split(s, sep)| && IsSubstring(q, Split(s, sep)[i])
    decreases |s|
  {
    if StartsWith(s, q) {
      i := 0;
      FirstPieceStartsWith(q, s, sep);
    } else {
      var j := SubstringInSomePiece(q, s[1..], sep);
      var rest := Split(s[1..], sep);
      if s[0] == sep {
        i := j + 1;
        assert Split(s, sep)[i] == rest[j];
      } else if j == 0 {
        i := 0;
        var p := [s[0]] + rest[0];
        assert Split(s, sep)[0] == p;
        assert p[1..] == rest[0];
      } else {
        i := j;
        assert Split(s, sep)[i] == rest[j];
      }
    }
  }

  /** A separator-free prefix of s is a prefix of the first piece. */
  lemma {:induction false} FirstPieceStartsWith(q: string, s: string, sep: char)
    requires StartsWith(s, q) && sep !in q
    ensures StartsWith(Split(s, sep)[0], q)
    decreases |s|
  {
    if |q| > 0 {
      assert s[0] == q[0];
      var rest := Split(s[1..], sep);
      assert s[1..][..|q| - 1] == q[1..];
      FirstPieceStartsWith(q[1..], s[1..], sep);
      var p := [s[0]] + rest[0];
      assert Split(s, sep)[0] == p;
      assert p[..|q|] == [s[0]] + rest[0][..|q| - 1];
    }
  }

  /** ASCII `lower()` of one character. */
  function LowerChar(c: char): char {
    if 'A' <= c <= 'Z' then (c as int + 32) as char else c
  }

  /** ASCII `upper()` of one character. */
  function UpperChar(c: char): char {
    if 'a' <= c <= 'z' then (c as int - 32) as char else c
  }

  predicate IsCased(c: char) {
    ('A' <= c <= 'Z') || ('a' <= c <= 'z')
  }

  /** `s.lower()` restricted to ASCII letters. */
  function Lower(s: string): (r: string)
    ensures |r| == |s|
    ensures forall i :: 0 <= i < |s| ==> r[i] == LowerChar(s[i])
  {
    seq(|s|, i requires 0 <= i < |s| => LowerChar(s[i]))
  }

  /** Lower-casing commutes with splitting on a non-letter separator. */
  lemma {:induction false} SplitLower(s: string, sep: char)
    requires !IsCased(sep)
    ensures |Split(Lower(s), sep)| == |Split(s, sep)|
    ensures forall i :: 0 <= i < |Split(s, sep)| ==> Split(Lower(s), sep)[i] == Lower(Split(s, sep)[i])
    decreases |s|
  {
    if s != [] {
      var ls := Lower(s);
      assert ls[1..] == Lower(s[1..]);
      SplitLower(s[1..], sep);
      var rest := Split(s[1..], sep);
      var lrest := Split(ls[1..], sep);
      var r := Split(s, sep);
      var lr := Split(ls, sep);
      if s[0] == sep {
        assert ls[0] == sep;
        forall i | 0 <= i < |r|
          ensures lr[i] == Lower(r[i])
        {
          if i > 0 {
            assert r[i] == rest[i - 1] && lr[i] == lrest[i - 1];
          }
        }
      } else {
        assert ls[0] != sep;
        assert Lower([s[0]] + rest[0]) == [ls[0]] + lrest[0];
        forall i | 0 <= i < |r|
          ensures lr[i] == Lower(r[i])
        {
          if i > 0 {
            assert r[i] == rest[i] && lr[i] == lrest[i];
          }
        }
      }
    }
  }

  /** `s.title()` restricted to ASCII letters: a letter is upper-cased when
      the character before it is not a letter, lower-cased otherwise. */
  function TitleFrom(s: string, afterCased: bool): (r: string)
    ensures |r| == |s|
    decreases |s|
  {
    if s == [] then []
    else
      var c := if afterCased then LowerChar(s[0]) else UpperChar(s[0]);
      [c] + TitleFrom(s[1..], IsCased(s[0]))
  }

  function Title(s: string): string {
    TitleFrom(s, false)
  }

  /** `s.replace(pat, repl)`: every non-overlapping occurrence of pat, scanning
      left to right, is replaced. */
  function ReplaceAll(s: string, pat: string, repl: string): string
    requires |pat| > 0
    decreases |s|
  {
    if |s| == 0 then []
    else if StartsWith(s, pat) then repl + ReplaceAll(s[|pat|..], pat, repl)
    else [s[0]] + ReplaceAll(s[1..], pat, repl)
  }

  /** A string with no occurrence of pat is left as it is by replace. */
  lemma {:induction false} ReplaceAbsent(s: string, pat: string, repl: string)
    requires |pat| > 0 && !IsSubstring(pat, s)
    ensures ReplaceAll(s, pat, repl) == s
    decreases |s|
  {
    if |s| > 0 {
      ReplaceAbsent(s[1..], pat, repl);
      assert [s[0]] + s[1..] == s;
    }
  }

  /** Removing a leading prefix with `replace(prefix, "")` returns the rest
      when the rest holds no further copy of the prefix. */
  lemma ReplacePrefix(prefix: string, rest: string)
    requires |prefix| > 0 && !IsSubstring(prefix, rest)
    ensures ReplaceAll(prefix + rest, prefix, "") == rest
  {
    var s := prefix + rest;
    assert s[..|prefix|] == prefix;
    assert s[|prefix|..] == rest;
    ReplaceAbsent(rest, prefix, "");
  }

  function DigitChar(d: nat): char
    requires d < 10
  {
    ('0' as int + d) as char
  }

  /** The number a run of decimal digits denotes, most significant first. */
  function DigitsValue(s: string): nat
    requires forall i :: 0 <= i < |s| ==> '0' <= s[i] <= '9'
  {
    if s == [] then 0 else 10 * DigitsValue(s[..|s| - 1]) + (s[|s| - 1] as int - '0' as int)
  }

  /** Decimal rendering of a natural number, as `str(n)` gives it: the
      digits denote n and there is no leading zero. */
  function NatToString(n: nat): (r: string)
    ensures |r| >= 1
    ensures forall i :: 0 <= i < |r| ==> '0' <= r[i] <= '9'
    ensures DigitsValue(r) == n
    ensures |r| > 1 ==> r[0] != '0'
    decreases n
  {
    if n < 10 then [DigitChar(n)]
    else
      var r := NatToString(n / 10) + [DigitChar(n % 10)];
      assert r[..|r| - 1] == NatToString(n / 10);
      r
  }

  /** Decimal rendering of an integer, with a leading minus sign when
      negative, as an f-string renders it. */
  function IntToString(i: int): string {
    if i < 0 then "-" + NatToString(-i) else NatToString(i)
  }

  /** Python's string order: code point by code point, a proper prefix first. */
  predicate StrLe(a: string, b: string)
    decreases |a|
  {
    |a| == 0 || (|b| > 0 && (a[0] < b[0] || (a[0] == b[0] && StrLe(a[1..], b[1..]))))
  }

  lemma {:induction false} StrLeTotal(a: string, b: string)
    ensures StrLe(a, b) || StrLe(b, a)
    decreases |a|
  {
    if |a| > 0 && |b| > 0 && a[0] == b[0] {
      StrLeTotal(a[1..], b[1..]);
    }
  }

  lemma {:induction false} StrLeTrans(a: string, b: string, c: string)
    requires StrLe(a, b) && StrLe(b, c)
    ensures StrLe(a, c)
    decreases |a|
  {
    if |a| > 0 && a[0] == b[0] && b[0] == c[0] {
      StrLeTrans(a[1..], b[1..], c[1..]);
    }
  }

  lemma {:induction false} StrLeAntisym(a: string, b: string)
    requires StrLe(a, b) && StrLe(b, a)
    ensures a == b
    decreases |a|
  {
    if |a| > 0 {
      StrLeAntisym(a[1..], b[1..]);
      assert a == [a[0]] + a[1..];
      assert b == [b[0]] + b[1..];
    }
  }

  predicate SortedStrings(s: seq<string>) {
    forall i, j :: 0 <= i < j < |s| ==> StrLe(s[i], s[j])
  }

  function InsertSorted(x: string, s: seq<string>): (r: seq<string>)
    requires SortedStrings(s)
    ensures SortedStrings(r)
    ensures multiset(r) == multiset(s) + multiset{x}
    decreases |s|
  {
    if s == [] then [x]
    else if StrLe(x, s[0]) then
      InsertFirstSorted(x, s);
      [x] + s
    else
      StrLeTotal(x, s[0]);
      var t := InsertSorted(x, s[1..]);
      InsertLaterSorted(x, s, t);
      [s[0]] + t
  }

  /** An element no greater than the head goes in front. */
  lemma InsertFirstSorted(x: string, s: seq<string>)
    requires SortedStrings(s) && s != [] && StrLe(x, s[0])
    ensures SortedStrings([x] + s)
  {
    forall j | 0 < j < |s| ensures StrLe(x, s[j]) { StrLeTrans(x, s[0], s[j]); }
  }

  /** The head stays in front of an ordered insertion into the tail. */
  lemma InsertLaterSorted(x: string, s: seq<string>, t: seq<string>)
    requires SortedStrings(s) && s != [] && StrLe(s[0], x)
    requires SortedStrings(t) && multiset(t) == multiset(s[1..]) + multiset{x}
    ensures SortedStrings([s[0]] + t)
    ensures multiset([s[0]] + t) == multiset(s) + multiset{x}
  {
    assert s == [s[0]] + s[1..];
    forall j | 0 <= j < |t| ensures StrLe(s[0], t[j]) {
      assert t[j] in multiset(t);
      assert t[j] == x || t[j] in multiset(s[1..]);
      if t[j] != x {
        var k :| 0 <= k < |s[1..]| && s[1..][k] == t[j];
        assert s[k + 1] == t[j];
      }
    }
  }

  /** `sorted(s)` for strings: an ordered permutation of s. */
  function SortStrings(s: seq<string>): (r: seq<string>)
    ensures SortedStrings(r)
    ensures multiset(r) == multiset(s)
    decreases |s|
  {
    if s == [] then []
    else
      assert s == [s[0]] + s[1..];
      InsertSorted(s[0], SortStrings(s[1..]))
  }
}
