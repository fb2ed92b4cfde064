/** String helpers with the semantics of the JavaScript and Python built-ins
    the code relies on: decimal printing of integers, `s.split(".")[0]`,
    `s.replace(a, b)` on one character, Python's `str.title()` over ASCII
    letters and
    `Array.prototype.join`. */
module Text {

  predicate IsDigit(c: char) { '0' <= c <= '9' }
  predicate IsUpper(c: char) { 'A' <= c <= 'Z' }
  predicate IsLower(c: char) { 'a' <= c <= 'z' }
  /** The characters Python's `str.title()` treats as cased, restricted to
      the ASCII letters. */
  predicate IsCased(c: char) { IsUpper(c) || IsLower(c) }

  function ToUpper(c: char): (u: char)
    ensures IsCased(u) == IsCased(c) && !IsLower(u)
  {
    if IsLower(c) then (c as int - 32) as char else c
  }

  function ToLower(c: char): (l: char)
    ensures IsCased(l) == IsCased(c) && !IsUpper(l)
  {
    if IsUpper(c) then (c as int + 32) as char else c
  }

  function DigitChar(d: nat): (c: char)
    requires d < 10
    ensures IsDigit(c) && c as int - '0' as int == d
  {
    (d + '0' as int) as char
  }

  /** Decimal text of a natural number, as `String(n)` and `str(n)` print it. */
  function NatToString(n: nat): (s: string)
    ensures |s| >= 1
    ensures forall i :: 0 <= i < |s| ==> IsDigit(s[i])
    ensures n > 0 ==> s[0] != '0'
    decreases n
  {
    if n < 10 then [DigitChar(n)] else NatToString(n / 10) + [DigitChar(n % 10)]
  }

  /** Decimal text of an integer; a negative number gets a leading '-'. */
  function IntToString(i: int): string {
    if i < 0 then "-" + NatToString(-i) else NatToString(i)
  }

  /** The number a string of decimal digits denotes. */
  function DigitsValue(s: string): nat
    requires forall i :: 0 <= i < |s| ==> IsDigit(s[i])
  {
    if s == [] then 0
    else
      assert IsDigit(s[|s| - 1]);
      DigitsValue(s[..|s| - 1]) * 10 + (s[|s| - 1] as int - '0' as int)
  }

  /** Printing a number and reading it back gives the number. */
  lemma {:induction false} NatToStringValue(n: nat)
    ensures DigitsValue(NatToString(n)) == n
    decreases n
  {
    if n >= 10 {
      NatToStringValue(n / 10);
      var s := NatToString(n);
      assert s[..|s| - 1] == NatToString(n / 10);
    }
  }

  /** `s.split(".")[0]`: everything before the first '.', or all of `s`. */
  function Stem(s: string): (r: string)
    ensures r <= s
    ensures '.' !in r
    ensures |r| < |s| ==> s[|r|] == '.'
  {
    if s == [] || s[0] == '.' then [] else [s[0]] + Stem(s[1..])
  }

  /** The stem of `f + "." + e` is `f` when `f` holds no '.'. */
  lemma {:induction false} StemDot(f: string, e: string)
    requires '.' !in f
    ensures Stem(f + "." + e) == f
  {
    if f != [] {
      assert f[0] in f;
      assert (f + "." + e)[1..] == f[1..] + "." + e;
      StemDot(f[1..], e);
      assert f == [f[0]] + f[1..];
    }
  }

  /** `s.replace(a, b)` for one-character `a` and `b`. */
  function ReplaceChar(s: string, a: char, b: char): (r: string)
    ensures |r| == |s|
    ensures forall i :: 0 <= i < |s| ==> r[i] == if s[i] == a then b else s[i]
  {
    if s == [] then [] else [if s[0] == a then b else s[0]] + ReplaceChar(s[1..], a, b)
  }

  /** Python's `str.title()`: a cased character is upper-cased when the
      character before it is not cased, lower-cased otherwise; other characters
      are kept. */
  function Title(s: string): string {
    TitleFrom(s, false)
  }

  function TitleFrom(s: string, prevCased: bool): (r: string)
    ensures |r| == |s|
    ensures forall i :: 0 <= i < |s| ==> IsCased(r[i]) == IsCased(s[i])
    ensures forall i :: 0 <= i < |s| && !IsCased(s[i]) ==> r[i] == s[i]
  {
    if s == [] then []
    else
      var c := s[0];
      var r := if IsCased(c) then [if prevCased then ToLower(c) else ToUpper(c)] + TitleFrom(s[1..], true)
               else [c] + TitleFrom(s[1..], false);
      assert r[1..] == TitleFrom(s[1..], IsCased(c));
      r
  }

  /** Title-casing twice is title-casing once. */
  lemma {:induction false} TitleFromIdempotent(s: string, prevCased: bool)
    ensures TitleFrom(TitleFrom(s, prevCased), prevCased) == TitleFrom(s, prevCased)
  {
    if s != [] {
      var t := TitleFrom(s, prevCased);
      assert t[1..] == TitleFrom(s[1..], IsCased(s[0]));
      TitleFromIdempotent(s[1..], IsCased(s[0]));
    }
  }

  /** `parts.join(sep)`. */
  function Join(parts: seq<string>, sep: string): string {
    if parts == [] then "" else if |parts| == 1 then parts[0] else parts[0] + sep + Join(parts[1..], sep)
  }

  /** The concatenation of all `parts`. */
  function Concat(parts: seq<string>): string {
    if parts == [] then "" else parts[0] + Concat(parts[1..])
  }

  lemma {:induction false} ConcatAppend(parts: seq<string>, p: string)
    ensures Concat(parts + [p]) == Concat(parts) + p
  {
    if parts != [] {
      assert (parts + [p])[1..] == parts[1..] + [p];
      ConcatAppend(parts[1..], p);
    }
  }

  lemma {:induction false} ConcatSplit(a: seq<string>, b: seq<string>)
    ensures Concat(a + b) == Concat(a) + Concat(b)
  {
    if a == [] {
      assert a + b == b;
    } else {
      assert (a + b)[1..] == a[1..] + b;
      ConcatSplit(a[1..], b);
    }
  }

  /** The number of pieces that start with `prefix`. */
  function CountStarting(pieces: seq<string>, prefix: string): nat {
    if pieces == [] then 0 else (if prefix <= pieces[0] then 1 else 0) + CountStarting(pieces[1..], prefix)
  }

  lemma {:induction false} NoneStarting(pieces: seq<string>, prefix: string)
    requires forall i :: 0 <= i < |pieces| ==> !(prefix <= pieces[i])
    ensures CountStarting(pieces, prefix) == 0
  {
    if pieces != [] {
      NoneStarting(pieces[1..], prefix);
    }
  }

  lemma {:induction false} CountStartingAppend(a: seq<string>, b: seq<string>, prefix: string)
    ensures CountStarting(a + b, prefix) == CountStarting(a, prefix) + CountStarting(b, prefix)
  {
    if a == [] {
      assert a + b == b;
    } else {
      assert (a + b)[1..] == a[1..] + b;
      CountStartingAppend(a[1..], b, prefix);
    }
  }

  /** `text += line` for each line in turn. */
  method AppendLines(text: string, lines: seq<string>) returns (text': string)
    ensures text' == text + Concat(lines)
  {
    text' := text;
    assert lines[..0] == [] && text' == text + Concat(lines[..0]);
    for m := 0 to |lines|
      invariant text' == text + Concat(lines[..m])
    {
      assert lines[..m + 1] == lines[..m] + [lines[m]];
      ConcatAppend(lines[..m], lines[m]);
      text' := text' + lines[m];
    }
    assert lines[..|lines|] == lines;
  }

  /** The elements of a sequence in the opposite order. */
  function Reverse<T>(a: seq<T>): (r: seq<T>)
    ensures |r| == |a| && forall j :: 0 <= j < |a| ==> r[j] == a[|a| - 1 - j]
  {
    if a == [] then [] else Reverse(a[1..]) + [a[0]]
  }
}
