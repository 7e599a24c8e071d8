/**
  * The character-level library calls that the firmware relies on, as the
  * Arduino core and the C library define them:
  *   String::indexOf(char), String::replace(c, ""), Stream::readStringUntil('\n'),
  *   atol/atoi and String(long).
  * On the 32-bit target `int` and `long` have the same width, so atoi and atol
  * are one function here.
  */
module Text {

  /** String::indexOf(c): the first position of `c`, or -1. */
  function IndexOf(s: string, c: char): (r: int)
    ensures -1 <= r < |s|
    ensures r == -1 <==> c !in s
    ensures 0 <= r ==> s[r] == c && c !in s[..r]
  {
    if s == [] then -1
    else if s[0] == c then 0
    else
      var i := IndexOf(s[1..], c);
      if i < 0 then -1
      else
        assert s[..i + 1] == [s[0]] + s[1..][..i];
        i + 1
  }

  /** String::replace(c, ""): every occurrence of `c` removed, the rest kept in order. */
  function Remove(s: string, c: char): (r: string)
    ensures c !in r
    ensures |r| <= |s|
    ensures c !in s ==> r == s
    ensures forall x :: x in r ==> x in s
  {
    if s == [] then []
    else if s[0] == c then Remove(s[1..], c)
    else [s[0]] + Remove(s[1..], c)
  }

  lemma {:induction false} RemoveAppend(a: string, b: string, c: char)
    ensures Remove(a + b, c) == Remove(a, c) + Remove(b, c)
  {
    if a != [] {
      assert (a + b)[1..] == a[1..] + b;
      RemoveAppend(a[1..], b, c);
    } else {
      assert a + b == b;
    }
  }

  /**
    * Stream::readStringUntil('\n') on a file: the text up to the first
    * line feed, which is consumed and dropped, or up to the end of the file.
    * The second component is what is left to read.
    */
  function NextLine(text: string): (r: (string, string))
    ensures '\n' !in r.0
    ensures text == r.0 + "\n" + r.1 || (text == r.0 && r.1 == [])
    ensures text != [] ==> |r.1| < |text|
  {
    if text == [] then ([], [])
    else if text[0] == '\n' then ([], text[1..])
    else
      var rest := NextLine(text[1..]);
      ([text[0]] + rest.0, rest.1)
  }

  /** A line followed by a line feed reads back as that line. */
  lemma NextLineOf(line: string, rest: string)
    requires '\n' !in line
    ensures NextLine(line + "\n" + rest) == (line, rest)
  {
    var t := line + "\n" + rest;
    var r := NextLine(t);
    assert t[|line|] == '\n';
    assert r.0 + "\n" + r.1 == t;
    SplitAtFirst(r.0, r.1, line, rest);
  }

  /** The first occurrence of `c` in `a + [c] + b` is the one after `a`. */
  lemma FirstIndex(a: string, c: char, b: string)
    requires c !in a
    ensures IndexOf(a + [c] + b, c) == |a|
  {
    var t := a + [c] + b;
    var r := IndexOf(t, c);
    assert t[|a|] == c;
    forall k | 0 <= k < |a| ensures t[k] != c {
      assert t[k] == a[k];
    }
  }

  lemma SplitAtFirst(a: string, b: string, x: string, y: string)
    requires '\n' !in a && '\n' !in x
    requires a + "\n" + b == x + "\n" + y
    ensures a == x && b == y
  {
    var t := a + "\n" + b;
    FirstIndex(a, '\n', b);
    FirstIndex(x, '\n', y);
    assert a == t[..|a|] && x == t[..|x|];
    assert b == t[|a| + 1..] && y == t[|x| + 1..];
  }

  /** isspace() of the C library. */
  predicate IsSpace(c: char) {
    c == ' ' || c == '\t' || c == '\n' || c == '\U{0B}' || c == '\U{0C}' || c == '\r'
  }

  predicate IsDigit(c: char) {
    '0' <= c <= '9'
  }

  predicate AllDigits(s: string) {
    forall i :: 0 <= i < |s| ==> IsDigit(s[i])
  }

  function DigitValue(c: char): (d: nat)
    requires IsDigit(c)
    ensures d < 10
  {
    (c as int) - ('0' as int)
  }

  function DigitChar(d: nat): (c: char)
    requires d < 10
    ensures IsDigit(c) && DigitValue(c) == d
  {
    (('0' as int) + d) as char
  }

  function SkipSpace(s: string): (r: string)
    ensures |r| <= |s| && r == s[|s| - |r|..]
    ensures r == [] || !IsSpace(r[0])
  {
    if s != [] && IsSpace(s[0]) then SkipSpace(s[1..]) else s
  }

  /** The longest run of decimal digits at the start of `s`. */
  function DigitPrefix(s: string): (r: string)
    ensures r <= s && AllDigits(r)
    ensures |r| == |s| || !IsDigit(s[|r|])
  {
    if s != [] && IsDigit(s[0]) then [s[0]] + DigitPrefix(s[1..]) else []
  }

  /** The value of a run of decimal digits, most significant first. */
  function DigitsValue(ds: string): nat
    requires AllDigits(ds)
  {
    if ds == [] then 0
    else DigitsValue(ds[..|ds| - 1]) * 10 + DigitValue(ds[|ds| - 1])
  }

  /**
    * atol (and atoi): leading white space skipped, an optional sign, then as
    * many decimal digits as follow; no digits give 0.
    */
  function Atol(s: string): int {
    var t := SkipSpace(s);
    if t != [] && t[0] == '-' then 0 - DigitsValue(DigitPrefix(t[1..])) as int
    else if t != [] && t[0] == '+' then DigitsValue(DigitPrefix(t[1..]))
    else DigitsValue(DigitPrefix(t))
  }

  /** Blank text reads as 0, and only a leading '-' gives a negative value. */
  lemma AtolSign(s: string)
    ensures SkipSpace(s) == [] ==> Atol(s) == 0
    ensures Atol(s) < 0 ==> SkipSpace(s) != [] && SkipSpace(s)[0] == '-'
  {
  }

  /** The decimal digits of `n`, without leading zeros; "0" for zero. */
  function Digits(n: nat): (ds: string)
    ensures ds != [] && AllDigits(ds)
  {
    if n < 10 then [DigitChar(n)] else Digits(n / 10) + [DigitChar(n % 10)]
  }

  /** String(long): the decimal text, with a '-' in front of a negative number. */
  function LongText(n: int): (r: string)
    ensures r != []
    ensures '\n' !in r && '\r' !in r && '=' !in r
  {
    var r := if n < 0 then "-" + Digits(-n) else Digits(n);
    assert forall i :: 0 <= i < |r| ==> r[i] == '-' || IsDigit(r[i]);
    r
  }

  lemma {:induction false} DigitsValueOfDigits(n: nat)
    ensures DigitsValue(Digits(n)) == n
  {
    if n >= 10 {
      var ds := Digits(n);
      assert ds[..|ds| - 1] == Digits(n / 10);
      DigitsValueOfDigits(n / 10);
    }
  }

  lemma {:induction false} DigitPrefixOfDigits(ds: string, tail: string)
    requires AllDigits(ds)
    requires tail == [] || !IsDigit(tail[0])
    ensures DigitPrefix(ds + tail) == ds
  {
    if ds == [] {
      assert ds + tail == tail;
    } else {
      assert (ds + tail)[1..] == ds[1..] + tail;
      DigitPrefixOfDigits(ds[1..], tail);
      assert ds == [ds[0]] + ds[1..];
    }
  }

  /** What String(long) prints, atol reads back, whatever non-digit text follows. */
  lemma AtolOfLongText(n: int, tail: string)
    requires tail == [] || !IsDigit(tail[0])
    ensures Atol(LongText(n) + tail) == n
  {
    if n < 0 {
      DigitsValueOfDigits(-n);
      AtolNegative(Digits(-n), tail);
      assert LongText(n) + tail == "-" + Digits(-n) + tail;
    } else {
      DigitsValueOfDigits(n);
      AtolDigits(Digits(n), tail);
    }
  }

  lemma AtolDigits(ds: string, tail: string)
    requires ds != [] && AllDigits(ds)
    requires tail == [] || !IsDigit(tail[0])
    ensures Atol(ds + tail) == DigitsValue(ds)
  {
    var s := ds + tail;
    assert s[0] == ds[0] && IsDigit(s[0]);
    assert !IsSpace(s[0]) && s[0] != '-' && s[0] != '+';
    assert SkipSpace(s) == s;
    DigitPrefixOfDigits(ds, tail);
    assert Atol(s) == DigitsValue(DigitPrefix(s));
  }

  lemma AtolNegative(ds: string, tail: string)
    requires AllDigits(ds)
    requires tail == [] || !IsDigit(tail[0])
    ensures Atol("-" + ds + tail) == 0 - DigitsValue(ds) as int
  {
    var s := "-" + ds + tail;
    assert SkipSpace(s) == s;
    assert s[1..] == ds + tail;
    DigitPrefixOfDigits(ds, tail);
  }
}
