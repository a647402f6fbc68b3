/** The few Python `str` operations the bot relies on, with Python's semantics. */
module PyStr {

  /** `t in s` for strings: `t` occurs as a contiguous substring of `s`. */
  function Contains(s: string, t: string): (b: bool)
    ensures b <==> exists i {:trigger s[i..]} :: 0 <= i <= |s| - |t| && s[i..][..|t|] == t
    decreases |s|
  {
    if |s| < |t| then false
    else if s[..|t|] == t then (assert s[0..] == s; true)
    else
      var r := Contains(s[1..], t);
      assert forall i :: 1 <= i <= |s| ==> s[i..] == s[1..][i - 1..];
      r
  }

  /** `s.startswith(p)`. */
  predicate StartsWith(s: string, p: string) {
    |p| <= |s| && s[..|p|] == p
  }

  /** `s[:n]` for a non-negative `n`. */
  function Take(s: string, n: nat): (r: string)
    ensures |r| == if n < |s| then n else |s|
    ensures r <= s
  {
    if n < |s| then s[..n] else s
  }

  /** `sep.join(parts)`. */
  function Join(parts: seq<string>, sep: string): string {
    if |parts| == 0 then ""
    else if |parts| == 1 then parts[0]
    else parts[0] + sep + Join(parts[1..], sep)
  }

  /** `s.split(c)` for a one-character separator: never empty. */
  function Split(s: string, c: char): (parts: seq<string>)
    ensures |parts| >= 1
  {
    if |s| == 0 then [""]
    else
      var rest := Split(s[1..], c);
      if s[0] == c then [""] + rest
      else [[s[0]] + rest[0]] + rest[1..]
  }

  /** The pieces of a split are free of the separator, and joined back with it they give
      the string. */
  lemma {:induction false} SplitJoin(s: string, c: char)
    ensures forall i :: 0 <= i < |Split(s, c)| ==> c !in Split(s, c)[i]
    ensures Join(Split(s, c), [c]) == s
  {
    if |s| > 0 {
      SplitJoin(s[1..], c);
      var rest := Split(s[1..], c);
      if s[0] == c {
        assert s == [c] + s[1..];
      } else {
        var parts := Split(s, c);
        assert parts[1..] == rest[1..];
        assert s == [s[0]] + s[1..];
      }
    }
  }

  /** Splitting at the first separator concatenates the two splits. */
  lemma {:induction false} SplitAround(a: string, c: char, b: string)
    requires c !in a
    ensures Split(a + [c] + b, c) == [a] + Split(b, c)
  {
    if |a| == 0 {
      assert a + [c] + b == [c] + b;
      assert ([c] + b)[1..] == b;
    } else {
      var s := a + [c] + b;
      assert s[1..] == a[1..] + [c] + b;
      SplitAround(a[1..], c, b);
      assert [a[0]] + a[1..] == a;
    }
  }

  /** Splitting a concatenation joined by the separator splits each side. */
  lemma {:induction false} SplitConcat(a: string, c: char, b: string)
    ensures Split(a + [c] + b, c) == Split(a, c) + Split(b, c)
  {
    var s := a + [c] + b;
    if |a| == 0 {
      assert s == [c] + b;
      assert s[1..] == b;
    } else {
      assert s[0] == a[0] && s[1..] == a[1..] + [c] + b;
      SplitConcat(a[1..], c, b);
      var p, q := Split(a[1..], c), Split(b, c);
      if a[0] != c {
        assert (p + q)[0] == p[0] && (p + q)[1..] == p[1..] + q;
      }
    }
  }

  /** A string without the separator splits into itself. */
  lemma {:induction false} SplitNoSep(a: string, c: char)
    requires c !in a
    ensures Split(a, c) == [a]
  {
    if |a| > 0 {
      SplitNoSep(a[1..], c);
      assert [a[0]] + a[1..] == a;
    }
  }

  /** Index of the first occurrence of `c` in `s`. */
  function FirstIndex(s: string, c: char): (i: nat)
    requires c in s
    ensures i < |s| && s[i] == c && c !in s[..i]
  {
    if s[0] == c then 0 else FirstIndex(s[1..], c) + 1
  }

  /** The characters Python's `str.isspace()` accepts. */
  predicate IsSpace(ch: char) {
    ch in {'\U{9}', '\U{A}', '\U{B}', '\U{C}', '\U{D}', '\U{1C}', '\U{1D}', '\U{1E}', '\U{1F}', '\U{20}', '\U{85}', '\U{A0}', '\U{1680}', '\U{2000}', '\U{2001}', '\U{2002}', '\U{2003}', '\U{2004}', '\U{2005}', '\U{2006}', '\U{2007}', '\U{2008}', '\U{2009}', '\U{200A}', '\U{2028}', '\U{2029}', '\U{202F}', '\U{205F}', '\U{3000}'}
  }

  /** `s.strip()`: the longest infix of `s` that neither starts nor ends with white space
      (`StripCutsOnlySpace` shows that everything cut off is white space). */
  function Strip(s: string): (r: string)
    ensures |r| <= |s|
    ensures r != [] ==> !IsSpace(r[0]) && !IsSpace(r[|r| - 1])
  {
    StripRight(StripLeft(s))
  }

  /** `s.lstrip()`: a suffix of `s` that does not start with white space. */
  function StripLeft(s: string): (r: string)
    ensures r != [] ==> !IsSpace(r[0])
    ensures exists i {:trigger s[i..]} :: 0 <= i <= |s| && s[i..] == r
  {
    if |s| > 0 && IsSpace(s[0]) then
      var r := StripLeft(s[1..]);
      assert forall i :: 0 <= i <= |s| - 1 ==> s[1..][i..] == s[i + 1..];
      r
    else (assert s[0..] == s; s)
  }

  /** `s.rstrip()`: a prefix of `s` that does not end with white space. */
  function StripRight(s: string): (r: string)
    ensures r <= s
    ensures r != [] ==> !IsSpace(r[|r| - 1])
  {
    if |s| > 0 && IsSpace(s[|s| - 1]) then StripRight(s[..|s| - 1]) else s
  }

  /** `StripLeft` cuts off only white space, so its result is the longest such suffix. */
  lemma {:induction false} StripLeftCutsOnlySpace(s: string)
    ensures var r := StripLeft(s);
            |r| <= |s| && s[|s| - |r|..] == r && forall k :: 0 <= k < |s| - |r| ==> IsSpace(s[k])
  {
    if |s| > 0 && IsSpace(s[0]) {
      var t := s[1..];
      StripLeftCutsOnlySpace(t);
      assert StripLeft(s) == StripLeft(t);
      var n := |t| - |StripLeft(t)|;
      assert t[n..] == s[n + 1..];
      forall k | 0 <= k < n + 1
        ensures IsSpace(s[k])
      {
        if k > 0 {
          assert s[k] == t[k - 1];
        }
      }
    }
  }

  /** `StripRight` cuts off only white space, so its result is the longest such prefix. */
  lemma {:induction false} StripRightCutsOnlySpace(s: string)
    ensures forall k :: |StripRight(s)| <= k < |s| ==> IsSpace(s[k])
  {
    if |s| > 0 && IsSpace(s[|s| - 1]) {
      StripRightCutsOnlySpace(s[..|s| - 1]);
    }
  }

  /** What `Strip` cuts off on either side of its result is white space. */
  lemma StripCutsOnlySpace(s: string)
    ensures var r := Strip(s);
            exists i {:trigger s[i..]} :: 0 <= i <= |s| - |r| && s[i..][..|r|] == r
              && (forall k :: 0 <= k < i ==> IsSpace(s[k]))
              && (forall k :: i + |r| <= k < |s| ==> IsSpace(s[k]))
  {
    var l := StripLeft(s);
    var r := StripRight(l);
    StripLeftCutsOnlySpace(s);
    StripRightCutsOnlySpace(l);
    var i := |s| - |l|;
    assert s[i..][..|r|] == r by {
      assert s[i..] == l;
    }
    forall k | i + |r| <= k < |s|
      ensures IsSpace(s[k])
    {
      assert s[k] == l[k - i];
    }
  }

  /** The decimal digits of a natural number. */
  function Digits(n: nat): (s: string)
    ensures |s| >= 1 && forall i :: 0 <= i < |s| ==> '0' <= s[i] <= '9'
  {
    var d := ['0' + (n % 10) as char];
    if n < 10 then d else Digits(n / 10) + d
  }

  /** `str(n)` for an integer: its digits, after a `-` when it is negative. */
  function IntToStr(n: int): (s: string)
    ensures |s| >= 1
    ensures s[0] == '-' <==> n < 0
  {
    if n < 0 then "-" + Digits(-n) else Digits(n)
  }

  /** The number a string of decimal digits denotes. */
  function DecimalValue(s: string): nat
    requires forall i :: 0 <= i < |s| ==> '0' <= s[i] <= '9'
  {
    if |s| == 0 then 0 else DecimalValue(s[..|s| - 1]) * 10 + (s[|s| - 1] as int - '0' as int)
  }

  /** `Digits` is the decimal numeral of `n`: it reads back to `n` and has no leading zero. */
  lemma {:induction false} DigitsReadBack(n: nat)
    ensures DecimalValue(Digits(n)) == n
    ensures n > 0 ==> Digits(n)[0] != '0'
  {
    var s := Digits(n);
    if n >= 10 {
      DigitsReadBack(n / 10);
      assert s[..|s| - 1] == Digits(n / 10);
      assert s[0] == Digits(n / 10)[0];
    }
  }

  /** `IntToStr` reads back to its number: the digits after an optional `-` denote `|n|`. */
  lemma IntToStrReadBack(n: int)
    ensures n >= 0 ==> DecimalValue(IntToStr(n)) == n
    ensures n < 0 ==> DecimalValue(IntToStr(n)[1..]) == -n
  {
    if n < 0 {
      var t := Digits(-n);
      assert IntToStr(n) == "-" + t;
      assert ("-" + t)[1..] == t;
      DigitsReadBack(-n);
    } else {
      DigitsReadBack(n);
    }
  }
}
