/** The string operations the scripts rely on: Python's `str()` of an integer,
    Python 2's `int()` of a string, and `str.split` with an explicit separator. */
module Text {
  import opened Common

  predicate IsDigit(c: char) { '0' <= c <= '9' }

  /** C's `isspace` in the "C" locale: space, tab, newline, vertical tab,
      form feed, carriage return. */
  predicate IsSpace(c: char) { c == ' ' || 9 <= c as int <= 13 }

  predicate AllDigits(s: string) { forall k :: 0 <= k < |s| ==> IsDigit(s[k]) }

  predicate AllSpace(s: string) { forall k :: 0 <= k < |s| ==> IsSpace(s[k]) }

  function DigitChar(d: nat): (c: char)
    requires d < 10
    ensures IsDigit(c) && DigitValue(c) == d
  {
    ('0' as int + d) as char
  }

  function DigitValue(c: char): nat
    requires IsDigit(c)
  {
    c as int - '0' as int
  }

  // ---------------------------------------------------------------------------
  // Decimal rendering: Python's str() on an int
  // ---------------------------------------------------------------------------

  /** `str(n)` for a non-negative integer: decimal digits without leading zeros. */
  function NatToString(n: nat): (s: string)
    ensures |s| >= 1 && AllDigits(s)
    ensures |s| == 1 <==> n < 10
    ensures s[0] == '0' <==> n == 0
    decreases n
  {
    if n < 10 then [DigitChar(n)] else NatToString(n / 10) + [DigitChar(n % 10)]
  }

  /** `str(k)` for any integer: a minus sign in front of negative values. */
  function IntToString(k: int): (s: string)
    ensures |s| >= 1
    ensures k >= 0 ==> AllDigits(s)
    ensures k < 0 ==> s[0] == '-' && |s| >= 2 && AllDigits(s[1..])
  {
    if k < 0 then "-" + NatToString(-k) else NatToString(k)
  }

  /** The value of a string of decimal digits (leading zeros allowed). */
  function DigitsValue(s: string): nat
    requires AllDigits(s)
  {
    if |s| == 0 then 0 else DigitsValue(s[..|s| - 1]) * 10 + DigitValue(s[|s| - 1])
  }

  /** Reading back what `str()` wrote gives the number again. */
  lemma {:induction false} NatToStringRoundTrip(n: nat)
    ensures DigitsValue(NatToString(n)) == n
    decreases n
  {
    if n >= 10 {
      var s := NatToString(n / 10);
      var t := NatToString(n);
      assert t == s + [DigitChar(n % 10)];
      assert t[..|t| - 1] == s;
      NatToStringRoundTrip(n / 10);
    }
  }

  /** Distinct numbers have distinct decimal renderings. */
  lemma NatToStringInjective(a: nat, b: nat)
    ensures NatToString(a) == NatToString(b) ==> a == b
  {
    NatToStringRoundTrip(a);
    NatToStringRoundTrip(b);
  }

  // ---------------------------------------------------------------------------
  // Python 2 int() on a str, base 10
  // ---------------------------------------------------------------------------

  /** Drops leading whitespace. */
  function SkipSpace(s: string): (r: string)
    ensures |r| <= |s|
    ensures |r| > 0 ==> !IsSpace(r[0])
  {
    if |s| > 0 && IsSpace(s[0]) then SkipSpace(s[1..]) else s
  }

  /** The longest prefix made of decimal digits. */
  function TakeDigits(s: string): (r: string)
    ensures |r| <= |s| && AllDigits(r)
  {
    if |s| > 0 && IsDigit(s[0]) then [s[0]] + TakeDigits(s[1..]) else []
  }

  /** Digits followed by nothing but whitespace; `None` otherwise. */
  function ParseUnsigned(c: string): (r: Option<nat>)
    ensures r.Some? ==> |c| > 0 && IsDigit(c[0])
  {
    var digits := TakeDigits(c);
    if |digits| == 0 || !AllSpace(c[|digits|..]) then None else Some(DigitsValue(digits))
  }

  /** Python 2's `int(s)`: optional surrounding whitespace, an optional sign,
      optional whitespace after the sign, then at least one decimal digit.
      `None` is the `ValueError` it raises on anything else. */
  function ParseInt(s: string): (r: Option<int>)
  {
    var a := SkipSpace(s);
    var signed := |a| > 0 && (a[0] == '-' || a[0] == '+');
    var c := SkipSpace(if signed then a[1..] else a);
    match ParseUnsigned(c)
    case None => None
    case Some(v) =>
      var k: int := if signed && a[0] == '-' then -(v as int) else v;
      Some(k)
  }

  lemma SkipSpacePadded(pre: string, t: string)
    requires AllSpace(pre)
    requires |t| > 0 && !IsSpace(t[0])
    ensures SkipSpace(pre + t) == t
  {
    if |pre| > 0 {
      assert (pre + t)[1..] == pre[1..] + t;
      SkipSpacePadded(pre[1..], t);
    }
  }

  lemma TakeDigitsFollowedBy(d: string, post: string)
    requires AllDigits(d)
    requires |post| > 0 ==> !IsDigit(post[0])
    ensures TakeDigits(d + post) == d
  {
    if |d| > 0 {
      assert (d + post)[1..] == d[1..] + post;
      TakeDigitsFollowedBy(d[1..], post);
    }
  }

  lemma ParseUnsignedRoundTrip(n: nat, post: string)
    requires AllSpace(post)
    ensures ParseUnsigned(NatToString(n) + post) == Some(n)
  {
    var d := NatToString(n);
    assert |post| > 0 ==> IsSpace(post[0]);
    TakeDigitsFollowedBy(d, post);
    assert (d + post)[|d|..] == post;
    NatToStringRoundTrip(n);
  }

  lemma ParseIntUnpadded(k: int, post: string)
    requires AllSpace(post)
    ensures ParseInt(IntToString(k) + post) == Some(k)
  {
    var n: nat := if k < 0 then -k else k;
    var t := IntToString(k) + post;
    var c := NatToString(n) + post;
    assert SkipSpace(t) == t by {
      SkipSpacePadded([], t);
      assert [] + t == t;
    }
    assert SkipSpace(c) == c by {
      SkipSpacePadded([], c);
      assert [] + c == c;
    }
    if k < 0 {
      assert t[1..] == c;
    } else {
      assert t == c;
    }
    ParseUnsignedRoundTrip(n, post);
  }

  /** `int(str(k))` is `k`, however much whitespace surrounds the rendering. */
  lemma ParseIntRoundTrip(pre: string, k: int, post: string)
    requires AllSpace(pre) && AllSpace(post)
    ensures ParseInt(pre + IntToString(k) + post) == Some(k)
  {
    var t := IntToString(k) + post;
    assert pre + IntToString(k) + post == pre + t;
    SkipSpacePadded(pre, t);
    SkipSpacePadded([], t);
    assert [] + t == t;
    ParseIntUnpadded(k, post);
  }

  /** What is left after skipping whitespace is a suffix of the input. */
  lemma {:induction false} SkipSpaceSuffix(s: string)
    ensures SkipSpace(s) == s[|s| - |SkipSpace(s)|..]
    decreases |s|
  {
    if |s| > 0 && IsSpace(s[0]) {
      SkipSpaceSuffix(s[1..]);
      assert s[1..][|s| - 1 - |SkipSpace(s[1..])|..] == s[|s| - |SkipSpace(s)|..];
    }
  }

  /** `int()` raises on any string with no decimal digit in it. */
  lemma ParseIntNeedsDigit(s: string)
    requires forall k :: 0 <= k < |s| ==> !IsDigit(s[k])
    ensures ParseInt(s) == None
  {
    var a := SkipSpace(s);
    SkipSpaceSuffix(s);
    var signed := |a| > 0 && (a[0] == '-' || a[0] == '+');
    var b := if signed then a[1..] else a;
    var c := SkipSpace(b);
    SkipSpaceSuffix(b);
    if |c| > 0 {
      assert c[0] == s[|s| - |c|];
    }
  }

  // ---------------------------------------------------------------------------
  // str.split with an explicit one-character separator
  // ---------------------------------------------------------------------------

  /** Glues fields back together with the separator between neighbours. */
  function Join(fields: seq<string>, sep: char): string
    requires |fields| >= 1
  {
    if |fields| == 1 then fields[0] else fields[0] + [sep] + Join(fields[1..], sep)
  }

  lemma JoinCons(c: char, f: string, rest: seq<string>, sep: char)
    ensures Join([[c] + f] + rest, sep) == [c] + Join([f] + rest, sep)
  {
    if |rest| > 0 {
      assert ([[c] + f] + rest)[1..] == rest;
      assert ([f] + rest)[1..] == rest;
    }
  }

  /** Python's `s.split(sep)`: every occurrence of `sep` ends a field, so a
      string with m separators has m + 1 fields, empty ones included. */
  function Split(s: string, sep: char): (fields: seq<string>)
    ensures |fields| >= 1
    ensures forall k :: 0 <= k < |fields| ==> sep !in fields[k]
    ensures Join(fields, sep) == s
    decreases |s|
  {
    if |s| == 0 then [""]
    else
      var rest := Split(s[1..], sep);
      if s[0] == sep then
        assert ([""] + rest)[1..] == rest;
        [""] + rest
      else
        JoinCons(s[0], rest[0], rest[1..], sep);
        assert [rest[0]] + rest[1..] == rest;
        [[s[0]] + rest[0]] + rest[1..]
  }

  lemma {:induction false} SplitNoSeparator(f: string, sep: char)
    requires sep !in f
    ensures Split(f, sep) == [f]
    decreases |f|
  {
    if |f| > 0 {
      SplitNoSeparator(f[1..], sep);
      assert [f[0]] + f[1..] == f;
    }
  }

  lemma {:induction false} SplitAtFirst(a: string, b: string, sep: char)
    requires sep !in a
    ensures Split(a + [sep] + b, sep) == [a] + Split(b, sep)
    decreases |a|
  {
    var s := a + [sep] + b;
    if |a| == 0 {
      assert s[1..] == b;
    } else {
      assert s[1..] == a[1..] + [sep] + b;
      SplitAtFirst(a[1..], b, sep);
      assert [a[0]] + a[1..] == a;
    }
  }

  /** Splitting what was joined from separator-free fields gives the fields back. */
  lemma {:induction false} SplitJoinRoundTrip(fields: seq<string>, sep: char)
    requires |fields| >= 1
    requires forall k :: 0 <= k < |fields| ==> sep !in fields[k]
    ensures Split(Join(fields, sep), sep) == fields
    decreases |fields|
  {
    if |fields| == 1 {
      SplitNoSeparator(fields[0], sep);
    } else {
      SplitAtFirst(fields[0], Join(fields[1..], sep), sep);
      SplitJoinRoundTrip(fields[1..], sep);
      assert [fields[0]] + fields[1..] == fields;
    }
  }
}
