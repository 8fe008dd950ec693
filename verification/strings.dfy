/** String facts the error texts rely on: substring search (Go's
    strings.Contains) and the decimal rendering fmt's `%d` verb gives an int,
    together with its parser, which shows that the rendering loses nothing. */
module Strings {
  import opened Results

  /** `p` is a prefix of `s`. */
  predicate StartsWith(s: string, p: string)
  {
    |p| <= |s| && s[..|p|] == p
  }

  /** `sub` occurs somewhere inside `s`. */
  predicate Mentions(s: string, sub: string)
  {
    exists i :: 0 <= i <= |s| && StartsWith(s[i..], sub)
  }

  /** A prefix is mentioned. */
  lemma MentionsPrefix(s: string, p: string)
    requires StartsWith(s, p)
    ensures Mentions(s, p)
  {
    assert s[0..] == s;
  }

  /** Text that is mentioned by `t` stays mentioned when `t` is surrounded
      by more text. */
  lemma MentionsWithin(a: string, t: string, b: string, sub: string)
    requires Mentions(t, sub)
    ensures Mentions(a + t + b, sub)
  {
    var i :| 0 <= i <= |t| && StartsWith(t[i..], sub);
    var s := a + t + b;
    forall k | 0 <= k < |sub|
      ensures s[|a| + i + k] == sub[k]
    {
      assert t[i..][..|sub|][k] == t[i + k];
    }
    assert s[|a| + i..][..|sub|] == sub;
    assert StartsWith(s[|a| + i..], sub);
  }

  /** Text mentioned by `t` stays mentioned when more text comes before `t`. */
  lemma MentionsAfter(a: string, t: string, sub: string)
    requires Mentions(t, sub)
    ensures Mentions(a + t, sub)
  {
    var i :| 0 <= i <= |t| && StartsWith(t[i..], sub);
    var s := a + t;
    forall k | 0 <= k < |sub|
      ensures s[|a| + i + k] == sub[k]
    {
      assert t[i..][..|sub|][k] == t[i + k];
    }
    assert s[|a| + i..][..|sub|] == sub;
    assert StartsWith(s[|a| + i..], sub);
  }

  /** Every string mentions itself. */
  lemma MentionsSelf(s: string)
    ensures Mentions(s, s)
  {
    assert StartsWith(s[0..], s);
  }

  /** Substring occurrence is transitive. */
  lemma MentionsTransitive(s: string, t: string, u: string)
    requires Mentions(s, t) && Mentions(t, u)
    ensures Mentions(s, u)
  {
    var i :| 0 <= i <= |s| && StartsWith(s[i..], t);
    var j :| 0 <= j <= |t| && StartsWith(t[j..], u);
    forall k | 0 <= k < |u|
      ensures s[i + j + k] == u[k]
    {
      assert s[i..][..|t|][j + k] == t[j + k];
      assert t[j..][..|u|][k] == u[k];
    }
    assert s[i + j..][..|u|] == u;
    assert StartsWith(s[i + j..], u);
  }

  predicate IsDigit(c: char)
  {
    '0' <= c <= '9'
  }

  predicate AllDigits(s: string)
  {
    forall i :: 0 <= i < |s| ==> IsDigit(s[i])
  }

  function DigitChar(d: nat): (c: char)
    requires d < 10
    ensures IsDigit(c)
  {
    ('0' as int + d) as char
  }

  function DigitValue(c: char): (d: nat)
    requires IsDigit(c)
    ensures d < 10 && DigitChar(d) == c
  {
    c as int - '0' as int
  }

  /** Decimal digits of `n`, most significant first, with no leading zero. */
  function Digits(n: nat): (r: string)
    ensures |r| >= 1 && AllDigits(r)
    ensures r[0] == '0' ==> n == 0
    decreases n
  {
    if n < 10 then [DigitChar(n)] else Digits(n / 10) + [DigitChar(n % 10)]
  }

  /** The number a string of decimal digits denotes. */
  function DigitsValue(s: string): nat
    requires AllDigits(s)
  {
    if |s| == 0 then 0 else DigitsValue(s[..|s| - 1]) * 10 + DigitValue(s[|s| - 1])
  }

  lemma {:induction false} DigitsRoundTrip(n: nat)
    ensures DigitsValue(Digits(n)) == n
    decreases n
  {
    if n >= 10 {
      var s := Digits(n);
      assert s[..|s| - 1] == Digits(n / 10);
      assert DigitValue(DigitChar(n % 10)) == n % 10;
      DigitsRoundTrip(n / 10);
    }
  }

  /** What `fmt.Sprintf("%d", n)` prints: a minus sign exactly for negative
      numbers, then the digits of the magnitude. */
  function FormatInt(n: int): (r: string)
    ensures |r| >= 1
    ensures StartsWith(r, "-") <==> n < 0
  {
    if n < 0 then "-" + Digits(-n) else Digits(n)
  }

  /** Reads back an optionally signed decimal integer; None for anything else. */
  function ParseInt(s: string): Option<int>
  {
    if |s| >= 2 && s[0] == '-' && AllDigits(s[1..]) then Some(-(DigitsValue(s[1..]) as int))
    else if |s| >= 1 && AllDigits(s) then Some(DigitsValue(s))
    else None
  }

  lemma FormatIntRoundTrip(n: int)
    ensures ParseInt(FormatInt(n)) == Some(n)
  {
    var s := FormatInt(n);
    if n < 0 {
      assert s[0] == '-' && s[1..] == Digits(-n);
      DigitsRoundTrip(-n);
    } else {
      assert IsDigit(s[0]);
      DigitsRoundTrip(n);
    }
  }

  /** Different numbers print differently. */
  lemma FormatIntInjective(m: int, n: int)
    requires FormatInt(m) == FormatInt(n)
    ensures m == n
  {
    FormatIntRoundTrip(m);
    FormatIntRoundTrip(n);
  }
}
