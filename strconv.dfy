/**
 * Decimal rendering of integers as Go's strconv.Itoa writes it, together with the parser
 * that inverts it. The stored record holds quantum costs and vector elements in this form.
 */
module Strconv {
  import opened Opt

  predicate IsDigit(c: char) {
    '0' <= c <= '9'
  }

  predicate AllDigits(s: string) {
    forall i :: 0 <= i < |s| ==> IsDigit(s[i])
  }

  function DigitChar(d: nat): (c: char)
    requires d < 10
    ensures IsDigit(c)
  {
    ('0' as int + d) as char
  }

  function DigitValue(c: char): (d: nat)
    requires IsDigit(c)
    ensures d < 10 && DigitChar(d) == c
  {
    c as int - '0' as int
  }

  /** A canonical unsigned decimal: at least one digit, and no leading zero unless it is "0". */
  predicate IsDecimal(d: string) {
    |d| >= 1 && AllDigits(d) && (d[0] == '0' ==> |d| == 1)
  }

  /** The digits of n, most significant first. */
  function NatToDecimal(n: nat): (s: string)
    ensures IsDecimal(s)
    ensures s == "0" <==> n == 0
    decreases n
  {
    if n < 10 then [DigitChar(n)] else NatToDecimal(n / 10) + [DigitChar(n % 10)]
  }

  /** The number a string of digits denotes. */
  function DecimalValue(s: string): nat
    requires AllDigits(s)
  {
    if s == [] then 0 else DecimalValue(s[..|s| - 1]) * 10 + DigitValue(s[|s| - 1])
  }

  /** strconv.Itoa: an optional '-' followed by the decimal digits of the magnitude. */
  function Itoa(i: int): (s: string)
    ensures |s| >= 1
    ensures s[0] == '-' <==> i < 0
    ensures forall k :: 0 <= k < |s| ==> s[k] != ',' && s[k] != ' '
  {
    if i < 0 then "-" + NatToDecimal(-i) else NatToDecimal(i)
  }

  /** The strings Itoa can produce: a canonical decimal, with a '-' only before a nonzero one. */
  predicate IsCanonicalInt(s: string) {
    if |s| >= 1 && s[0] == '-' then IsDecimal(s[1..]) && s[1..] != "0" else IsDecimal(s)
  }

  /** The inverse of Itoa: the integer a canonical literal denotes, and None for anything else. */
  function ParseInt(s: string): Option<int> {
    if !IsCanonicalInt(s) then None
    else if s[0] == '-' then Some(-(DecimalValue(s[1..]) as int))
    else Some(DecimalValue(s))
  }

  lemma {:induction false} DecimalRoundTrip(n: nat)
    ensures DecimalValue(NatToDecimal(n)) == n
  {
    if n >= 10 {
      var p := NatToDecimal(n / 10);
      var s := p + [DigitChar(n % 10)];
      assert s[..|s| - 1] == p;
      DecimalRoundTrip(n / 10);
    }
  }

  lemma {:induction false} DecimalValuePositive(d: string)
    requires |d| >= 1 && AllDigits(d) && d[0] != '0'
    ensures DecimalValue(d) >= 1
  {
    if |d| > 1 {
      var p := d[..|d| - 1];
      assert p[0] == d[0];
      DecimalValuePositive(p);
    }
  }

  lemma {:induction false} DecimalParseRoundTrip(d: string)
    requires IsDecimal(d)
    ensures NatToDecimal(DecimalValue(d)) == d
  {
    var p := d[..|d| - 1];
    if |d| > 1 {
      assert p[0] == d[0];
      assert IsDecimal(p);
      DecimalValuePositive(p);
      DecimalParseRoundTrip(p);
      var n := DecimalValue(d);
      assert n / 10 == DecimalValue(p) && n % 10 == DigitValue(d[|d| - 1]);
      assert d == p + [d[|d| - 1]];
    }
  }

  lemma ItoaRoundTrip(i: int)
    ensures ParseInt(Itoa(i)) == Some(i)
  {
    if i < 0 {
      assert Itoa(i)[1..] == NatToDecimal(-i);
      DecimalRoundTrip(-i);
    } else {
      DecimalRoundTrip(i);
    }
  }

  lemma ItoaOfParse(s: string, i: int)
    requires ParseInt(s) == Some(i)
    ensures Itoa(i) == s
  {
    if s[0] == '-' {
      DecimalParseRoundTrip(s[1..]);
      assert s == [s[0]] + s[1..];
    } else {
      DecimalParseRoundTrip(s);
    }
  }

  /** Itoa and ParseInt are inverse bijections between the integers and the canonical literals. */
  lemma ItoaParseInt(i: int, s: string)
    ensures ParseInt(s) == Some(i) <==> s == Itoa(i)
  {
    if s == Itoa(i) {
      ItoaRoundTrip(i);
    }
    if ParseInt(s) == Some(i) {
      ItoaOfParse(s, i);
    }
  }

  /** Distinct integers render differently, so a stored decimal determines its integer. */
  lemma ItoaInjective(i: int, j: int)
    ensures Itoa(i) == Itoa(j) ==> i == j
  {
    ItoaParseInt(i, Itoa(i));
    ItoaParseInt(j, Itoa(j));
  }
}
