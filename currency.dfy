/**
 * `formatar_moeda`: a dollar amount rendered with no decimals and a comma
 * between groups of three digits (Python's `${valor:,.0f}`), for whole
 * amounts. A reader of such strings recovers the amount exactly.
 */
module Currency {
  import opened Wrappers

  predicate IsDigit(c: char) {
    '0' <= c <= '9'
  }

  function DigitChar(d: nat): (c: char)
    requires d < 10
    ensures IsDigit(c) && (c as int) - ('0' as int) == d
  {
    (('0' as int) + d) as char
  }

  /** Decimal digits of `n`, most significant first, without leading zeros. */
  function Digits(n: nat): (s: string)
    ensures |s| > 0 && (forall i :: 0 <= i < |s| ==> IsDigit(s[i]))
    ensures n >= 10 ==> s[0] != '0'
    ensures n < 10 ==> s == [DigitChar(n)]
  {
    if n < 10 then [DigitChar(n)] else Digits(n / 10) + [DigitChar(n % 10)]
  }

  /** The three digits of a group, zero-padded on the left. */
  function Pad3(k: nat): (s: string)
    requires k < 1000
    ensures |s| == 3 && (forall i :: 0 <= i < 3 ==> IsDigit(s[i]))
  {
    [DigitChar(k / 100), DigitChar(k / 10 % 10), DigitChar(k % 10)]
  }

  /** `n` in digits with a comma before every group of three from the right. */
  function Grouped(n: nat): (s: string)
    ensures |s| > 0 && IsDigit(s[0]) && (n > 0 ==> s[0] != '0')
    ensures forall i :: 0 <= i < |s| ==> IsDigit(s[i]) || s[i] == ','
    ensures n == 0 ==> s == "0"
  {
    if n < 1000 then Digits(n) else Grouped(n / 1000) + "," + Pad3(n % 1000)
  }

  /** The amount `$1,234` for 1234, and `$-1,234` for its negation, as Python prints it. */
  function FormatCurrency(n: int): (s: string)
    ensures |s| >= 2 && s[0] == '$'
    ensures n < 0 <==> s[1] == '-'
    ensures n == 0 ==> s == "$0"
    ensures var magnitude := s[if n < 0 then 2 else 1..];
      |magnitude| > 0 && IsDigit(magnitude[0]) && (n != 0 ==> magnitude[0] != '0') &&
      (forall i :: 0 <= i < |magnitude| ==> IsDigit(magnitude[i]) || magnitude[i] == ',') &&
      CommasEveryFour(magnitude) && Value(magnitude) == if n < 0 then -n else n
  {
    var m := if n < 0 then -n else n;
    GroupedCommas(m);
    GroupedValue(m);
    if n < 0 then "$-" + Grouped(m) else "$" + Grouped(m)
  }

  /** The number the digits of `s` spell, commas skipped. */
  function Value(s: string): nat {
    if |s| == 0 then 0
    else
      var c := s[|s| - 1];
      if IsDigit(c) then Value(s[..|s| - 1]) * 10 + ((c as int) - ('0' as int))
      else Value(s[..|s| - 1])
  }

  /** A currency string back to its amount; None when it is not one. */
  function ParseCurrency(s: string): Option<int> {
    if |s| >= 2 && s[0] == '$' then
      if s[1] == '-' then Some(-(Value(s[2..]) as int)) else Some(Value(s[1..]) as int)
    else None
  }

  lemma ValueDigit(a: string, d: nat)
    requires d < 10
    ensures Value(a + [DigitChar(d)]) == Value(a) * 10 + d
  {
    assert (a + [DigitChar(d)])[..|a|] == a;
  }

  lemma ValueComma(a: string)
    ensures Value(a + ",") == Value(a)
  {
    assert (a + ",")[..|a|] == a;
  }

  lemma {:induction false} DigitsValue(n: nat)
    ensures Value(Digits(n)) == n
  {
    if n < 10 {
      ValueDigit([], n);
      assert [] + [DigitChar(n)] == [DigitChar(n)];
    } else {
      DigitsValue(n / 10);
      ValueDigit(Digits(n / 10), n % 10);
      assert Digits(n) == Digits(n / 10) + [DigitChar(n % 10)];
      assert n == (n / 10) * 10 + n % 10;
    }
  }

  lemma ValuePad3(a: string, k: nat)
    requires k < 1000
    ensures Value(a + Pad3(k)) == Value(a) * 1000 + k
  {
    var d0, d1, d2 := DigitChar(k / 100), DigitChar(k / 10 % 10), DigitChar(k % 10);
    assert a + Pad3(k) == a + [d0] + [d1] + [d2];
    ValueDigit(a, k / 100);
    ValueDigit(a + [d0], k / 10 % 10);
    ValueDigit(a + [d0] + [d1], k % 10);
  }

  /** Reading the grouped digits gives the number back. */
  lemma {:induction false} GroupedValue(n: nat)
    ensures Value(Grouped(n)) == n
  {
    if n < 1000 {
      DigitsValue(n);
    } else {
      var g := Grouped(n / 1000);
      GroupedValue(n / 1000);
      ValueComma(g);
      ValuePad3(g + ",", n % 1000);
    }
  }

  lemma DigitsShort(n: nat)
    requires n < 1000
    ensures |Digits(n)| <= 3
  {
    if n >= 10 {
      DigitsShort(n / 10);
    }
  }

  /**
   * The commas of `s` sit before every group of three digits counted from
   * the right: position i holds a comma exactly when the characters from i to
   * the end number a multiple of four.
   */
  predicate CommasEveryFour(s: string) {
    forall i :: 0 <= i < |s| ==> (s[i] == ',' <==> (|s| - i) % 4 == 0)
  }

  lemma {:induction false} GroupedCommas(n: nat)
    ensures CommasEveryFour(Grouped(n))
  {
    if n < 1000 {
      DigitsShort(n);
    } else {
      GroupedCommas(n / 1000);
      AppendGroupCommas(Grouped(n / 1000), n % 1000);
    }
  }

  lemma AppendGroupCommas(g: string, k: nat)
    requires k < 1000 && CommasEveryFour(g)
    ensures CommasEveryFour(g + "," + Pad3(k))
  {
    var t := "," + Pad3(k);
    var s := g + t;
    forall i | 0 <= i < |s|
      ensures s[i] == ',' <==> (|s| - i) % 4 == 0
    {
      if i < |g| {
        assert s[i] == g[i];
        assert |s| - i == (|g| - i) + 4;
      } else {
        assert s[i] == t[i - |g|];
      }
    }
  }

  /** Parsing a formatted amount recovers it. */
  lemma FormatParse(n: int)
    ensures ParseCurrency(FormatCurrency(n)) == Some(n)
  {
    var s := FormatCurrency(n);
    if n < 0 {
      assert s[2..] == Grouped(-n);
      GroupedValue(-n);
    } else {
      assert s[1..] == Grouped(n);
      GroupedValue(n);
    }
  }

  /** Distinct amounts print differently. */
  lemma FormatInjective(a: int, b: int)
    requires FormatCurrency(a) == FormatCurrency(b)
    ensures a == b
  {
    FormatParse(a);
    FormatParse(b);
  }
}
