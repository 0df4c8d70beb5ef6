/**
  Decimal conversion of integers as Go's strconv package performs it:
  Itoa renders an int in base ten with a leading '-' for negatives, and
  Atoi accepts an optional sign followed by one or more decimal digits.
  Integers are unbounded here, so Atoi's out-of-range error is not modelled.
*/
module Strconv {
  import opened Wrappers

  predicate IsDigit(c: char) {
    '0' <= c <= '9'
  }

  predicate AllDigits(s: string) {
    forall i :: 0 <= i < |s| ==> IsDigit(s[i])
  }

  function DigitChar(d: nat): (c: char)
    requires d < 10
    ensures IsDigit(c)
  {
    ('0' as int + d) as char
  }

  function DigitValue(c: char): nat
    requires IsDigit(c)
  {
    c as int - '0' as int
  }

  /** The decimal digits of n, most significant first, without leading zeros. */
  function NatDigits(n: nat): (s: string)
    ensures |s| >= 1 && AllDigits(s)
    ensures n >= 10 ==> |s| >= 2
    ensures |s| >= 3 <==> n >= 100
    decreases n
  {
    if n < 10 then [DigitChar(n)] else NatDigits(n / 10) + [DigitChar(n % 10)]
  }

  /** The value of a string of decimal digits, read most significant first. */
  function DigitsValue(s: string): nat
    requires AllDigits(s)
    decreases |s|
  {
    if s == [] then 0 else DigitsValue(s[..|s| - 1]) * 10 + DigitValue(s[|s| - 1])
  }

  /** strconv.Itoa */
  function Itoa(n: int): (s: string)
    ensures |s| >= 1
  {
    if n < 0 then "-" + NatDigits(-n) else NatDigits(n)
  }

  /** strconv.Atoi: None stands for the syntax error Go returns (with the value 0). */
  function Atoi(s: string): (r: Option<int>)
    ensures r.Some? ==> s != ""
    ensures s != "" && AllDigits(s) ==> r == Some(DigitsValue(s))
  {
    if s == [] then None
    else if s[0] == '-' || s[0] == '+' then
      var rest := s[1..];
      if rest != [] && AllDigits(rest) then
        var v: int := DigitsValue(rest);
        Some(if s[0] == '-' then -v else v)
      else None
    else if AllDigits(s) then Some(DigitsValue(s))
    else None
  }

  lemma {:induction false} DigitsValueOfNatDigits(n: nat)
    ensures DigitsValue(NatDigits(n)) == n
    decreases n
  {
    if n >= 10 {
      var s := NatDigits(n);
      assert s[..|s| - 1] == NatDigits(n / 10);
      DigitsValueOfNatDigits(n / 10);
    }
  }

  /** Atoi undoes Itoa for every integer. */
  lemma AtoiItoa(n: int)
    ensures Atoi(Itoa(n)) == Some(n)
  {
    if n < 0 {
      AtoiOfNegative(NatDigits(-n));
      DigitsValueOfNatDigits(-n);
    } else {
      DigitsValueOfNatDigits(n);
    }
  }

  lemma AtoiOfNegative(d: string)
    requires d != [] && AllDigits(d)
    ensures Atoi("-" + d) == Some(-(DigitsValue(d) as int))
  {
    var s := "-" + d;
    assert s[0] == '-';
    assert s[1..] == d;
  }

  lemma ItoaInjective(a: int, b: int)
    ensures Itoa(a) == Itoa(b) ==> a == b
  {
    AtoiItoa(a);
    AtoiItoa(b);
  }

  /** A code of six decimal digits starts with the digits of its thousands. */
  lemma {:induction false} SixDigitPrefix(n: int)
    requires 100000 <= n <= 999999
    ensures |Itoa(n)| == 6
    ensures Itoa(n)[..3] == NatDigits(n / 1000)
  {
    var m := n / 1000;
    assert NatDigits(m) == NatDigits(m / 100) + [DigitChar(m / 10 % 10)] + [DigitChar(m % 10)] by {
      assert NatDigits(m) == NatDigits(m / 10) + [DigitChar(m % 10)];
      assert m / 10 / 10 == m / 100;
    }
    assert |NatDigits(m)| == 3;
    assert n / 10 / 10 == n / 100;
    assert n / 100 / 10 == m;
    assert NatDigits(n) == NatDigits(m) + [DigitChar(n / 100 % 10)] + [DigitChar(n / 10 % 10)] + [DigitChar(n % 10)] by {
      assert NatDigits(n) == NatDigits(n / 10) + [DigitChar(n % 10)];
      assert NatDigits(n / 10) == NatDigits(n / 100) + [DigitChar(n / 10 % 10)];
      assert NatDigits(n / 100) == NatDigits(m) + [DigitChar(n / 100 % 10)];
    }
  }

  /** The first three characters of any Itoa output with at least three characters parse with Atoi. */
  lemma PrefixOfItoaParses(n: int)
    requires |Itoa(n)| >= 3
    ensures Atoi(Itoa(n)[..3]).Some?
  {
    var s := Itoa(n);
    if n < 0 {
      var d := NatDigits(-n);
      assert s[..3] == "-" + d[..2];
      assert AllDigits(d[..2]);
    } else {
      assert AllDigits(s[..3]);
    }
  }
}
