/** Decimal writing without leading zeros. */
module Decimals {
  import opened Wrappers

  function Digit(c: char): Option<nat> { if '0' <= c <= '9' then Some((c - '0') as nat) else None }

  function Value(s: string): Option<nat> {
    if s == "" then Some(0)
    else
      match (Value(s[..|s| - 1]), Digit(s[|s| - 1]))
      case (Some(v), Some(d)) => Some(10 * v + d)
      case _ => None
  }

  function Decimal(n: nat): string {
    if n == 0 then "" else Decimal(n / 10) + [(n % 10) as char + '0']
  }

  lemma {:induction false} ValueOfDecimal(n: nat)
    ensures Value(Decimal(n)) == Some(n)
    ensures n > 0 ==> Decimal(n) != "" && Decimal(n)[0] != '0'
  {
    if n > 0 {
      ValueOfDecimal(n / 10);
      var d := (n % 10) as char + '0';
      assert Decimal(n)[..|Decimal(n)| - 1] == Decimal(n / 10);
      assert Digit(d) == Some(n % 10);
    }
  }

  lemma {:induction false} DecimalOfValue(s: string)
    requires Value(s).Some? && (s != "" ==> s[0] != '0')
    ensures Decimal(Value(s).value) == s
  {
    if s != "" {
      var front := s[..|s| - 1];
      DecimalOfValue(front);
      var d := Digit(s[|s| - 1]).value;
      var v := Value(front).value;
      assert front != "" ==> v > 0 by { if v == 0 { assert Decimal(v) == ""; } }
      assert (10 * v + d) / 10 == v && (10 * v + d) % 10 == d;
      assert d as char + '0' == s[|s| - 1];
      assert s == front + [s[|s| - 1]];
    }
  }

  /** Whole numbers, negative ones with a sign. */
  function Text(n: int): string {
    if n == 0 then "0" else if n < 0 then "-" + Decimal(-n) else Decimal(n)
  }

  /** A number's text ends with a digit, and two numbers have two texts. */
  lemma TextIsInjective(m: int, n: int)
    ensures Text(m) == Text(n) ==> m == n
    ensures Text(n) != "" && Digit(Text(n)[|Text(n)| - 1]).Some?
  {
    ValueOfDecimal(if m < 0 then -m else m);
    ValueOfDecimal(if n < 0 then -n else n);
    NoSign(if m < 0 then -m else m);
    NoSign(if n < 0 then -n else n);
    if Text(m) == Text(n) && m < 0 && n < 0 {
      assert Text(m)[1..] == Decimal(-m) && Text(n)[1..] == Decimal(-n);
    }
  }

  lemma {:induction false} NoSign(n: nat)
    ensures forall i :: 0 <= i < |Decimal(n)| ==> '0' <= Decimal(n)[i] <= '9'
  {
    if n > 0 { NoSign(n / 10); }
  }
}
