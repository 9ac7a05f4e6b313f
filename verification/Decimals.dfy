/** Integers as decimal text, the way `%d` prints them. */
module Decimals {

  function Digit(d: nat): char
    requires d < 10
  {
    '0' + d as char
  }

  function DecimalNat(n: nat): string {
    if n < 10 then [Digit(n)] else DecimalNat(n / 10) + [Digit(n % 10)]
  }

  function Decimal(n: int): string { if n < 0 then "-" + DecimalNat(-n) else DecimalNat(n) }

  function Value(s: string): int
    requires forall i :: 0 <= i < |s| ==> '0' <= s[i] <= '9'
  {
    if s == "" then 0 else Value(s[..|s| - 1]) * 10 + (s[|s| - 1] - '0') as int
  }

  lemma {:induction false} DigitsOnly(n: nat)
    ensures DecimalNat(n) != "" && forall i :: 0 <= i < |DecimalNat(n)| ==> '0' <= DecimalNat(n)[i] <= '9'
  {
    if n >= 10 { DigitsOnly(n / 10); }
  }

  lemma {:induction false} ValueOfDecimal(n: nat)
    requires forall i :: 0 <= i < |DecimalNat(n)| ==> '0' <= DecimalNat(n)[i] <= '9'
    ensures Value(DecimalNat(n)) == n
  {
    var s := DecimalNat(n);
    if n >= 10 {
      DigitsOnly(n / 10);
      ValueOfDecimal(n / 10);
      assert s[..|s| - 1] == DecimalNat(n / 10);
    } else {
      assert s[..0] == "";
      assert Value(s[..0]) == 0;
    }
  }

  lemma DecimalInjective(m: int, n: int)
    ensures Decimal(m) == Decimal(n) ==> m == n
    ensures '|' !in Decimal(n)
  {
    var p, q := if m < 0 then -m else m, if n < 0 then -n else n;
    DigitsOnly(p);
    DigitsOnly(q);
    ValueOfDecimal(p);
    ValueOfDecimal(q);
    if Decimal(m) == Decimal(n) {
      assert Decimal(m)[0] == Decimal(n)[0];
      assert m < 0 <==> n < 0;
      if m < 0 { assert Decimal(m)[1..] == DecimalNat(p) && Decimal(n)[1..] == DecimalNat(q); }
    }
  }
}
