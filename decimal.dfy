/** `Number.prototype.toFixed(2)` over exact reals, and the decimal rendering
    of naturals it is built from. */
module Decimal {

  predicate IsDigit(c: char) {
    '0' <= c <= '9'
  }

  predicate AllDigits(s: string) {
    forall i :: 0 <= i < |s| ==> IsDigit(s[i])
  }

  function DigitValue(c: char): (d: nat)
    requires IsDigit(c)
    ensures d < 10
  {
    (c as int) - ('0' as int)
  }

  function Digit(d: nat): (c: char)
    requires d < 10
    ensures IsDigit(c) && DigitValue(c) == d
  {
    (('0' as int) + d) as char
  }

  /** The decimal digits of `n`, without leading zeros. */
  function NatToString(n: nat): (s: string)
    ensures |s| >= 1 && AllDigits(s)
    ensures |s| > 1 ==> s[0] != '0'
  {
    if n < 10 then [Digit(n)] else NatToString(n / 10) + [Digit(n % 10)]
  }

  /** The value of a string of decimal digits. */
  function StringToNat(s: string): nat
    requires AllDigits(s)
  {
    if s == [] then 0 else StringToNat(s[..|s| - 1]) * 10 + DigitValue(s[|s| - 1])
  }

  lemma {:induction false} NatToStringRoundTrip(n: nat)
    ensures StringToNat(NatToString(n)) == n
  {
    if n >= 10 {
      NatToStringRoundTrip(n / 10);
      var s := NatToString(n);
      assert s[..|s| - 1] == NatToString(n / 10);
    }
  }

  /** toFixed's choice of integer: the `n` with `n / 100` closest to `x`,
      the larger one on a tie. */
  function RoundToCents(x: real): (n: nat)
    requires x >= 0.0
    ensures (n as real) - 0.5 <= x * 100.0 < (n as real) + 0.5
  {
    (x * 100.0 + 0.5).Floor
  }

  /** The unsigned part of `toFixed(2)`: integer digits, a point, two digits. */
  function CentsToString(n: nat): string {
    NatToString(n / 100) + "." + [Digit(n / 10 % 10), Digit(n % 10)]
  }

  /** `x.toFixed(2)`: a minus sign when `x < 0`, then the rounded magnitude. */
  function ToFixed2(x: real): (s: string)
    ensures (x < 0.0) == (s != [] && s[0] == '-')
    ensures |s| >= 4 && s[|s| - 3] == '.' && IsDigit(s[|s| - 2]) && IsDigit(s[|s| - 1])
  {
    var n := RoundToCents(if x < 0.0 then -x else x);
    (if x < 0.0 then "-" else "") + CentsToString(n)
  }

  /** Reads back the number of hundredths that `CentsToString` wrote. */
  function ParseCents(s: string): nat
    requires |s| >= 4 && s[|s| - 3] == '.' && AllDigits(s[..|s| - 3]) && AllDigits(s[|s| - 2..])
  {
    StringToNat(s[..|s| - 3]) * 100 + StringToNat(s[|s| - 2..])
  }

  /** The rendered amount denotes exactly the rounded number of hundredths. */
  lemma CentsRoundTrip(n: nat)
    ensures var s := CentsToString(n);
      |s| >= 4 && s[|s| - 3] == '.' && AllDigits(s[..|s| - 3]) && AllDigits(s[|s| - 2..])
      && ParseCents(s) == n
  {
    var s := CentsToString(n);
    var whole := NatToString(n / 100);
    var d1, d0 := Digit(n / 10 % 10), Digit(n % 10);
    assert s[..|s| - 3] == whole;
    assert s[|s| - 2..] == [d1, d0];
    NatToStringRoundTrip(n / 100);
    assert [d1, d0][..1] == [d1] && [d1][..0] == [];
    assert StringToNat([d1]) == DigitValue(d1);
    assert StringToNat([d1, d0]) == (n / 10 % 10) * 10 + n % 10;
    assert n % 100 == (n / 10 % 10) * 10 + n % 10;
  }

  /** `toFixed(2)` is within half a hundredth of the magnitude of `x`. */
  lemma ToFixed2Value(x: real)
    ensures var s := ToFixed2(x);
      var u := if x < 0.0 then s[1..] else s;
      var m := if x < 0.0 then -x else x;
      |u| >= 4 && u[|u| - 3] == '.' && AllDigits(u[..|u| - 3]) && AllDigits(u[|u| - 2..])
      && (ParseCents(u) as real) - 0.5 <= m * 100.0 < (ParseCents(u) as real) + 0.5
  {
    var m := if x < 0.0 then -x else x;
    var n := RoundToCents(m);
    CentsRoundTrip(n);
    var u := if x < 0.0 then ToFixed2(x)[1..] else ToFixed2(x);
    assert u == CentsToString(n);
    assert ParseCents(u) == n;
  }
}
