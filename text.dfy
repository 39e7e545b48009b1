/** String helpers shared by the other modules: prefix tests and the decimal
    rendering that C# string interpolation applies to integers. */
module Text {

  predicate StartsWith(s: string, prefix: string)
  {
    |prefix| <= |s| && s[..|prefix|] == prefix
  }

  function DigitChar(d: nat): (c: char)
    requires d < 10
    ensures '0' <= c <= '9'
  {
    "0123456789"[d]
  }

  /** Decimal digits of n, most significant first, without leading zeros. */
  function NatToString(n: nat): (s: string)
    ensures |s| >= 1
    ensures forall i :: 0 <= i < |s| ==> '0' <= s[i] <= '9'
    decreases n
  {
    if n < 10 then [DigitChar(n)] else NatToString(n / 10) + [DigitChar(n % 10)]
  }

  function IntToString(i: int): string
  {
    if i < 0 then "-" + NatToString(-i) else NatToString(i)
  }

  /** A money amount held in hundredths, as C# renders the decimal: the
      whole part alone when there are no cents, else with two decimals. */
  function MoneyText(hundredths: int): (s: string)
    ensures |s| >= 1
    decreases if hundredths < 0 then 1 - hundredths else 0
  {
    if hundredths < 0 then "-" + MoneyText(-hundredths)
    else if hundredths % 100 == 0 then NatToString(hundredths / 100)
    else NatToString(hundredths / 100) + "." + [DigitChar(hundredths % 100 / 10), DigitChar(hundredths % 10)]
  }
}
