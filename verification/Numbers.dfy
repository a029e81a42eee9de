/** Small arithmetic that several modules share, and the decimal spelling of numbers. */
module Numbers {
  type Byte = b: int | 0 <= b < 256

  function Min(a: nat, b: nat): nat { if a < b then a else b }

  function Max(a: nat, b: nat): nat { if a < b then b else a }

  /** `saturating_sub` */
  function SaturatingSub(a: nat, b: nat): nat { if a < b then 0 else a - b }

  predicate Digits(text: string) { forall i :: 0 <= i < |text| ==> '0' <= text[i] <= '9' }

  function Value(text: string): nat
    requires Digits(text)
  {
    if text == [] then 0
    else 10 * Value(text[..|text| - 1]) + (text[|text| - 1] as int - '0' as int)
  }

  function Decimal(n: nat): string {
    if n < 10 then [Digit(n)] else Decimal(n / 10) + [Digit(n % 10)]
  }

  function Digit(d: nat): char
    requires d < 10
  {
    '0' + d as char
  }

  lemma {:induction false} DecimalValue(n: nat)
    ensures Digits(Decimal(n)) && Decimal(n) != "" && Value(Decimal(n)) == n
  {
    if n < 10 {
      assert Decimal(n)[..0] == "";
    } else {
      DecimalValue(n / 10);
      var text := Decimal(n);
      assert text[..|text| - 1] == Decimal(n / 10);
    }
  }
}
