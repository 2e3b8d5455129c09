/** Bytes, decimal numerals and concatenation, shared by the stream, its reader and the cursor format. */
module Bytes {
  import opened Prelude

  type Byte = b: nat | b < 256

  const NEWLINE: Byte := 10

  function Digit(d: nat): (b: Byte)
    requires d < 10
  {
    48 + d
  }

  /** The decimal numeral of a number, without leading zeros. */
  function Decimal(n: nat): (s: seq<Byte>)
    ensures s != []
    ensures forall i :: 0 <= i < |s| ==> 48 <= s[i] <= 57
  {
    if n < 10 then [Digit(n)] else Decimal(n / 10) + [Digit(n % 10)]
  }

  function Power10(k: nat): (p: nat)
    ensures p > 0
  {
    if k == 0 then 1 else 10 * Power10(k - 1)
  }

  lemma {:induction false} DecimalFits(n: nat, k: nat)
    requires k > 0 && n < Power10(k)
    ensures |Decimal(n)| <= k
  {
    assert Power10(1) == 10;
    if n >= 10 {
      assert k > 1;
      DecimalFits(n / 10, k - 1);
    }
  }

  lemma {:induction false} Power10Grows(k: nat)
    requires k >= 4
    ensures Power10(k) > 8192
  {
    if k == 4 {
      assert Power10(2) == 10 * Power10(1) && Power10(3) == 10 * Power10(2);
    } else {
      Power10Grows(k - 1);
    }
  }

  function Value(s: seq<Byte>): (n: int) {
    if s == [] then 0 else 10 * Value(Front(s)) + Last(s) as int - 48
  }

  lemma {:induction false} DecimalValue(n: nat)
    ensures Value(Decimal(n)) == n
  {
    if n < 10 {
      assert Front(Decimal(n)) == [];
    } else {
      DecimalValue(n / 10);
      assert Front(Decimal(n)) == Decimal(n / 10);
    }
  }
}
