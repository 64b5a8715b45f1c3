/** The fixed-width Go integer types the model needs, as subset types of `int`,
    and decimal text of unsigned integers. */
module GoTypes {

  /** Go `byte` (`uint8`). */
  newtype byte = x: int | 0 <= x < 0x100

  /** Go `uint` on a 64-bit platform, used for `Request.ID`. */
  type uint64 = x: int | 0 <= x < 0x1_0000_0000_0000_0000

  /** Largest value that fits in 32 unsigned bits. */
  const MaxUint32: int := 0xFFFF_FFFF

  predicate IsDigit(c: char) {
    '0' <= c <= '9'
  }

  predicate AllDigits(s: string) {
    forall i | 0 <= i < |s| :: IsDigit(s[i])
  }

  /** Numeric value of a string of decimal digits, most significant first. */
  function DecimalValue(s: string): nat
    requires AllDigits(s)
  {
    if |s| == 0 then 0
    else DecimalValue(s[..|s| - 1]) * 10 + (s[|s| - 1] - '0') as nat
  }

  /** Decimal text of `n` without leading zeros, as `fmt` prints `%d` and
      `encoding/json` prints an unsigned integer. */
  function ShowDecimal(n: nat): (r: string)
    ensures |r| > 0 && AllDigits(r)
    ensures |r| > 1 ==> r[0] != '0'
  {
    if n < 10 then ['0' + n as char]
    else ShowDecimal(n / 10) + ['0' + (n % 10) as char]
  }

  /** Reading the printed digits back gives the number. */
  lemma {:induction false} DecimalOfShow(n: nat)
    ensures DecimalValue(ShowDecimal(n)) == n
  {
    if n >= 10 {
      var s := ShowDecimal(n);
      assert s[..|s| - 1] == ShowDecimal(n / 10);
      DecimalOfShow(n / 10);
    }
  }
}
