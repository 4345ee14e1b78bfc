/** Byte strings, the handful of separator bytes the protocol uses, and the
    decimal rendering of job ids (Go's `%d` and redigo's integer argument
    formatting). Go `string` and `[]byte` values are both modelled as `Bytes`. */
module Bytes {

  import opened Wrappers

  newtype byte = b: int | 0 <= b < 256

  type Bytes = seq<byte>

  const Colon: byte := 58    // ':' separates a frame's name from its body
  const Dash: byte := 45     // '-' marks a stream-close frame
  const Slash: byte := 47    // '/' separates key path segments
  const Equals: byte := 61   // '=' separates an environment key from its value
  const LowerX: byte := 120  // 'x', the job terminator id

  /** The bytes of an ASCII literal (each character taken modulo 256). */
  function Ascii(s: string): Bytes
  {
    seq(|s|, i requires 0 <= i < |s| => (s[i] as int % 256) as byte)
  }

  predicate IsDigit(b: byte)
  {
    48 <= b <= 57
  }

  function Digit(d: nat): byte
    requires d < 10
  {
    (48 + d) as byte
  }

  /** `fmt.Sprintf("%d", n)` for a non-negative n. */
  function Decimal(n: nat): Bytes
  {
    if n < 10 then [Digit(n)] else Decimal(n / 10) + [Digit(n % 10)]
  }

  /** Reading a string of decimal digits back as a number (as the broker does
      with an index argument); anything else is not a number. */
  function ParseDecimal(s: Bytes): Option<nat>
  {
    if |s| == 0 || !IsDigit(s[|s| - 1]) then None
    else if |s| == 1 then Some((s[0] - 48) as nat)
    else
      match ParseDecimal(s[..|s| - 1])
      case None => None
      case Some(m) => Some(m * 10 + (s[|s| - 1] - 48) as nat)
  }

  /** Every byte of Decimal(n) is a digit, and there is at least one. */
  lemma {:induction false} DecimalDigits(n: nat)
    ensures |Decimal(n)| > 0
    ensures forall i :: 0 <= i < |Decimal(n)| ==> IsDigit(Decimal(n)[i])
  {
    if n >= 10 {
      DecimalDigits(n / 10);
    }
  }

  /** Decimal rendering round-trips through ParseDecimal. */
  lemma {:induction false} ParseDecimalOfDecimal(n: nat)
    ensures ParseDecimal(Decimal(n)) == Some(n)
  {
    if n >= 10 {
      ParseDecimalOfDecimal(n / 10);
      DecimalDigits(n / 10);
      var s := Decimal(n);
      assert s[..|s| - 1] == Decimal(n / 10);
      assert s[|s| - 1] == Digit(n % 10);
    }
  }

  /** Hence distinct ids render to distinct strings. */
  lemma DecimalInjective(a: nat, b: nat)
    requires Decimal(a) == Decimal(b)
    ensures a == b
  {
    ParseDecimalOfDecimal(a);
    ParseDecimalOfDecimal(b);
  }
}
