/** How the bridge prints one number: path_protocol.py `_number`, over exact reals. */
module DecimalText {
  import opened Strings

  /** Nearest integer, ties to even: the rounding of Python's fixed-point formatting. */
  function RoundHalfEven(x: real): (r: int)
    ensures r as real - 0.5 <= x <= r as real + 0.5
  {
    var floor := x.Floor;
    var rest := x - floor as real;
    if rest < 0.5 || (rest == 0.5 && floor % 2 == 0) then floor else floor + 1
  }

  /** A value in the unit of its sixth decimal. */
  function Micro(x: real): int {
    RoundHalfEven(x * 1000000.0)
  }

  /** What is left of `x` once it has been printed with six decimals. */
  function Rounded(x: real): real {
    Micro(x) as real / 1000000.0
  }

  function Abs(n: int): nat {
    if n < 0 then -n else n
  }

  predicate IsDigit(c: char) {
    '0' <= c <= '9'
  }

  function Digit(d: nat): (c: char)
    requires d < 10
    ensures IsDigit(c) && c as int - '0' as int == d
  {
    '0' + d as char
  }

  /** Decimal digits of `n`, without leading zeros. */
  function Decimal(n: nat): (s: string)
    ensures |s| > 0 && forall i :: 0 <= i < |s| ==> IsDigit(s[i])
  {
    if n < 10 then [Digit(n)] else Decimal(n / 10) + [Digit(n % 10)]
  }

  /** The last `width` decimal digits of `n`, zero padded. */
  function Padded(n: nat, width: nat): (s: string)
    ensures |s| == width && forall i :: 0 <= i < |s| ==> IsDigit(s[i])
  {
    if width == 0 then "" else Padded(n / 10, width - 1) + [Digit(n % 10)]
  }

  /** f"{x:.6f}" without its sign. */
  function Magnitude(x: real): string {
    Decimal(Abs(Micro(x)) / 1000000) + "." + Padded(Abs(Micro(x)) % 1000000, 6)
  }

  /** `_number`: fixed point, trailing zeros and dot stripped, "-0" normalised. */
  function Number(x: real): string {
    Canonical((if x < 0.0 then "-" else "") + Magnitude(x))
  }

  function Canonical(fixed: string): string {
    var text := RStrip(RStrip(fixed, '0'), '.');
    if text == "" || text == "-0" then "0" else text
  }

  /** `_command`: name, colon, comma-separated numbers. */
  function CommandText(name: string, values: seq<real>): string {
    name + ":" + Join(values)
  }

  function Join(values: seq<real>): string {
    if |values| == 0 then ""
    else if |values| == 1 then Number(values[0])
    else Number(values[0]) + "," + Join(values[1..])
  }

  lemma {:induction false} MicroOfInt(n: int)
    ensures Micro(n as real) == n * 1000000
    ensures Rounded(n as real) == n as real
  {
    var x := n as real * 1000000.0;
    assert x == (n * 1000000) as real;
    assert x.Floor == n * 1000000;
  }

  /** Rounding keeps the order, so range checks survive printing. */
  lemma {:induction false} RoundingIsMonotone(x: real, y: real)
    requires x <= y
    ensures Micro(x) <= Micro(y) && Rounded(x) <= Rounded(y)
  {
    var a, b := x * 1000000.0, y * 1000000.0;
    if a.Floor == b.Floor {
      assert a - a.Floor as real <= b - b.Floor as real;
    } else {
      assert a.Floor + 1 <= b.Floor;
    }
  }

  /** Printing moves a value by at most half a millionth. */
  lemma {:induction false} RoundingIsClose(x: real)
    ensures -0.0000005 <= Rounded(x) - x <= 0.0000005
  {
    var m := Micro(x) as real;
    assert m - 0.5 <= x * 1000000.0 <= m + 0.5;
  }
}
