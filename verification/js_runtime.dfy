/**
 * The few JavaScript built-ins the plugin's decision logic leans on, stated
 * over integers and rationals: `undefined`-or-value, thrown-or-returned,
 * `Math.round`, `Number.prototype.toFixed`, `String.prototype.toLowerCase`
 * on ASCII, and the decimal text of a non-negative integer.
 */
module JsRuntime {

  /** A property that may be `undefined` (`None`) or hold a value. */
  datatype Option<+T> = None | Some(value: T)

  /** A call that returns a value or throws an error. */
  datatype Result<+T, +E> = Ok(value: T) | Err(error: E)

  /** JavaScript truthiness of an optional number: `undefined` and `0` are falsy. */
  function TruthyNumber(n: Option<int>): (b: bool)
    ensures n.None? || n == Some(0) ==> !b
    ensures n.Some? && n.value != 0 ==> b
  {
    n.Some? && n.value != 0
  }

  /** JavaScript truthiness of an optional string: `undefined` and `""` are falsy. */
  function TruthyString(s: Option<string>): (b: bool)
    ensures s.None? || s == Some("") ==> !b
    ensures s.Some? && |s.value| > 0 ==> b
  {
    s.Some? && s.value != ""
  }

  /**
   * `Math.round(p / q)` for a positive denominator: the nearest integer,
   * with halves going toward +infinity. The ensures pins the result down
   * uniquely (see RoundDivUnique).
   */
  function RoundDiv(p: int, q: int): (r: int)
    requires q > 0
    ensures q * (2 * r) - q <= 2 * p < q * (2 * r) + q
  {
    var n, d := 2 * p + q, 2 * q;
    assert d * (n / d) + n % d == n;
    assert q * (2 * (n / d)) == d * (n / d);
    n / d
  }

  /** Only one integer lies within half a unit of `p / q` on the half-up side. */
  lemma RoundDivUnique(p: int, q: int, r: int)
    requires q > 0
    requires q * (2 * r) - q <= 2 * p < q * (2 * r) + q
    ensures r == RoundDiv(p, q)
  {
    var s := RoundDiv(p, q);
    // Both 2qr and 2qs lie in (2p - q, 2p + q], so 2q|r - s| < 2q.
    assert q * (2 * (r - s)) < q * 2 && q * (2 * (s - r)) < q * 2;
  }

  /** Multiplying by a positive factor keeps order. */
  lemma MulMonotone(k: int, a: int, b: int)
    requires k > 0 && a <= b
    ensures k * a <= k * b
  {
    assert k * b - k * a == k * (b - a);
  }

  /**
   * `(p / q).toFixed(...)` read back as a number, with the scaling to the
   * requested number of decimals already folded into `p`: `toFixed` rounds
   * the magnitude half-up and restores the sign, so halves go away from zero.
   */
  function ToFixedDiv(p: int, q: int): (r: int)
    requires q > 0
    ensures p >= 0 ==> r >= 0 && q * (2 * r) - q <= 2 * p < q * (2 * r) + q
    ensures p < 0 ==> r <= 0 && q * (2 * r) - q < 2 * p <= q * (2 * r) + q
  {
    if p >= 0 then RoundDiv(p, q) else -RoundDiv(-p, q)
  }

  /** `toLowerCase` on one character, for the ASCII letters. */
  function LowerChar(c: char): char {
    if 'A' <= c <= 'Z' then (c as int + 32) as char else c
  }

  /** `toLowerCase` on a string, for the ASCII letters. */
  function ToLower(s: string): (r: string)
    ensures |r| == |s|
    ensures forall i :: 0 <= i < |r| ==> !('A' <= r[i] <= 'Z')
    ensures forall i :: 0 <= i < |r| ==> (r[i] == s[i] <==> !('A' <= s[i] <= 'Z'))
  {
    seq(|s|, i requires 0 <= i < |s| => LowerChar(s[i]))
  }

  function DigitChar(d: nat): char
    requires d < 10
  {
    "0123456789"[d]
  }

  function DigitValue(c: char): nat {
    if '0' <= c <= '9' then c as int - '0' as int else 0
  }

  /** The text that `${n}` gives for a non-negative integer `n`. */
  function Decimal(n: nat): (s: string)
    ensures |s| >= 1
    ensures forall i :: 0 <= i < |s| ==> '0' <= s[i] <= '9'
    ensures n == 0 <==> s == "0"
    ensures n > 0 ==> s[0] != '0'
  {
    if n < 10 then [DigitChar(n)] else Decimal(n / 10) + [DigitChar(n % 10)]
  }

  /** Reading a string of decimal digits back as a number. */
  function DecimalValue(s: string): nat {
    if s == [] then 0 else 10 * DecimalValue(s[..|s| - 1]) + DigitValue(s[|s| - 1])
  }

  /** The decimal text of a number reads back as that number. */
  lemma {:induction false} DecimalRoundTrip(n: nat)
    ensures DecimalValue(Decimal(n)) == n
  {
    if n >= 10 {
      var s := Decimal(n);
      assert s[..|s| - 1] == Decimal(n / 10);
      DecimalRoundTrip(n / 10);
    }
  }
}
