/*
 * The decoded JSON tree that restfulsql.go works on, and the two ways the
 * program prints a node of it with Go's fmt package (`%v` and `%s`).
 *
 * Go decodes an RSQL query into nested `[]interface{}` values holding
 * `string`, `float64`, `bool`, `nil` and further `[]interface{}`; JValue
 * stands for one such value. Numbers carry an integer: only integral
 * numbers are modelled.
 */
module Json {

  datatype JValue =
    | Str(s: string)
    | Num(n: int)
    | Bool(b: bool)
    | Null
    | Arr(elems: seq<JValue>)

  /** Nesting depth of arrays: scalars have depth 0. */
  function Depth(x: JValue): nat
  {
    match x
    case Arr(es) => 1 + DepthSeq(es)
    case _ => 0
  }

  /** The largest depth among the elements of `es` (0 for none). */
  function DepthSeq(es: seq<JValue>): nat
  {
    if es == [] then 0
    else
      var d, e := Depth(es[0]), DepthSeq(es[1..]);
      if d < e then e else d
  }

  lemma {:induction false} DepthSeqElement(es: seq<JValue>, i: nat)
    requires i < |es|
    ensures Depth(es[i]) <= DepthSeq(es)
  {
    if i > 0 {
      DepthSeqElement(es[1..], i - 1);
    }
  }

  lemma {:induction false} DepthSeqBound(es: seq<JValue>, b: nat)
    requires forall i :: 0 <= i < |es| ==> Depth(es[i]) <= b
    ensures DepthSeq(es) <= b
  {
    if es != [] {
      DepthSeqBound(es[1..], b);
    }
  }

  /** Replacing one element by a shallower one does not deepen the sequence. */
  lemma DepthSeqUpdate(es: seq<JValue>, i: nat, x: JValue)
    requires i < |es| && Depth(x) <= Depth(es[i])
    ensures DepthSeq(es[i := x]) <= DepthSeq(es)
  {
    var updated := es[i := x];
    forall j | 0 <= j < |updated|
      ensures Depth(updated[j]) <= DepthSeq(es)
    {
      DepthSeqElement(es, j);
    }
    DepthSeqBound(updated, DepthSeq(es));
  }

  /** Decimal digits of a natural number, most significant first. */
  function NatToString(n: nat): (r: string)
    ensures |r| >= 1
    ensures forall i :: 0 <= i < |r| ==> '0' <= r[i] <= '9'
  {
    var d := ['0' + (n % 10) as char];
    if n < 10 then d else NatToString(n / 10) + d
  }

  /** The number a string of decimal digits denotes. */
  function DigitsValue(s: string): nat
    requires forall i :: 0 <= i < |s| ==> '0' <= s[i] <= '9'
  {
    if s == [] then 0
    else DigitsValue(s[..|s| - 1]) * 10 + (s[|s| - 1] - '0') as nat
  }

  /** The digits read back as the number, with no leading zero except for 0 itself. */
  lemma {:induction false} NatToStringValue(n: nat)
    ensures DigitsValue(NatToString(n)) == n
    ensures NatToString(n)[0] == '0' <==> n == 0
  {
    var r := NatToString(n);
    if n >= 10 {
      NatToStringValue(n / 10);
      var prefix := NatToString(n / 10);
      assert r[..|r| - 1] == prefix;
      assert r[0] == prefix[0];
    }
  }

  /** `s` without its trailing '0' characters. */
  function TrimZeros(s: string): (r: string)
    ensures |r| <= |s| && r == s[..|r|]
    ensures r == [] || r[|r| - 1] != '0'
  {
    if s == [] || s[|s| - 1] != '0' then s else TrimZeros(s[..|s| - 1])
  }

  /**
   * Go's `%v` for a float64 that holds the integer `n`: the shortest
   * digits, in plain notation while the decimal exponent is below 6 and in
   * `d.ddde+XX` notation (two exponent digits at least) from 10^6 on.
   */
  function FormatNum(n: int): (r: string)
    ensures |r| >= 1 && (r[0] == '-' <==> n < 0)
  {
    var m: nat := if n < 0 then -n else n;
    var sign := if n < 0 then "-" else "";
    if m < 1000000 then sign + NatToString(m)
    else sign + Scientific(NatToString(m))
  }

  /** The `d.ddde+XX` form of a string of decimal digits. */
  function Scientific(digits: string): (r: string)
    requires |digits| >= 1
    ensures |r| >= 1 && r[0] == digits[0]
  {
    var mant := TrimZeros(digits);
    var exp := |digits| - 1;
    var frac := if |mant| > 1 then "." + mant[1..] else "";
    var e := if exp < 10 then "0" + NatToString(exp) else NatToString(exp);
    digits[..1] + frac + "e+" + e
  }

  /** Below 10^6 in magnitude, `%v` prints an optional minus sign and the exact digits. */
  lemma FormatNumPlain(n: int)
    requires -1000000 < n < 1000000
    ensures n >= 0 ==> FormatNum(n) == NatToString(n) && DigitsValue(FormatNum(n)) == n
    ensures n < 0 ==> FormatNum(n) == "-" + NatToString(-n) && DigitsValue(FormatNum(n)[1..]) == -n
  {
    var m: nat := if n < 0 then -n else n;
    NatToStringValue(m);
    if n < 0 {
      assert FormatNum(n)[1..] == NatToString(m);
    }
  }

  function FormatBool(b: bool): string
  {
    if b then "true" else "false"
  }

  /** Go's `%v` of a decoded value. */
  function FormatV(x: JValue): (r: string)
    ensures x.Arr? ==> |r| >= 2 && r[0] == '[' && r[|r| - 1] == ']'
  {
    match x
    case Str(s) => s
    case Num(n) => FormatNum(n)
    case Bool(b) => FormatBool(b)
    case Null => "<nil>"
    case Arr(es) => "[" + FormatElemsV(es) + "]"
  }

  /** Elements of a slice under `%v`, separated by single spaces. */
  function FormatElemsV(es: seq<JValue>): string
  {
    if es == [] then ""
    else if |es| == 1 then FormatV(es[0])
    else FormatV(es[0]) + " " + FormatElemsV(es[1..])
  }

  /**
   * Go's `%s` of a decoded value passed as an argument: strings print as
   * themselves, slices element by element, and every other kind as fmt's
   * `%!s(type=value)` complaint.
   */
  function FormatS(x: JValue): (r: string)
    ensures x.Arr? ==> |r| >= 2 && r[0] == '[' && r[|r| - 1] == ']'
    ensures x.Num? || x.Bool? || x.Null? ==> |r| >= 3 && r[0] == '%' && r[1] == '!' && r[2] == 's'
  {
    match x
    case Str(s) => s
    case Num(n) => "%!s(float64=" + FormatNum(n) + ")"
    case Bool(b) => "%!s(bool=" + FormatBool(b) + ")"
    case Null => "%!s(<nil>)"
    case Arr(es) => "[" + FormatElemsS(es) + "]"
  }

  /** Elements of a slice under `%s`; a nil element prints as `<nil>`. */
  function FormatElemsS(es: seq<JValue>): string
  {
    if es == [] then ""
    else
      var head := if es[0].Null? then "<nil>" else FormatS(es[0]);
      if |es| == 1 then head else head + " " + FormatElemsS(es[1..])
  }

  /** A value built from strings alone: a string, or a slice of such values. */
  predicate StringLeaves(x: JValue)
  {
    match x
    case Str(_) => true
    case Arr(es) => forall i :: 0 <= i < |es| ==> StringLeaves(es[i])
    case _ => false
  }

  /** `%s` and `%v` print a value built from strings alone the same way. */
  lemma {:induction false} FormatSOfStrings(x: JValue)
    requires StringLeaves(x)
    ensures FormatS(x) == FormatV(x)
  {
    if x.Arr? {
      FormatElemsSOfStrings(x.elems);
    }
  }

  lemma {:induction false} FormatElemsSOfStrings(es: seq<JValue>)
    requires forall i :: 0 <= i < |es| ==> StringLeaves(es[i])
    ensures FormatElemsS(es) == FormatElemsV(es)
  {
    if es != [] {
      FormatSOfStrings(es[0]);
      FormatElemsSOfStrings(es[1..]);
    }
  }

  function Pow10(k: nat): nat
  {
    if k == 0 then 1 else 10 * Pow10(k - 1)
  }

  /** `k` zero digits. */
  function Zeros(k: nat): (r: string)
    ensures |r| == k && forall i :: 0 <= i < k ==> r[i] == '0'
  {
    seq(k, _ => '0')
  }

  lemma {:induction false} Pow10AtLeast(k: nat)
    requires k >= 6
    ensures Pow10(k) >= 1000000
  {
    if k > 6 {
      Pow10AtLeast(k - 1);
    }
  }

  /** The digits of `d * 10^k`: the digit `d` and `k` zeros. */
  lemma {:induction false} DigitTimesPow10(d: nat, k: nat)
    requires 1 <= d <= 9
    ensures NatToString(d * Pow10(k)) == ['0' + d as char] + Zeros(k)
  {
    if k > 0 {
      var p := Pow10(k - 1);
      var m := d * p;
      assert d * Pow10(k) == 10 * m by {
        assert Pow10(k) == 10 * p;
      }
      assert m >= 1 by {
        Pow10Positive(k - 1);
        assert m == p + (d - 1) * p;
      }
      DigitTimesPow10(d, k - 1);
      assert (10 * m) / 10 == m && (10 * m) % 10 == 0;
      assert Zeros(k - 1) + ['0'] == Zeros(k);
    }
  }

  lemma {:induction false} Pow10Positive(k: nat)
    ensures Pow10(k) >= 1
  {
    if k > 0 {
      Pow10Positive(k - 1);
    }
  }

  /** Trailing zeros after a non-zero digit are all trimmed. */
  lemma {:induction false} TrimZerosAfterDigit(c: char, k: nat)
    requires c != '0'
    ensures TrimZeros([c] + Zeros(k)) == [c]
  {
    if k > 0 {
      var s := [c] + Zeros(k);
      assert s[|s| - 1] == '0';
      assert s[..|s| - 1] == [c] + Zeros(k - 1);
      TrimZerosAfterDigit(c, k - 1);
    }
  }

  /**
   * From 10^6 on, `%v` switches to the exponent form: a single significant
   * digit `d` times `10^k` prints as `d`, `e+` and at least two exponent digits.
   */
  lemma ExponentForm(d: nat, k: nat)
    requires 1 <= d <= 9 && k >= 6
    ensures FormatNum(d * Pow10(k)) == ['0' + d as char] + "e+" + (if k < 10 then "0" + NatToString(k) else NatToString(k))
  {
    var n := d * Pow10(k);
    DigitTimesPow10(d, k);
    DigitTimesPow10AtLeast(d, k);
    assert FormatNum(n) == "" + Scientific(NatToString(n));
    ScientificOfDigit('0' + d as char, k);
  }

  lemma DigitTimesPow10AtLeast(d: nat, k: nat)
    requires 1 <= d && k >= 6
    ensures d * Pow10(k) >= 1000000
  {
    Pow10AtLeast(k);
    var p := Pow10(k);
    assert d * p == p + (d - 1) * p;
  }

  /** One non-zero digit followed by `k` zeros has no fraction and exponent `k`. */
  lemma ScientificOfDigit(c: char, k: nat)
    requires c != '0'
    ensures Scientific([c] + Zeros(k)) == [c] + "e+" + (if k < 10 then "0" + NatToString(k) else NatToString(k))
  {
    var digits := [c] + Zeros(k);
    TrimZerosAfterDigit(c, k);
    assert digits[..1] == [c];
  }

  /** `%v` of 1e6. */
  lemma ExponentMillion()
    ensures FormatNum(1000000) == "1e+06"
  {
    assert Pow10(6) == 1000000;
    ExponentForm(1, 6);
    assert NatToString(6) == "6";
  }

  /** `%v` of 2e7. */
  lemma ExponentTwentyMillion()
    ensures FormatNum(20000000) == "2e+07"
  {
    assert 2 * Pow10(7) == 20000000;
    ExponentForm(2, 7);
    assert NatToString(7) == "7";
  }
}
