/**
  Number.prototype.toFixed(3) on exact reals, and the parser that reads its
  output back.  toFixed takes the sign apart, rounds the magnitude to the
  nearest multiple of 1/1000 (ties go to the larger magnitude), and writes
  the integer part, a dot and exactly three fraction digits.
 */
module Fixed {
  import opened Text
  import opened Wave

  predicate IsFixedChar(c: char) {
    IsDigit(c) || c == '-' || c == '.'
  }

  /** The magnitude of `x` in thousandths, rounded to nearest, ties away from zero. */
  function Thousandths(x: real): (n: nat)
    ensures Abs(x) * 1000.0 - 0.5 < n as real <= Abs(x) * 1000.0 + 0.5
  {
    (Abs(x) * 1000.0 + 0.5).Floor
  }

  /** The number that toFixed(3) writes for `x`. */
  function FixedValue(x: real): (v: real)
    ensures x - 0.0005 <= v <= x + 0.0005
    ensures IsIntegral(v * 1000.0)
  {
    var n := Thousandths(x);
    var q := n as real / 1000.0;
    assert q * 1000.0 == n as real;
    if x < 0.0 then
      assert (-q * 1000.0).Floor == -(n as int);
      -q
    else
      assert (q * 1000.0).Floor == n;
      q
  }

  /** "<n div 1000>.<n mod 1000, three digits>": a count of thousandths written as a decimal. */
  function MilliText(n: nat): (s: string)
    ensures |s| >= 5 && s[|s| - 4] == '.' && IsDigit(s[0])
    ensures IsDigit(s[|s| - 5]) && AllDigits(s[|s| - 3..])
    ensures forall i :: 0 <= i < |s| ==> IsFixedChar(s[i])
  {
    var whole, frac := NatToString(n / 1000), Pad3(n % 1000);
    var s := whole + "." + frac;
    assert s[|s| - 3..] == frac;
    assert s[|s| - 5] == whole[|whole| - 1];
    s
  }

  /** toFixed(3): an optional '-', at least one integer digit, a dot and exactly three digits. */
  function ToFixed3(x: real): (s: string)
    ensures |s| >= 5 && s[|s| - 4] == '.'
    ensures IsDigit(s[|s| - 5]) && AllDigits(s[|s| - 3..])
    ensures forall i :: 0 <= i < |s| ==> IsFixedChar(s[i])
    ensures ' ' !in s && ',' !in s
  {
    (if x < 0.0 then "-" else "") + MilliText(Thousandths(x))
  }

  /** Reads "[-]digits.ddd"; anything else is rejected. */
  function ParseFixed(s: string): Option<real> {
    var neg := |s| > 0 && s[0] == '-';
    var body := if neg then s[1..] else s;
    match ParseMilli(body)
    case None => None
    case Some(n) => var q := n as real / 1000.0; Some(if neg then -q else q)
  }

  /** Reads "digits.ddd" as a count of thousandths. */
  function ParseMilli(body: string): Option<nat> {
    if |body| < 5 || body[|body| - 4] != '.' then None
    else
      var whole := body[..|body| - 4];
      var frac := body[|body| - 3..];
      if !AllDigits(whole) || !AllDigits(frac) then None
      else Some(ParseDigits(whole) * 1000 + ParseDigits(frac))
  }

  lemma ParseMilliText(n: nat)
    ensures ParseMilli(MilliText(n)) == Some(n)
  {
    var whole, frac := NatToString(n / 1000), Pad3(n % 1000);
    var body := MilliText(n);
    assert body == whole + "." + frac;
    assert |body| == |whole| + 4 && body[|body| - 4] == '.';
    assert body[..|body| - 4] == whole;
    assert body[|body| - 3..] == frac;
    ParseNatToString(n / 1000);
    ParsePad3(n % 1000);
    assert ParseMilli(body) == Some(ParseDigits(whole) * 1000 + ParseDigits(frac));
  }

  /** Parsing the toFixed(3) text of `x` yields the rounded value of `x`. */
  lemma ParseToFixed3(x: real)
    ensures ParseFixed(ToFixed3(x)) == Some(FixedValue(x))
  {
    var body := MilliText(Thousandths(x));
    var s := ToFixed3(x);
    ParseMilliText(Thousandths(x));
    if x < 0.0 {
      assert s[1..] == body;
    } else {
      assert s == body;
    }
  }

  /** An integer is written with its digits and ".000". */
  lemma IntegerText(k: int)
    ensures ToFixed3(k as real) == (if k < 0 then "-" else "") + NatToString(if k < 0 then -k else k) + ".000"
  {
    var m: nat := if k < 0 then -k else k;
    assert Abs(k as real) == m as real;
    assert Thousandths(k as real) == m * 1000;
    assert (m * 1000) / 1000 == m && (m * 1000) % 1000 == 0;
  }
}
