/**
 * The few pieces of JavaScript number semantics the piano code relies on:
 * the `%` operator, the decimal text of an integer (`String(n)`, template
 * literals, `toString()`) and `parseInt`.
 */
module JsNumbers {
  import opened Wrappers

  /** JavaScript's `a % b`: the remainder truncated toward zero, so it has the sign of `a`. */
  function Rem(a: int, b: int): (r: int)
    requires b > 0
    ensures a >= 0 ==> 0 <= r < b && r == a % b
    ensures a < 0 ==> -b < r <= 0 && r == -((-a) % b)
  {
    if a >= 0 then a % b else -((-a) % b)
  }

  predicate IsDigit(c: char) { '0' <= c <= '9' }

  function DigitValue(c: char): (d: nat)
    requires IsDigit(c)
    ensures d < 10
  {
    (c as int - '0' as int) as nat
  }

  function DigitChar(d: nat): (c: char)
    requires d < 10
    ensures IsDigit(c) && DigitValue(c) == d
  {
    ('0' as int + d) as char
  }

  /** The decimal digits of a natural number, most significant first, without leading zeros. */
  function NatToString(n: nat): (s: string)
    ensures |s| > 0 && (forall i | 0 <= i < |s| :: IsDigit(s[i]))
    ensures n < 10 <==> |s| == 1
    ensures s[0] == '0' <==> n == 0
  {
    if n < 10 then [DigitChar(n)] else NatToString(n / 10) + [DigitChar(n % 10)]
  }

  /**
   * `String(n)` for an integer-valued JavaScript number below 10^21 in
   * magnitude; from 10^21 on JavaScript switches to exponent notation,
   * which is not modelled.
   */
  function IntToString(n: int): (s: string)
    ensures |s| > 0
    ensures IsDigit(s[0]) || s[0] == '-'
    ensures n >= 0 ==> s == NatToString(n)
  {
    if n < 0 then "-" + NatToString(-n) else NatToString(n)
  }

  /** The value of a string of decimal digits, read left to right. */
  function DigitsValue(s: string): nat
    requires forall i | 0 <= i < |s| :: IsDigit(s[i])
  {
    if |s| == 0 then 0 else DigitsValue(s[..|s| - 1]) * 10 + DigitValue(s[|s| - 1])
  }

  /** The longest prefix of `s` that consists of decimal digits. */
  function DigitPrefix(s: string): (p: string)
    ensures |p| <= |s| && p == s[..|p|]
    ensures forall i | 0 <= i < |p| :: IsDigit(p[i])
    ensures |p| < |s| ==> !IsDigit(s[|p|])
  {
    if |s| == 0 || !IsDigit(s[0]) then "" else [s[0]] + DigitPrefix(s[1..])
  }

  predicate IsJsSpace(c: char) { c == ' ' || c == '\t' || c == '\n' || c == '\r' || c == '\U{B}' || c == '\U{C}' }

  function TrimStart(s: string): (t: string)
    ensures |t| <= |s|
    ensures |t| > 0 ==> !IsJsSpace(t[0])
  {
    if |s| > 0 && IsJsSpace(s[0]) then TrimStart(s[1..]) else s
  }

  /**
   * `parseInt(s)` in base 10: leading white space is skipped, an optional sign
   * is read, then the longest run of digits; `None` is `NaN` (no digits at all).
   */
  function ParseInt(s: string): (r: Option<int>)
    ensures r == None <==> (var b := Unsigned(TrimStart(s)); |b| == 0 || !IsDigit(b[0]))
  {
    var t := TrimStart(s);
    var digits := DigitPrefix(Unsigned(t));
    if |digits| == 0 then None
    else if |t| > 0 && t[0] == '-' then Some(-(DigitsValue(digits) as int))
    else Some(DigitsValue(digits))
  }

  /** `t` without its leading sign, if it has one. */
  function Unsigned(t: string): (b: string)
    ensures |b| <= |t|
  {
    if |t| > 0 && (t[0] == '-' || t[0] == '+') then t[1..] else t
  }

  lemma {:induction false} DigitsValueOfNatToString(n: nat)
    ensures DigitsValue(NatToString(n)) == n
  {
    if n >= 10 {
      var s := NatToString(n);
      assert s[..|s| - 1] == NatToString(n / 10);
      DigitsValueOfNatToString(n / 10);
    }
  }

  lemma {:induction false} DigitPrefixOfDigits(s: string)
    requires forall i | 0 <= i < |s| :: IsDigit(s[i])
    ensures DigitPrefix(s) == s
  {
    if |s| > 0 {
      DigitPrefixOfDigits(s[1..]);
    }
  }

  /** `parseInt(String(n)) === n` for every integer `n`: the text of a number reads back as that number. */
  lemma ParseIntOfIntToString(n: int)
    ensures ParseInt(IntToString(n)) == Some(n)
  {
    var m: nat := if n < 0 then -n else n;
    TextOfNumber(n);
    assert DigitPrefix(NatToString(m)) == NatToString(m) by {
      DigitPrefixOfDigits(NatToString(m));
    }
    DigitsValueOfNatToString(m);
  }

  /** The text of a number has no leading space, and without its sign it is the digits of the magnitude. */
  lemma TextOfNumber(n: int)
    ensures TrimStart(IntToString(n)) == IntToString(n)
    ensures Unsigned(IntToString(n)) == NatToString(if n < 0 then -n else n)
    ensures |IntToString(n)| > 0 && (IntToString(n)[0] == '-' <==> n < 0)
  {
    var s := IntToString(n);
    assert !IsJsSpace(s[0]);
    if n < 0 {
      assert s == "-" + NatToString(-n);
      assert s[1..] == NatToString(-n);
    } else {
      assert IsDigit(s[0]);
    }
  }

  /** A single character parses to a number exactly when it is a digit, and then to that digit. */
  lemma ParseIntOfOneChar(s: string)
    requires |s| == 1
    ensures ParseInt(s) == if IsDigit(s[0]) then Some(DigitValue(s[0]) as int) else None
  {
    if IsJsSpace(s[0]) {
      assert TrimStart(s) == TrimStart(s[1..]) == [];
    } else {
      assert TrimStart(s) == s;
      if IsDigit(s[0]) {
        assert DigitPrefix(s) == [s[0]] + DigitPrefix(s[1..]);
        assert DigitPrefix(s) == s;
        assert DigitsValue(s) == DigitsValue(s[..0]) * 10 + DigitValue(s[0]);
      }
    }
  }
}
