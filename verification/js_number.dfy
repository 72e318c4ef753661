/** JavaScript numbers as far as the modelled code uses them: integral values
    and NaN, `String(n)` for an integer and `parseInt(s, radix)` as section
    21.1.2.13 of ECMA-262 defines it. */
module JsNumber {

  /** A JavaScript number restricted to integers and NaN (-0 is identified with 0). */
  datatype Number = Num(value: int) | NaN

  /** `!n` in JavaScript: 0, -0 and NaN are the falsy numbers. */
  predicate IsFalsy(n: Number) {
    n.NaN? || n.value == 0
  }

  /** WhiteSpace and LineTerminator code points, which `parseInt` skips at the start. */
  predicate IsStrWhiteSpace(c: char) {
    var u := c as int;
    u == 0x09 || u == 0x0A || u == 0x0B || u == 0x0C || u == 0x0D || u == 0x20 ||
    u == 0xA0 || u == 0x1680 || (0x2000 <= u <= 0x200A) || u == 0x2028 || u == 0x2029 ||
    u == 0x202F || u == 0x205F || u == 0x3000 || u == 0xFEFF
  }

  function TrimStart(s: string): (r: string)
    ensures |r| <= |s| && r == s[|s| - |r|..]
    ensures r == [] || !IsStrWhiteSpace(r[0])
  {
    if |s| > 0 && IsStrWhiteSpace(s[0]) then TrimStart(s[1..]) else s
  }

  /** The value of an alphanumeric character read as a digit (0-35), or 36 for any other character. */
  function DigitValue(c: char): (d: nat)
    ensures d <= 36
  {
    if '0' <= c <= '9' then c as int - '0' as int
    else if 'a' <= c <= 'z' then c as int - 'a' as int + 10
    else if 'A' <= c <= 'Z' then c as int - 'A' as int + 10
    else 36
  }

  predicate IsDigit(c: char, radix: nat) {
    DigitValue(c) < radix
  }

  /** The length of the longest prefix of `s` made of radix-`radix` digits. */
  function DigitPrefixLength(s: string, radix: nat): (n: nat)
    ensures n <= |s|
    ensures forall i :: 0 <= i < n ==> IsDigit(s[i], radix)
    ensures n < |s| ==> !IsDigit(s[n], radix)
  {
    if |s| > 0 && IsDigit(s[0], radix) then 1 + DigitPrefixLength(s[1..], radix) else 0
  }

  /** The mathematical value of a digit string, most significant digit first. */
  function DigitsValue(ds: string, radix: nat): nat
    requires forall i :: 0 <= i < |ds| ==> IsDigit(ds[i], radix)
  {
    if ds == [] then 0
    else
      var prefix := ds[..|ds| - 1];
      assert forall i :: 0 <= i < |prefix| ==> prefix[i] == ds[i];
      var high: nat := DigitsValue(prefix, radix);
      assert high * radix >= 0;
      high * radix + DigitValue(ds[|ds| - 1])
  }

  /** `parseInt(s, radix)` for an explicit radix between 2 and 36. */
  function ParseInt(s: string, radix: nat): Number
    requires 2 <= radix <= 36
  {
    var t := TrimStart(s);
    var negative := |t| > 0 && t[0] == '-';
    var u := if |t| > 0 && (t[0] == '-' || t[0] == '+') then t[1..] else t;
    var v := if radix == 16 && |u| >= 2 && u[0] == '0' && (u[1] == 'x' || u[1] == 'X') then u[2..] else u;
    var ds := LeadingDigits(v, radix);
    if ds == [] then NaN
    else
      var m: int := DigitsValue(ds, radix);
      Num(if negative then -m else m)
  }

  /** The longest prefix of `s` made of radix-`radix` digits. */
  function LeadingDigits(s: string, radix: nat): (ds: string)
    ensures forall i :: 0 <= i < |ds| ==> IsDigit(ds[i], radix)
  {
    s[..DigitPrefixLength(s, radix)]
  }

  function DigitChar(d: nat): (c: char)
    requires d < 36
    ensures DigitValue(c) == d
  {
    "0123456789abcdefghijklmnopqrstuvwxyz"[d]
  }

  /** The digits of `n` in base `radix`, lower-case, without leading zeros. */
  function ToDigits(n: nat, radix: nat): (ds: string)
    requires 2 <= radix <= 36
    ensures |ds| >= 1
    ensures forall i :: 0 <= i < |ds| ==> IsDigit(ds[i], radix)
  {
    if n < radix then [DigitChar(n)]
    else
      DivisionShrinks(n, radix);
      ToDigits(n / radix, radix) + [DigitChar(n % radix)]
  }

  lemma DivisionShrinks(n: nat, radix: nat)
    requires 2 <= radix <= n
    ensures 0 < n / radix < n && 0 <= n % radix < radix
    ensures n == n / radix * radix + n % radix
  {
  }

  /** `String(n)` for an integer `n`. */
  function DecimalString(n: int): (s: string)
    ensures |s| >= 1
  {
    if n < 0 then "-" + ToDigits(-n, 10) else ToDigits(n, 10)
  }

  lemma {:induction false} DigitsValueOfToDigits(n: nat, radix: nat)
    requires 2 <= radix <= 36
    ensures DigitsValue(ToDigits(n, radix), radix) == n
  {
    if n >= radix {
      DivisionShrinks(n, radix);
      var ds := ToDigits(n, radix);
      assert ds[..|ds| - 1] == ToDigits(n / radix, radix);
      DigitsValueOfToDigits(n / radix, radix);
    }
  }

  lemma {:induction false} LeadingDigitsOfDigits(s: string, radix: nat)
    requires forall i :: 0 <= i < |s| ==> IsDigit(s[i], radix)
    ensures LeadingDigits(s, radix) == s
  {
    if s != [] {
      LeadingDigitsOfDigits(s[1..], radix);
    }
    assert s[..|s|] == s;
  }

  lemma TrimStartOfNonWhiteSpace(s: string)
    requires |s| > 0 && !IsStrWhiteSpace(s[0])
    ensures TrimStart(s) == s
  {
  }

  lemma DigitIsNotWhiteSpace(c: char, radix: nat)
    requires radix <= 36 && IsDigit(c, radix)
    ensures !IsStrWhiteSpace(c)
  {
  }

  lemma UnsignedDecimalRoundTrip(m: nat)
    ensures ParseInt(ToDigits(m, 10), 10) == Num(m)
  {
    var ds := ToDigits(m, 10);
    LeadingDigitsOfDigits(ds, 10);
    DigitsValueOfToDigits(m, 10);
    DigitIsNotWhiteSpace(ds[0], 10);
    TrimStartOfNonWhiteSpace(ds);
  }

  lemma NegativeDecimalRoundTrip(m: int)
    requires m > 0
    ensures ParseInt("-" + ToDigits(m, 10), 10) == Num(-m)
  {
    var ds := ToDigits(m, 10);
    LeadingDigitsOfDigits(ds, 10);
    DigitsValueOfToDigits(m, 10);
    var s := "-" + ds;
    TrimStartOfNonWhiteSpace(s);
    assert s[1..] == ds;
    assert TrimStart(s) == s && s[0] == '-';
    assert LeadingDigits(s[1..], 10) == ds;
  }

  /** `parseInt(String(n), 10)` gives `n` back, for every integer `n`. */
  lemma DecimalRoundTrip(n: int)
    ensures ParseInt(DecimalString(n), 10) == Num(n)
  {
    if n >= 0 {
      UnsignedDecimalRoundTrip(n);
    } else {
      assert DecimalString(n) == "-" + ToDigits(-n, 10);
      NegativeDecimalRoundTrip(-n);
    }
  }

  /** An EIP-1193 hex quantity ("0x" and lower-case hex digits) decodes with `parseInt(_, 16)` to its value. */
  lemma HexRoundTrip(n: nat)
    ensures ParseInt("0x" + ToDigits(n, 16), 16) == Num(n)
  {
    var ds := ToDigits(n, 16);
    var s := "0x" + ds;
    TrimStartOfNonWhiteSpace(s);
    assert s[2..] == ds;
    LeadingDigitsOfDigits(ds, 16);
    DigitsValueOfToDigits(n, 16);
  }
}
