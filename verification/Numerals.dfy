/** Decimal and hexadecimal numerals, printed without leading zeros and read back. */
module Numerals {
  import opened Common

  datatype Base = Ten | Sixteen

  function Radix(b: Base): nat {
    match b case Ten => 10 case Sixteen => 16
  }

  function Digit(d: nat): char
    requires d < 16
  {
    if d < 10 then '0' + d as char else 'a' + (d - 10) as char
  }

  /** The value of a digit of either case, 16 for anything else. */
  function DigitValue(c: char): (d: nat)
    ensures d <= 16
  {
    if '0' <= c <= '9' then (c - '0') as nat
    else if 'a' <= c <= 'f' then (c - 'a') as nat + 10
    else if 'A' <= c <= 'F' then (c - 'A') as nat + 10
    else 16
  }

  predicate IsDigit(c: char, b: Base) {
    DigitValue(c) < Radix(b)
  }

  predicate AllDigits(s: string, b: Base) {
    forall c :: c in s ==> IsDigit(c, b)
  }

  function Numeral(n: nat, b: Base): (s: string)
    ensures s != "" && AllDigits(s, b)
    decreases n
  {
    match b
    case Ten => if n < 10 then [Digit(n)] else Numeral(n / 10, b) + [Digit(n % 10)]
    case Sixteen => if n < 16 then [Digit(n)] else Numeral(n / 16, b) + [Digit(n % 16)]
  }

  /** Digits above nine are printed as small letters. */
  lemma {:induction false} LowerCase(n: nat, b: Base)
    ensures forall c :: c in Numeral(n, b) ==> '0' <= c <= '9' || 'a' <= c <= 'f'
    decreases n
  {
    if n >= Radix(b) {
      LowerCase(match b case Ten => n / 10 case Sixteen => n / 16, b);
    }
  }

  function Value(s: string, b: Base): nat
    requires AllDigits(s, b)
  {
    if s == "" then 0
    else
      AllDigitsSlice(s, b, |s| - 1);
      assert s[|s| - 1] in s;
      match b
      case Ten => 10 * Value(s[..|s| - 1], b) + DigitValue(s[|s| - 1])
      case Sixteen => 16 * Value(s[..|s| - 1], b) + DigitValue(s[|s| - 1])
  }

  lemma AllDigitsSlice(s: string, b: Base, k: nat)
    requires AllDigits(s, b) && k <= |s|
    ensures AllDigits(s[..k], b) && AllDigits(s[k..], b)
  {
  }

  lemma {:induction false} ValueNumeral(n: nat, b: Base)
    ensures Value(Numeral(n, b), b) == n
    decreases n
  {
    var s := Numeral(n, b);
    if n < Radix(b) {
      assert s[..0] == "";
    } else {
      var up := match b case Ten => n / 10 case Sixteen => n / 16;
      ValueNumeral(up, b);
      assert s[..|s| - 1] == Numeral(up, b);
    }
  }

  lemma {:induction false} NumeralHead(n: nat, b: Base)
    ensures n > 0 ==> Numeral(n, b)[0] != '0'
    ensures n == 0 ==> Numeral(n, b) == "0"
    decreases n
  {
    if n >= Radix(b) {
      NumeralHead(match b case Ten => n / 10 case Sixteen => n / 16, b);
    }
  }

  function Pow16(k: nat): nat {
    if k == 0 then 1 else 16 * Pow16(k - 1)
  }

  lemma {:induction false} HexLength(n: nat, k: nat)
    requires 0 < k && n < Pow16(k)
    ensures |Numeral(n, Sixteen)| <= k
    decreases k
  {
    if n >= 16 {
      assert k > 1;
      HexLength(n / 16, k - 1);
    }
  }

  lemma HexLength64(n: u64)
    ensures |Numeral(n, Sixteen)| <= 16
  {
    assert Pow16(4) == 0x1_0000;
    assert Pow16(8) == 0x1_0000_0000;
    assert Pow16(12) == 0x1_0000_0000_0000;
    assert Pow16(16) == TWO64;
    HexLength(n, 16);
  }

  function Zeros(k: nat): (s: string)
    ensures |s| == k && forall i :: 0 <= i < k ==> s[i] == '0'
  {
    if k == 0 then "" else "0" + Zeros(k - 1)
  }

  /** `%0<width>x`. */
  function Padded(n: nat, width: nat): (s: string)
    ensures AllDigits(s, Sixteen) && |s| >= width
  {
    var s := Numeral(n, Sixteen);
    if |s| >= width then s else Zeros(width - |s|) + s
  }

  lemma {:induction false} ValueZeros(k: nat, s: string)
    requires AllDigits(s, Sixteen)
    ensures AllDigits(Zeros(k) + s, Sixteen) && Value(Zeros(k) + s, Sixteen) == Value(s, Sixteen)
    decreases |s|, k
  {
    var t := Zeros(k) + s;
    if s == "" {
      assert t == Zeros(k);
      ZerosValue(k);
    } else {
      AllDigitsSlice(s, Sixteen, |s| - 1);
      ValueZeros(k, s[..|s| - 1]);
      assert t[..|t| - 1] == Zeros(k) + s[..|s| - 1];
    }
  }

  lemma {:induction false} ZerosValue(k: nat)
    ensures AllDigits(Zeros(k), Sixteen) && Value(Zeros(k), Sixteen) == 0
  {
    if k > 0 {
      assert Zeros(k)[..k - 1] == Zeros(k - 1);
      ZerosValue(k - 1);
    }
  }

  lemma ValuePadded(n: nat, width: nat)
    ensures Value(Padded(n, width), Sixteen) == n
  {
    hide Value, Numeral, Zeros;
    ValueNumeral(n, Sixteen);
    var s := Numeral(n, Sixteen);
    if |s| < width {
      ValueZeros(width - |s|, s);
    }
  }

  // ----- Reading digits off the front of a text

  /** The length of the leading run of digits. */
  function DigitRun(s: string, b: Base): (n: nat)
    ensures n <= |s| && AllDigits(s[..n], b)
    ensures n < |s| ==> !IsDigit(s[n], b)
  {
    if s == "" || !IsDigit(s[0], b) then 0
    else
      var n := DigitRun(s[1..], b);
      assert s[..1 + n] == [s[0]] + s[1..][..n];
      1 + n
  }

  /** No digit follows. */
  predicate Ends(rest: string, b: Base) {
    rest == "" || !IsDigit(rest[0], b)
  }

  lemma {:induction false} DigitRunStops(x: string, rest: string, b: Base)
    requires AllDigits(x, b) && Ends(rest, b)
    ensures DigitRun(x + rest, b) == |x|
  {
    if x == "" {
      assert x + rest == rest;
    } else {
      assert x[0] in x && (x + rest)[1..] == x[1..] + rest;
      AllDigitsSlice(x, b, 1);
      DigitRunStops(x[1..], rest, b);
    }
  }
}
