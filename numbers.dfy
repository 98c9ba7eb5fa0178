/**
 * JavaScript numbers without floating point. A finite number is the
 * terminating decimal `digits / 10^scale` that `String(n)` prints; the
 * decimal is kept canonical (no trailing zero after the point), so two
 * finite numbers are `===` exactly when they are equal as Dafny values.
 * `-0` and `+0` are the one number `0`, as `===` has them.
 */
module Numbers {

  datatype Decimal = Decimal(digits: int, scale: nat)

  predicate Canonical(d: Decimal)
  {
    d.scale == 0 || d.digits % 10 != 0
  }

  type FiniteNumber = d: Decimal | Canonical(d) witness Decimal(0, 0)

  datatype Num = Finite(n: FiniteNumber) | NaN | Infinity | NegativeInfinity

  /** The number with integer value `i`. */
  function Int(i: int): Num
  {
    Finite(Decimal(i, 0))
  }

  const Zero: Num := Int(0)
  const One: Num := Int(1)

  /** `Number.isFinite(n)`. */
  predicate IsFinite(n: Num)
  {
    n.Finite?
  }

  predicate IsDigit(c: char)
  {
    '0' <= c <= '9'
  }

  predicate AllDigits(s: string)
  {
    forall i :: 0 <= i < |s| ==> IsDigit(s[i])
  }

  function DigitChar(d: nat): (c: char)
    requires d < 10
    ensures IsDigit(c)
  {
    ('0' as int + d) as char
  }

  /** The decimal digits of a natural number, without leading zeros. */
  function Digits(n: nat): (s: string)
    ensures 1 <= |s|
    ensures n < 10 <==> |s| == 1
    ensures AllDigits(s)
  {
    if n < 10 then [DigitChar(n)] else Digits(n / 10) + [DigitChar(n % 10)]
  }

  /** `String(i)` for an integer-valued number. */
  function IntToString(i: int): (s: string)
    ensures 1 <= |s|
    ensures s[0] == '-' || IsDigit(s[0])
    ensures s[0] == '-' <==> i < 0
  {
    if i < 0 then "-" + Digits(-i) else Digits(i)
  }

  /** Different naturals print differently. */
  lemma {:induction false} DigitsInjective(a: nat, b: nat)
    requires Digits(a) == Digits(b)
    ensures a == b
  {
    if a >= 10 && b >= 10 {
      var sa, sb := Digits(a), Digits(b);
      assert sa[..|sa| - 1] == Digits(a / 10);
      assert sb[..|sb| - 1] == Digits(b / 10);
      DigitsInjective(a / 10, b / 10);
      assert DigitChar(a % 10) == sa[|sa| - 1] == sb[|sb| - 1] == DigitChar(b % 10);
    }
  }

  /** Different integers print differently. */
  lemma IntToStringInjective(a: int, b: int)
    requires IntToString(a) == IntToString(b)
    ensures a == b
  {
    if a < 0 {
      assert IntToString(a)[1..] == Digits(-a);
      assert IntToString(b)[1..] == Digits(-b);
      DigitsInjective(-a, -b);
    } else {
      DigitsInjective(a, b);
    }
  }

  function Zeros(k: nat): (s: string)
    ensures |s| == k && AllDigits(s)
    ensures forall i :: 0 <= i < k ==> s[i] == '0'
  {
    if k == 0 then "" else "0" + Zeros(k - 1)
  }

  /** `s` with zeros in front, to at least `width` characters. */
  function PadLeft(s: string, width: nat): (r: string)
    ensures |r| == if |s| < width then width else |s|
    ensures AllDigits(s) ==> AllDigits(r)
  {
    if |s| < width then Zeros(width - |s|) + s else s
  }

  /** The characters `String(n)` can produce without an exponent. */
  predicate NumeralChars(s: string)
  {
    forall i :: 0 <= i < |s| ==> IsDigit(s[i]) || s[i] in "-.NaInfity"
  }

  /** The absolute value of the digits. */
  function Magnitude(d: Decimal): nat
  {
    if d.digits < 0 then -d.digits else d.digits
  }

  /** The digits `String(n)` prints, without sign or point: at least `scale + 1` of them. */
  function DigitRun(d: Decimal): (r: string)
    ensures AllDigits(r) && |r| > d.scale
  {
    PadLeft(Digits(Magnitude(d)), d.scale + 1)
  }

  function DecimalToString(d: FiniteNumber): (s: string)
    ensures 1 <= |s|
    ensures s[0] == '-' <==> d.digits < 0
    ensures forall i :: 0 <= i < |s| ==> IsDigit(s[i]) || s[i] == '-' || s[i] == '.'
  {
    var sign := if d.digits < 0 then "-" else "";
    var run := DigitRun(d);
    if d.scale == 0 then
      sign + run
    else
      var point := |run| - d.scale;
      sign + run[..point] + "." + run[point..]
  }

  /** The value of a string of decimal digits, leading zeros allowed. */
  function ValueOf(s: string): nat
    requires AllDigits(s)
    decreases |s|
  {
    if s == [] then 0 else 10 * ValueOf(s[..|s| - 1]) + (s[|s| - 1] as int - '0' as int)
  }

  /** `Digits` prints exactly the value it is given. */
  lemma {:induction false} ValueOfDigits(n: nat)
    ensures ValueOf(Digits(n)) == n
  {
    var s := Digits(n);
    if n < 10 {
      assert s[..0] == [];
    } else {
      assert s[..|s| - 1] == Digits(n / 10);
      ValueOfDigits(n / 10);
    }
  }

  /** A run of zeros has value 0. */
  lemma {:induction false} ValueOfZeros(t: string)
    requires forall i :: 0 <= i < |t| ==> t[i] == '0'
    ensures AllDigits(t) && ValueOf(t) == 0
    decreases |t|
  {
    if t != [] {
      ValueOfZeros(t[..|t| - 1]);
    }
  }

  /** Leading zeros do not change the value. */
  lemma {:induction false} ValueOfLeadingZeros(k: nat, s: string)
    requires AllDigits(s)
    ensures AllDigits(Zeros(k) + s) && ValueOf(Zeros(k) + s) == ValueOf(s)
    decreases |s|
  {
    var t := Zeros(k) + s;
    if s == [] {
      assert t == Zeros(k);
      ValueOfZeros(Zeros(k));
    } else {
      var front := s[..|s| - 1];
      assert t[..|t| - 1] == Zeros(k) + front;
      assert t[|t| - 1] == s[|s| - 1];
      ValueOfLeadingZeros(k, front);
    }
  }

  /** The run of digits stands for the magnitude. */
  lemma ValueOfDigitRun(d: Decimal)
    ensures ValueOf(DigitRun(d)) == Magnitude(d)
  {
    var s := Digits(Magnitude(d));
    ValueOfDigits(Magnitude(d));
    if |s| < d.scale + 1 {
      ValueOfLeadingZeros(d.scale + 1 - |s|, s);
    }
  }

  /** Where the point is: nowhere in an integer, else `scale` characters from the end. */
  lemma DecimalPoint(d: FiniteNumber)
    ensures var s := DecimalToString(d);
      && (d.scale == 0 ==> forall i :: 0 <= i < |s| ==> s[i] != '.')
      && (d.scale > 0 ==>
           && d.scale < |s| && s[|s| - 1 - d.scale] == '.'
           && forall i :: 0 <= i < |s| && i != |s| - 1 - d.scale ==> s[i] != '.')
  {
    var s := DecimalToString(d);
    var sign := if d.digits < 0 then "-" else "";
    var run := DigitRun(d);
    if d.scale == 0 {
      assert s == sign + run;
      forall i | 0 <= i < |s| ensures s[i] != '.' {
        if i >= |sign| { assert s[i] == run[i - |sign|]; }
      }
    } else {
      var point := |run| - d.scale;
      assert s == sign + run[..point] + "." + run[point..];
      forall i | 0 <= i < |s| && i != |s| - 1 - d.scale ensures s[i] != '.' {
        if |sign| <= i < |sign| + point {
          assert s[i] == run[i - |sign|];
        } else if i > |sign| + point {
          assert s[i] == run[i - |sign| - 1];
        }
      }
    }
  }

  /** A printed decimal without its sign. */
  function Unsigned(s: string): string
  {
    if |s| > 0 && s[0] == '-' then s[1..] else s
  }

  /** Digits with `scale` of them after the point: the point removed. */
  function Unpoint(rest: string, scale: nat): string
  {
    if scale == 0 || |rest| < scale + 1 then rest
    else rest[..|rest| - 1 - scale] + rest[|rest| - scale..]
  }

  /** The digits of a printed decimal with `scale` digits after the point: sign and point removed. */
  function RunOf(s: string, scale: nat): string
  {
    Unpoint(Unsigned(s), scale)
  }

  lemma UnsignedSplice(sign: string, body: string)
    requires sign == "" || sign == "-"
    requires |body| > 0 && body[0] != '-'
    ensures Unsigned(sign + body) == body
  {
    if sign == "-" {
      assert (sign + body)[1..] == body;
    } else {
      assert sign + body == body;
    }
  }

  lemma UnpointSplice(run: string, scale: nat)
    requires 0 < scale < |run|
    ensures var point := |run| - scale;
      Unpoint(run[..point] + "." + run[point..], scale) == run
  {
    var point := |run| - scale;
    var rest := run[..point] + "." + run[point..];
    assert rest[..point] == run[..point];
    assert rest[point + 1..] == run[point..];
    assert run[..point] + run[point..] == run;
  }

  /** The digit run can be read back from the printed string. */
  lemma DigitRunOfString(d: FiniteNumber)
    ensures RunOf(DecimalToString(d), d.scale) == DigitRun(d)
  {
    var sign := if d.digits < 0 then "-" else "";
    var run := DigitRun(d);
    assert IsDigit(run[0]);
    if d.scale == 0 {
      assert DecimalToString(d) == sign + run;
      UnsignedSplice(sign, run);
    } else {
      var point := |run| - d.scale;
      var body := run[..point] + "." + run[point..];
      assert DecimalToString(d) == sign + body;
      assert body[0] == run[0];
      UnsignedSplice(sign, body);
      UnpointSplice(run, d.scale);
    }
  }

  /** Equal printed strings put the point in the same place. */
  lemma SameScale(a: FiniteNumber, b: FiniteNumber)
    requires DecimalToString(a) == DecimalToString(b)
    ensures a.scale == b.scale
  {
    DecimalPoint(a);
    DecimalPoint(b);
  }

  /** Different finite numbers print differently. */
  lemma DecimalToStringInjective(a: FiniteNumber, b: FiniteNumber)
    requires DecimalToString(a) == DecimalToString(b)
    ensures a == b
  {
    SameScale(a, b);
    DigitRunOfString(a);
    DigitRunOfString(b);
    ValueOfDigitRun(a);
    ValueOfDigitRun(b);
    assert Magnitude(a) == Magnitude(b);
  }

  /** `String(n)`, for numbers printed without an exponent. */
  function NumberToString(n: Num): (s: string)
    ensures s != ""
    ensures NumeralChars(s)
  {
    match n
    case Finite(d) => DecimalToString(d)
    case NaN => "NaN"
    case Infinity => "Infinity"
    case NegativeInfinity => "-Infinity"
  }

  /** A printed finite number starts with a digit, or with `-` and a digit. */
  lemma DecimalStartsNumeric(d: FiniteNumber)
    ensures var s := DecimalToString(d);
      IsDigit(s[0]) || (s[0] == '-' && |s| > 1 && IsDigit(s[1]))
  {
    var run := DigitRun(d);
    assert IsDigit(run[0]);
    if d.scale > 0 {
      var point := |run| - d.scale;
      assert (run[..point] + "." + run[point..])[0] == run[0];
    }
  }

  /** `String` tells numbers apart: equal strings come from equal numbers. */
  lemma NumberToStringInjective(a: Num, b: Num)
    requires NumberToString(a) == NumberToString(b)
    ensures a == b
  {
    if a.Finite? {
      DecimalStartsNumeric(a.n);
      if b.Finite? {
        DecimalToStringInjective(a.n, b.n);
      }
    } else if b.Finite? {
      DecimalStartsNumeric(b.n);
    } else {
      assert |NumberToString(a)| == |NumberToString(b)|;
    }
  }

  /** An integer-valued number prints as the integer. */
  lemma IntPrintsAsInteger(i: int)
    ensures NumberToString(Int(i)) == IntToString(i)
  {
  }
}
