/** Values and arithmetic shared by every component of the model. */
module Common {

  datatype Option<T> = None | Some(value: T)

  /** The four recovery bands the wellness store reports. */
  datatype Status = Poor | Fair | Good | Excellent

  /** Theme colours the components choose between, as severities. */
  datatype ThemeColor = ErrorColor | WarningColor | InfoColor | SuccessColor | PrimaryColor

  /**
   * A JavaScript number as far as these components can produce one: a finite
   * value, an infinity (`Math.max()` of nothing, `x / 0`) or NaN (`0 / 0`).
   */
  datatype JsNumber = Finite(value: real) | PosInfinity | NegInfinity | NaN

  /** JavaScript division of two finite numbers. */
  function Divide(a: real, b: real): (r: JsNumber)
    ensures b != 0.0 ==> r.Finite? && r.value * b == a
    ensures b == 0.0 ==> (r.NaN? <==> a == 0.0) && (r.PosInfinity? <==> a > 0.0)
  {
    if b != 0.0 then Finite(a / b)
    else if a > 0.0 then PosInfinity
    else if a < 0.0 then NegInfinity
    else NaN
  }

  /** `x * k` for a JavaScript number and a positive constant `k`: infinities and NaN pass through. */
  function Times(x: JsNumber, k: real): (r: JsNumber)
    requires k > 0.0
    ensures x.Finite? <==> r.Finite?
    ensures x.Finite? ==> r.value == x.value * k
    ensures !x.Finite? ==> r == x
  {
    if x.Finite? then Finite(x.value * k) else x
  }

  /** `Math.round`: the nearest integer, halves rounded up. */
  function Round(x: real): (r: int)
    ensures r as real <= x + 0.5 < r as real + 1.0
  {
    (x + 0.5).Floor
  }

  lemma RoundMonotone(x: real, y: real)
    requires x <= y
    ensures Round(x) <= Round(y)
  {
  }

  /** `Math.round` lifted to JavaScript numbers: infinities and NaN pass through. */
  function RoundJs(x: JsNumber): (r: JsNumber)
    ensures x.Finite? <==> r.Finite?
    ensures x.Finite? ==> r.value == Round(x.value) as real
    ensures !x.Finite? ==> r == x
  {
    if x.Finite? then Finite(Round(x.value) as real) else x
  }

  /** `Math.min(hi, Math.max(lo, x))`. */
  function Clamp(x: real, lo: real, hi: real): (r: real)
    requires lo <= hi
    ensures lo <= r <= hi
    ensures lo <= x <= hi ==> r == x
    ensures x < lo ==> r == lo
    ensures hi < x ==> r == hi
  {
    if x < lo then lo else if hi < x then hi else x
  }

  /**
   * `Math.min(hi, Math.max(lo, x))` on a JavaScript number: infinities are
   * clamped like any other value and NaN passes through.
   */
  function ClampJs(x: JsNumber, lo: real, hi: real): (r: JsNumber)
    requires lo <= hi
    ensures x.NaN? <==> r.NaN?
    ensures r.Finite? ==> lo <= r.value <= hi
    ensures x.Finite? ==> r == Finite(Clamp(x.value, lo, hi))
    ensures x.PosInfinity? ==> r == Finite(hi)
    ensures x.NegInfinity? ==> r == Finite(lo)
  {
    match x
    case Finite(v) => Finite(Clamp(v, lo, hi))
    case PosInfinity => Finite(hi)
    case NegInfinity => Finite(lo)
    case NaN => NaN
  }

  /** Clamping an already clamped number changes nothing. */
  lemma ClampJsIdempotent(x: JsNumber, lo: real, hi: real)
    requires lo <= hi
    ensures ClampJs(ClampJs(x, lo, hi), lo, hi) == ClampJs(x, lo, hi)
  {
  }

  /** `x < c` for a JavaScript number: false for NaN. */
  predicate Below(x: JsNumber, c: real)
  {
    x.NegInfinity? || (x.Finite? && x.value < c)
  }

  /** Dividing bounds on a sum of `n` values by `n` bounds their average. */
  lemma AverageBounds(sum: real, n: real, lo: real, hi: real)
    requires n > 0.0
    requires lo * n <= sum <= hi * n
    ensures lo <= sum / n <= hi
  {
    assert sum / n * n == sum;
  }

  /** A change relative to a positive base, in percent: it scales back to the change and keeps its sign. */
  lemma PercentOfPositive(change: real, base: real)
    requires base > 0.0
    ensures change / base * 100.0 * base == change * 100.0
    ensures change / base * 100.0 > 0.0 <==> change > 0.0
    ensures change / base * 100.0 < 0.0 <==> change < 0.0
  {
    assert change / base * base == change;
  }

  lemma MulNonNegative(x: real, y: real)
    requires x >= 0.0 && y >= 0.0
    ensures x * y >= 0.0
  {
  }

  lemma MulPositive(x: real, y: real)
    requires x > 0.0 && y > 0.0
    ensures x * y > 0.0
  {
  }

  /** A part of a positive whole, in percent, lies in [0, 100] and is 100 exactly for the whole. */
  lemma PercentOfWhole(part: real, whole: real)
    requires whole > 0.0 && 0.0 <= part <= whole
    ensures 0.0 <= part / whole * 100.0 <= 100.0
    ensures part / whole * 100.0 == 100.0 <==> part == whole
  {
    assert part / whole * whole == part;
    assert part / whole <= 1.0;
  }

  function Max(a: real, b: real): (r: real)
    ensures r >= a && r >= b && (r == a || r == b)
  {
    if a >= b then a else b
  }

  // ---------------------------------------------------------------------------
  // Time. A timestamp is a count of milliseconds of local time; a calendar day
  // is the day number that timestamp falls on (time zones and daylight saving
  // are not part of the model).

  const MsPerSecond: int := 1000
  const MsPerDay: int := 86_400_000

  /** The calendar day a timestamp falls on, as a day number. */
  function DayOf(t: int): int
  {
    t / MsPerDay
  }

  lemma DayOfMonotone(t: int, u: int)
    requires t <= u
    ensures DayOf(t) <= DayOf(u)
  {
    var a, b := t / MsPerDay, u / MsPerDay;
    assert t == a * MsPerDay + t % MsPerDay;
    assert u == b * MsPerDay + u % MsPerDay;
  }

  // ---------------------------------------------------------------------------
  // Decimal rendering of integers (`n.toString()`), with its parser.

  predicate IsDigit(c: char)
  {
    '0' <= c <= '9'
  }

  function DigitChar(d: int): (c: char)
    requires 0 <= d < 10
    ensures IsDigit(c) && c as int - '0' as int == d
  {
    ('0' as int + d) as char
  }

  /** `n.toString()` for a natural number. */
  function NatToString(n: nat): (s: string)
    ensures 1 <= |s|
    ensures forall i :: 0 <= i < |s| ==> IsDigit(s[i])
    ensures n < 10 <==> |s| == 1
  {
    if n < 10 then [DigitChar(n)] else NatToString(n / 10) + [DigitChar(n % 10)]
  }

  /** The value of a string of decimal digits. */
  function ParseNat(s: string): nat
    requires forall i :: 0 <= i < |s| ==> IsDigit(s[i])
  {
    if s == [] then 0
    else
      assert IsDigit(s[|s| - 1]);
      ParseNat(s[..|s| - 1]) * 10 + (s[|s| - 1] as int - '0' as int)
  }

  lemma {:induction false} ParseNatToString(n: nat)
    ensures ParseNat(NatToString(n)) == n
  {
    if n >= 10 {
      var s := NatToString(n);
      assert s[..|s| - 1] == NatToString(n / 10);
      ParseNatToString(n / 10);
    }
  }

  lemma SeparatorAt(a: string, sep: char, c: string)
    ensures (a + [sep] + c)[|a|] == sep
  {
  }

  /** Two digit strings joined by a non-digit separator can be split back apart. */
  lemma SplitAtSeparator(a: string, b: string, c: string, d: string, sep: char)
    requires !IsDigit(sep)
    requires forall i :: 0 <= i < |a| ==> IsDigit(a[i])
    requires forall i :: 0 <= i < |b| ==> IsDigit(b[i])
    requires a + [sep] + c == b + [sep] + d
    ensures a == b && c == d
  {
    var x := a + [sep] + c;
    if |a| < |b| {
      SeparatorAt(a, sep, c);
      assert false;
    } else if |b| < |a| {
      SeparatorAt(b, sep, d);
      assert false;
    }
    assert a == x[..|a|];
    assert c == x[|a| + 1..];
  }

  /** Distinct natural numbers render differently. */
  lemma NatToStringInjective(m: nat, n: nat)
    requires NatToString(m) == NatToString(n)
    ensures m == n
  {
    ParseNatToString(m);
    ParseNatToString(n);
  }

  /** A printed integer starts with a digit exactly when it is not negative. */
  lemma IntToStringSign(i: int)
    ensures |IntToString(i)| >= 1
    ensures IsDigit(IntToString(i)[0]) <==> i >= 0
  {
  }

  /** Different integers print differently. */
  lemma IntToStringInjective(m: int, n: int)
    requires IntToString(m) == IntToString(n)
    ensures m == n
  {
    var s := IntToString(m);
    IntToStringSign(m);
    IntToStringSign(n);
    if m < 0 && n < 0 {
      assert s[1..] == NatToString(-m) == NatToString(-n);
      NatToStringInjective(-m, -n);
    } else if m < 0 {
      assert false;
    } else if n < 0 {
      assert false;
    } else {
      NatToStringInjective(m, n);
    }
  }

  /** `i.toString()` for any integer: a minus sign before the magnitude. */
  function IntToString(i: int): string
  {
    if i < 0 then "-" + NatToString(-i) else NatToString(i)
  }

  /** JavaScript `a % b` for a positive `b`: the remainder takes the sign of `a`. */
  function JsRemainder(a: int, b: int): (r: int)
    requires b > 0
    ensures -b < r < b
    ensures a >= 0 ==> r == a % b
    ensures a < 0 ==> r == -((-a) % b)
  {
    if a >= 0 then a % b else -((-a) % b)
  }

  /** A leading zero does not change the value of a digit string. */
  lemma {:induction false} ParseNatLeadingZero(s: string)
    requires forall i :: 0 <= i < |s| ==> IsDigit(s[i])
    ensures ParseNat("0" + s) == ParseNat(s)
  {
    if s != [] {
      var t := "0" + s;
      assert t[..|t| - 1] == "0" + s[..|s| - 1];
      ParseNatLeadingZero(s[..|s| - 1]);
    } else {
      assert ("0" + s)[..0] == [];
    }
  }

  /** `s.padStart(2, "0")`. */
  function PadTwo(s: string): (r: string)
    ensures |s| >= 2 ==> r == s
    ensures |s| < 2 ==> |r| == 2 && r[2 - |s|..] == s
  {
    if |s| == 0 then "00" else if |s| == 1 then "0" + s else s
  }
}
