/**
 * A duration with its unit (Timeout), over `java.util.concurrent.TimeUnit`.
 * `TimeUnit.convert` multiplies towards a finer unit, saturating at the
 * bounds of `Long`, and divides towards a coarser one, truncating toward
 * zero.
 */
module Timeouts {
  import opened Decimal
  import opened Arith

  const LongMin: int := -0x8000_0000_0000_0000
  const LongMax: int := 0x7fff_ffff_ffff_ffff

  /** Kotlin `Long`. */
  type long = x: int | LongMin <= x <= LongMax

  datatype TimeUnit = Nanoseconds | Microseconds | Milliseconds | Seconds | Minutes | Hours | Days
  {
    /** Length of the unit in nanoseconds. */
    function Scale(): (n: nat)
      ensures n >= 1
    {
      match this
      case Nanoseconds => 1
      case Microseconds => 1000
      case Milliseconds => 1000_000
      case Seconds => 1000_000_000
      case Minutes => 60 * 1000_000_000
      case Hours => 3600 * 1000_000_000
      case Days => 86400 * 1000_000_000
    }

    /** `TimeUnit.humanReadable`, the suffix a duration is printed with. */
    function Suffix(): (s: string)
      ensures 1 <= |s| <= 3
    {
      match this
      case Nanoseconds => "ns"
      case Microseconds => "us"
      case Milliseconds => "ms"
      case Seconds => "s"
      case Minutes => "min"
      case Hours => "h"
      case Days => "d"
    }
  }

  /** Each unit is a whole multiple of every finer one. */
  lemma ScalesDivide(a: TimeUnit, b: TimeUnit)
    requires a.Scale() >= b.Scale()
    ensures a.Scale() % b.Scale() == 0
  {
    var n := b.Scale();
    match a
    case Nanoseconds =>
    case Microseconds => assert 1000 % n == 0;
    case Milliseconds => assert 1000_000 % n == 0;
    case Seconds => assert 1000_000_000 % n == 0;
    case Minutes => assert 60_000_000_000 % n == 0;
    case Hours => assert 3600_000_000_000 % n == 0;
    case Days => assert 86400_000_000_000 % n == 0;
  }

  /** Integer division truncating toward zero, as the JVM divides. */
  function TruncDiv(a: int, b: int): (q: int)
    requires b > 0
  {
    if a >= 0 then a / b else -((-a) / b)
  }

  /** `d * m`, clamped to the bounds of `Long` when it overflows, as `TimeUnit` multiplies. */
  function SaturatingMul(d: long, m: nat): (r: long)
    requires m >= 1
    ensures LongMin <= d * m <= LongMax ==> r == d * m
  {
    var over := LongMax / m;
    SaturationBounds(d, m, over);
    if d > over then LongMax
    else if d < -over then LongMin
    else ScaledInRange(d, m, over); d * m
  }

  /** `target.convert(d, source)`. */
  function Convert(d: long, source: TimeUnit, target: TimeUnit): (r: long)
    ensures source.Scale() < target.Scale() ==> r == TruncDiv(d, target.Scale() / source.Scale())
    ensures source.Scale() >= target.Scale() ==> r == SaturatingMul(d, source.Scale() / target.Scale())
  {
    if source.Scale() >= target.Scale() then
      SaturatingMul(d, source.Scale() / target.Scale())
    else
      TruncDivBound(d, target.Scale() / source.Scale());
      TruncDiv(d, target.Scale() / source.Scale())
  }

  lemma ScaledInRange(d: int, m: int, over: int)
    requires m >= 1 && over == LongMax / m && -over <= d <= over
    ensures LongMin <= d * m <= LongMax
  {
    assert m * over <= LongMax;
    MulMono(d, over, m);
    MulMono(-over, d, m);
    assert (-over) * m == -(m * over);
  }

  lemma SaturationBounds(d: int, m: int, over: int)
    requires m >= 1 && over == LongMax / m
    ensures d > over ==> d * m > LongMax
    ensures d < -over ==> d * m <= LongMin
  {
    assert LongMax < m * over + m;
    if d > over {
      MulMono(over + 1, d, m);
    } else if d < -over {
      MulMono(d, -over - 1, m);
    }
  }

  lemma TruncDivBound(a: int, b: int)
    requires b >= 1
    ensures a >= 0 ==> 0 <= TruncDiv(a, b) <= a
    ensures a < 0 ==> a <= TruncDiv(a, b) <= 0
  {
    if a >= 0 {
      DivBounds(a, b);
    } else {
      DivBounds(-a, b);
    }
  }

  datatype Timeout = Timeout(value: long, unit: TimeUnit)
  {
    /** `humanReadable`: the value in decimal followed by the unit's suffix. */
    function HumanReadable(): string {
      IntString(value) + unit.Suffix()
    }

    /** `to(target)` as written: the converted value, under the constructor's default unit. */
    function To(target: TimeUnit): (t: Timeout)
      ensures t.value == Convert(value, unit, target)
      ensures t.unit == Seconds
    {
      Of(Convert(value, unit, target))
    }

    /** What `to(target)` is evidently meant to return: the converted value in the target unit. */
    function ToUnit(target: TimeUnit): (t: Timeout)
      ensures t.value == Convert(value, unit, target) && t.unit == target
    {
      Timeout(Convert(value, unit, target), target)
    }
  }

  /** `Timeout(value)`: the unit defaults to seconds. */
  function Of(value: long): (t: Timeout)
    ensures t.unit == Seconds && t.value == value
  {
    Timeout(value, Seconds)
  }

  /** Converting to a finer unit and back gives the duration back, when the finer value fits in a Long. */
  lemma ToUnitRoundTrip(t: Timeout, finer: TimeUnit)
    requires finer.Scale() <= t.unit.Scale()
    requires LongMin <= t.value * (t.unit.Scale() / finer.Scale()) <= LongMax
    ensures t.ToUnit(finer).ToUnit(t.unit) == t
  {
    var m := t.unit.Scale() / finer.Scale();
    var v := t.value * m;
    var there := t.ToUnit(finer);
    assert there.value == v && there.unit == finer;
    var back := there.ToUnit(t.unit);
    assert back.unit == t.unit;
    if finer.Scale() == t.unit.Scale() {
      assert m == 1;
      assert back.value == v * 1;
    } else {
      assert back.value == TruncDiv(v, m);
      MulTruncDiv(t.value, m);
    }
  }

  lemma MulTruncDiv(a: int, m: int)
    requires m >= 1
    ensures TruncDiv(a * m, m) == a
  {
    if a >= 0 {
      MulNonneg(a, m);
      MulDiv(a, m);
    } else {
      assert -(a * m) == (-a) * m;
      MulAtLeast(m, -a);
      MulDiv(-a, m);
    }
  }

  /** The printed form names the number and the unit, so different durations print differently. */
  lemma HumanReadableInjective(s: Timeout, t: Timeout)
    requires s.HumanReadable() == t.HumanReadable()
    ensures s == t
  {
    SuffixEnds(s.unit, t.unit, IntString(s.value), IntString(t.value));
    IntStringInjective(s.value, t.value);
  }

  /** No suffix contains a digit. */
  lemma SuffixHasNoDigit(u: TimeUnit)
    ensures forall i :: 0 <= i < |u.Suffix()| ==> !IsDigit(u.Suffix()[i])
  {
  }

  /** How many characters at the end of `w` are not digits. */
  function TrailingLetters(w: string): nat {
    if w == [] || IsDigit(w[|w| - 1]) then 0 else 1 + TrailingLetters(w[..|w| - 1])
  }

  lemma {:induction false} TrailingLettersOfSuffix(x: string, s: string)
    requires |x| >= 1 && IsDigit(x[|x| - 1])
    requires forall i :: 0 <= i < |s| ==> !IsDigit(s[i])
    ensures TrailingLetters(x + s) == |s|
  {
    if s != [] {
      assert (x + s)[..|x + s| - 1] == x + s[..|s| - 1];
      TrailingLettersOfSuffix(x, s[..|s| - 1]);
    } else {
      assert x + s == x;
    }
  }

  /** Number and suffix are told apart: the number ends in a digit, and no suffix holds one. */
  lemma SuffixEnds(u: TimeUnit, v: TimeUnit, x: string, y: string)
    requires |x| >= 1 && |y| >= 1
    requires IsDigit(x[|x| - 1]) && IsDigit(y[|y| - 1])
    requires x + u.Suffix() == y + v.Suffix()
    ensures u == v && x == y
  {
    var a := x + u.Suffix();
    var su, sv := u.Suffix(), v.Suffix();
    SuffixHasNoDigit(u);
    SuffixHasNoDigit(v);
    TrailingLettersOfSuffix(x, su);
    TrailingLettersOfSuffix(y, sv);
    assert su == a[|a| - |su|..] == sv;
    assert x == a[..|a| - |su|] == y;
  }

  /**
   * `to` loses the target unit: five seconds converted to milliseconds and
   * back to seconds is read as 5000 seconds, and prints as "5000s".
   */
  lemma ToForgetsTargetUnit()
    ensures Of(5).To(Milliseconds).To(Seconds).value == 5000
    ensures Of(5).To(Milliseconds).HumanReadable() == "5000s"
    ensures Of(5).ToUnit(Milliseconds).ToUnit(Seconds) == Of(5)
  {
    ToUnitRoundTrip(Of(5), Milliseconds);
  }
}
