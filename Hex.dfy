/**
 * Bytes and hexadecimal text, as the decoders and the UUID tables use them:
 * `"%02x".format(byte)`, `"%08x".format(int)`, and reading hex digits back
 * the way `UUID.fromString` does.
 */
module Hex {
  import opened Nullable

  /** A byte of a payload, taken unsigned; `Signed8` gives Kotlin's `Byte` value. */
  type byte = b: int | 0 <= b < 256

  /** Kotlin `Byte.toInt()`: two's-complement reading of a byte. */
  function Signed8(b: byte): (v: int)
    ensures -128 <= v < 128 && (v == b || v == b - 256)
  {
    if b < 128 then b else b - 256
  }

  function Pow16(n: nat): (p: nat)
    ensures p >= 1
  {
    if n == 0 then 1 else 16 * Pow16(n - 1)
  }

  /** The lower-case digit for `d`, as `%x` prints it. */
  function Digit(d: nat): (c: char)
    requires d < 16
    ensures IsLowerDigit(c)
  {
    if d < 10 then ('0' as int + d) as char else ('a' as int + d - 10) as char
  }

  predicate IsLowerDigit(c: char) {
    '0' <= c <= '9' || 'a' <= c <= 'f'
  }

  /** The value of one hex digit; upper and lower case are both accepted. */
  function DigitValue(c: char): Option<nat> {
    if '0' <= c <= '9' then Some(c as int - '0' as int)
    else if 'a' <= c <= 'f' then Some(c as int - 'a' as int + 10)
    else if 'A' <= c <= 'F' then Some(c as int - 'A' as int + 10)
    else None
  }

  /** `"%0<width>x".format(n)` for a value that fits in `width` digits. */
  function Format(n: nat, width: nat): (s: string)
    requires n < Pow16(width)
    ensures |s| == width
  {
    if width == 0 then "" else Format(n / 16, width - 1) + [Digit(n % 16)]
  }

  /** The number a string of hex digits denotes, or `None` if one of its characters is not a digit. */
  function Value(s: string): Option<nat> {
    if s == [] then Some(0)
    else
      var high, low := Value(s[..|s| - 1]), DigitValue(s[|s| - 1]);
      if high.Some? && low.Some? then Some(high.value * 16 + low.value) else None
  }

  predicate IsLowerHex(s: string) {
    forall i :: 0 <= i < |s| ==> IsLowerDigit(s[i])
  }

  /** `IsLowerHex` of the characters from `i` on, checked one at a time. */
  predicate LowerHexFrom(s: string, i: nat)
    decreases |s| - i
  {
    i >= |s| || (IsLowerDigit(s[i]) && LowerHexFrom(s, i + 1))
  }

  lemma {:induction false} LowerHexFromSound(s: string, i: nat)
    requires LowerHexFrom(s, i)
    ensures forall k :: i <= k < |s| ==> IsLowerDigit(s[k])
    decreases |s| - i
  {
    if i < |s| {
      LowerHexFromSound(s, i + 1);
    }
  }

  /** `"%02x".format(b)` */
  function HexByte(b: byte): (s: string)
    ensures |s| == 2 && IsLowerHex(s)
  {
    FormatIsLowerHex(b, 2);
    Format(b, 2)
  }

  /** `joinToString(":")` of the two-digit forms of `bs`. */
  function JoinHex(bs: seq<byte>): (s: string)
    ensures bs == [] ==> s == ""
    ensures bs != [] ==> |s| == 3 * |bs| - 1
  {
    if bs == [] then ""
    else if |bs| == 1 then HexByte(bs[0])
    else HexByte(bs[0]) + ":" + JoinHex(bs[1..])
  }

  /** Joining is byte by byte: the first byte's digits, a ':', then the rest. */
  lemma JoinHexCons(b: byte, bs: seq<byte>)
    requires bs != []
    ensures JoinHex([b] + bs) == HexByte(b) + ":" + JoinHex(bs)
  {
    assert ([b] + bs)[1..] == bs;
  }

  function Reverse<T>(s: seq<T>): (r: seq<T>)
    ensures |r| == |s|
    ensures forall i :: 0 <= i < |s| ==> r[i] == s[|s| - 1 - i]
  {
    if s == [] then [] else Reverse(s[1..]) + [s[0]]
  }

  lemma {:induction false} FormatIsLowerHex(n: nat, width: nat)
    requires n < Pow16(width)
    ensures IsLowerHex(Format(n, width))
  {
    if width > 0 {
      FormatIsLowerHex(n / 16, width - 1);
    }
  }

  /** Reading back what `Format` wrote gives the number it formatted. */
  lemma {:induction false} ValueOfFormat(n: nat, width: nat)
    requires n < Pow16(width)
    ensures Value(Format(n, width)) == Some(n)
  {
    if width > 0 {
      var s := Format(n, width);
      assert s[..|s| - 1] == Format(n / 16, width - 1);
      ValueOfFormat(n / 16, width - 1);
      var d := n % 16;
      assert DigitValue(Digit(d)) == Some(d);
    }
  }

  /** Reading a lower-case digit back gives the value it was printed from. */
  lemma DigitOfLower(c: char) returns (d: nat)
    requires IsLowerDigit(c)
    ensures d < 16 && Digit(d) == c && DigitValue(c) == Some(d)
  {
    d := if c <= '9' then c as int - '0' as int else c as int - 'a' as int + 10;
  }

  lemma BoundStep(h: nat, p: nat, d: nat)
    requires h < p && d < 16
    ensures h * 16 + d < 16 * p
  {
  }

  lemma DivModDigit(h: nat, d: nat)
    requires d < 16
    ensures (h * 16 + d) / 16 == h && (h * 16 + d) % 16 == d
  {
  }

  /** A string of lower-case digits is the `Format` of its own value. */
  lemma {:induction false} FormatOfValue(s: string)
    requires IsLowerHex(s)
    ensures Value(s).Some? && Value(s).value < Pow16(|s|)
    ensures Format(Value(s).value, |s|) == s
  {
    if s != [] {
      var init, last := s[..|s| - 1], s[|s| - 1];
      assert IsLowerHex(init) by {
        forall i | 0 <= i < |init| ensures IsLowerDigit(init[i]) {
          assert init[i] == s[i];
        }
      }
      FormatOfValue(init);
      var h := Value(init).value;
      var d := DigitOfLower(last);
      var v := h * 16 + d;
      assert Value(s) == Some(v);
      BoundStep(h, Pow16(|init|), d);
      DivModDigit(h, d);
      assert Format(v, |s|) == Format(h, |init|) + [Digit(d)];
      assert s == init + [last];
    }
  }

  lemma ShiftByOneDigit(x: nat, p: nat, y: nat, d: nat)
    ensures (x * p + y) * 16 + d == x * (16 * p) + (y * 16 + d)
  {
  }

  /** The value of a concatenation: the left part shifted by the digits of the right part. */
  lemma {:induction false} ValueAppend(a: string, b: string)
    requires Value(a).Some? && Value(b).Some?
    ensures Value(a + b) == Some(Value(a).value * Pow16(|b|) + Value(b).value)
  {
    if b == [] {
      assert a + b == a;
    } else {
      var ab := a + b;
      var binit, last := b[..|b| - 1], b[|b| - 1];
      assert ab[..|ab| - 1] == a + binit;
      assert ab[|ab| - 1] == last;
      assert Value(binit).Some? && DigitValue(last).Some?;
      ValueAppend(a, binit);
      var x, y, d := Value(a).value, Value(binit).value, DigitValue(last).value;
      assert Value(ab) == Some((x * Pow16(|binit|) + y) * 16 + d);
      assert Value(b) == Some(y * 16 + d);
      ShiftByOneDigit(x, Pow16(|binit|), y, d);
    }
  }
}
