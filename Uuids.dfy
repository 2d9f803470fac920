/**
 * `java.util.UUID` as the tables use it: a 128-bit value in the five groups
 * of its canonical text form (8-4-4-4-12 hex digits), `fromString` reading
 * that form in either case, and `toString` writing it in lower case.
 */
module Uuids {
  import opened Nullable
  import opened Hex

  /** The five groups of a UUID, most significant first. */
  datatype Uuid = Uuid(timeLow: nat, timeMid: nat, timeHigh: nat, clockSeq: nat, node: nat)
  {
    predicate Valid() {
      timeLow < Pow16(8) && timeMid < Pow16(4) && timeHigh < Pow16(4) && clockSeq < Pow16(4) && node < Pow16(12)
    }
  }

  /** The canonical form's separators: 36 characters with '-' at 8, 13, 18 and 23. */
  predicate HasHyphens(s: string) {
    |s| == 36 && s[8] == '-' && s[13] == '-' && s[18] == '-' && s[23] == '-'
  }

  /** Five groups of the canonical widths joined by '-', and where each lands in the text. */
  function Join(a: string, b: string, c: string, d: string, e: string): (s: string)
    requires |a| == 8 && |b| == 4 && |c| == 4 && |d| == 4 && |e| == 12
    ensures HasHyphens(s)
    ensures s[..8] == a && s[9..13] == b && s[14..18] == c && s[19..23] == d && s[24..] == e
  {
    var p2 := a + "-" + b;
    var p3 := p2 + "-" + c;
    var p4 := p3 + "-" + d;
    var s := p4 + "-" + e;
    assert s[..23] == p4 && s[24..] == e;
    assert p4[..18] == p3 && p4[19..] == d;
    assert p3[..13] == p2 && p3[14..] == c;
    assert p2[..8] == a && p2[9..] == b;
    assert s[..8] == p4[..8] == p3[..8] == p2[..8];
    assert s[9..13] == p4[9..13] == p3[9..13] == p2[9..];
    assert s[14..18] == p4[14..18] == p3[14..];
    assert s[19..23] == p4[19..];
    s
  }

  /** `UUID.toString`: the groups as lower-case hex, zero-padded, joined by '-'. */
  function ToString(u: Uuid): (s: string)
    requires u.Valid()
    ensures HasHyphens(s)
  {
    Join(Format(u.timeLow, 8), Format(u.timeMid, 4), Format(u.timeHigh, 4), Format(u.clockSeq, 4), Format(u.node, 12))
  }

  /**
   * `UUID.fromString` on the canonical form: the value of each group, or
   * `None` where the source throws.
   */
  function FromString(s: string): (u: Option<Uuid>)
    ensures u.Some? ==> u.value.Valid() && HasHyphens(s)
  {
    if !HasHyphens(s) then None
    else
      var a, b, c, d, e := Value(s[..8]), Value(s[9..13]), Value(s[14..18]), Value(s[19..23]), Value(s[24..]);
      if a.Some? && b.Some? && c.Some? && d.Some? && e.Some? then
        ValueBound(s[..8]);
        ValueBound(s[9..13]);
        ValueBound(s[14..18]);
        ValueBound(s[19..23]);
        ValueBound(s[24..]);
        Some(Uuid(a.value, b.value, c.value, d.value, e.value))
      else None
  }

  /** The lower-case canonical form, the only form `toString` writes. */
  predicate IsLowerCanonical(s: string) {
    && HasHyphens(s)
    && IsLowerHex(s[..8]) && IsLowerHex(s[9..13]) && IsLowerHex(s[14..18]) && IsLowerHex(s[19..23]) && IsLowerHex(s[24..])
  }

  /** Lower-case groups, each checked one character at a time, join into a lower-case canonical text. */
  lemma CheckCanonical(a: string, b: string, c: string, d: string, e: string)
    requires |a| == 8 && |b| == 4 && |c| == 4 && |d| == 4 && |e| == 12
    requires LowerHexFrom(a, 0) && LowerHexFrom(b, 0) && LowerHexFrom(c, 0) && LowerHexFrom(d, 0) && LowerHexFrom(e, 0)
    ensures IsLowerCanonical(Join(a, b, c, d, e))
  {
    LowerHexFromSound(a, 0);
    LowerHexFromSound(b, 0);
    LowerHexFromSound(c, 0);
    LowerHexFromSound(d, 0);
    LowerHexFromSound(e, 0);
  }

  /** A string of `n` digits denotes less than 16^n. */
  lemma {:induction false} ValueBound(s: string)
    requires Value(s).Some?
    ensures Value(s).value < Pow16(|s|)
  {
    if s != [] {
      ValueBound(s[..|s| - 1]);
      BoundStep(Value(s[..|s| - 1]).value, Pow16(|s| - 1), DigitValue(s[|s| - 1]).value);
    }
  }

  /** Reading back what `toString` wrote gives the UUID. */
  lemma ParseOfToString(u: Uuid)
    requires u.Valid()
    ensures FromString(ToString(u)) == Some(u)
    ensures IsLowerCanonical(ToString(u))
  {
    ValueOfFormat(u.timeLow, 8);
    ValueOfFormat(u.timeMid, 4);
    ValueOfFormat(u.timeHigh, 4);
    ValueOfFormat(u.clockSeq, 4);
    ValueOfFormat(u.node, 12);
    FormatIsLowerHex(u.timeLow, 8);
    FormatIsLowerHex(u.timeMid, 4);
    FormatIsLowerHex(u.timeHigh, 4);
    FormatIsLowerHex(u.clockSeq, 4);
    FormatIsLowerHex(u.node, 12);
  }

  /** Two texts with the canonical separators are equal when their five groups are. */
  lemma SameGroupsSameText(s: string, t: string)
    requires HasHyphens(s) && HasHyphens(t)
    requires s[..8] == t[..8] && s[9..13] == t[9..13] && s[14..18] == t[14..18] && s[19..23] == t[19..23] && s[24..] == t[24..]
    ensures s == t
  {
    forall i | 0 <= i < 36 ensures s[i] == t[i] {
      if i < 8 {
        assert s[i] == s[..8][i] && t[i] == t[..8][i];
      } else if 9 <= i < 13 {
        assert s[i] == s[9..13][i - 9] && t[i] == t[9..13][i - 9];
      } else if 14 <= i < 18 {
        assert s[i] == s[14..18][i - 14] && t[i] == t[14..18][i - 14];
      } else if 19 <= i < 23 {
        assert s[i] == s[19..23][i - 19] && t[i] == t[19..23][i - 19];
      } else if 24 <= i {
        assert s[i] == s[24..][i - 24] && t[i] == t[24..][i - 24];
      }
    }
  }

  /** Joins that differ only in the first group agree after it. */
  lemma SameTail(a: string, a': string, b: string, c: string, d: string, e: string)
    requires |a| == 8 && |a'| == 8 && |b| == 4 && |c| == 4 && |d| == 4 && |e| == 12
    ensures Join(a, b, c, d, e)[8..] == Join(a', b, c, d, e)[8..]
  {
    var s, t := Join(a, b, c, d, e), Join(a', b, c, d, e);
    forall i | 8 <= i < 36 ensures s[i] == t[i] {
      if 9 <= i < 13 {
        assert s[i] == s[9..13][i - 9] && t[i] == t[9..13][i - 9];
      } else if 14 <= i < 18 {
        assert s[i] == s[14..18][i - 14] && t[i] == t[14..18][i - 14];
      } else if 19 <= i < 23 {
        assert s[i] == s[19..23][i - 19] && t[i] == t[19..23][i - 19];
      } else if 24 <= i {
        assert s[i] == s[24..][i - 24] && t[i] == t[24..][i - 24];
      }
    }
    assert forall i :: 0 <= i < 28 ==> s[8..][i] == s[i + 8] && t[8..][i] == t[i + 8];
  }

  /** A text that agrees with `t` after the first group denotes `t`'s UUID with its own first group. */
  lemma WithTimeLow(s: string, t: string)
    requires FromString(t).Some? && |s| == 36 && s[8..] == t[8..] && Value(s[..8]).Some?
    ensures FromString(s) == Some(FromString(t).value.(timeLow := Value(s[..8]).value))
  {
    assert s[8] == s[8..][0] && s[13] == s[8..][5] && s[18] == s[8..][10] && s[23] == s[8..][15];
    assert s[9..13] == s[8..][1..5] && t[9..13] == t[8..][1..5];
    assert s[14..18] == s[8..][6..10] && t[14..18] == t[8..][6..10];
    assert s[19..23] == s[8..][11..15] && t[19..23] == t[8..][11..15];
    assert s[24..] == s[8..][16..] && t[24..] == t[8..][16..];
  }

  /** A lower-case canonical string is what `toString` writes for the UUID it denotes. */
  lemma ToStringOfParse(s: string)
    requires IsLowerCanonical(s)
    ensures FromString(s).Some? && ToString(FromString(s).value) == s
  {
    FormatOfValue(s[..8]);
    FormatOfValue(s[9..13]);
    FormatOfValue(s[14..18]);
    FormatOfValue(s[19..23]);
    FormatOfValue(s[24..]);
    SameGroupsSameText(ToString(FromString(s).value), s);
  }

  /** `toString` is one-to-one. */
  lemma ToStringInjective(u: Uuid, v: Uuid)
    requires u.Valid() && v.Valid() && ToString(u) == ToString(v)
    ensures u == v
  {
    ParseOfToString(u);
    ParseOfToString(v);
  }
}
