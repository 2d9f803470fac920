/**
 * The build-time id generator: `Generator.addMapping` turns a service or
 * characteristic name into a unique enum-constant name, and the enum it
 * emits gives each constant a `uuidString` built from its short id, a
 * `fromUuid` lookup and a `getFullName` with a fallback.
 *
 * The code model and the file it writes are not modelled; the emitted
 * class is modelled by what its members compute.
 */
module IdGenerator {
  import opened Nullable
  import opened Hex
  import Decimal
  import Uuids
  import GattServices

  /*
   * The base name: `name.toUpperCase().replaceAll("[\\s-()]+", "_")`.
   */

  /** `Character.toUpperCase` on ASCII letters; other characters are kept. */
  function Upper(c: char): (u: char)
    ensures 'a' <= c <= 'z' ==> 'A' <= u <= 'Z' && u as int == c as int - 32
    ensures !('a' <= c <= 'z') ==> u == c
  {
    if 'a' <= c <= 'z' then (c as int - 32) as char else c
  }

  function UpperCase(s: string): (r: string)
    ensures |r| == |s| && forall i :: 0 <= i < |s| ==> r[i] == Upper(s[i])
  {
    seq(|s|, i requires 0 <= i < |s| => Upper(s[i]))
  }

  /** The class `[\s-()]`: Java's `\s` (space, tab, newline, vertical tab, form feed, carriage return), '-', '(' and ')'. */
  predicate IsSeparator(c: char) {
    c == ' ' || c == '\t' || c == '\n' || c as int == 0x0B || c as int == 0x0C || c == '\r'
      || c == '-' || c == '(' || c == ')'
  }

  predicate NoSeparators(s: string) {
    forall i :: 0 <= i < |s| ==> !IsSeparator(s[i])
  }

  predicate AllSeparators(s: string) {
    forall i :: 0 <= i < |s| ==> IsSeparator(s[i])
  }

  /** What is left after the run of separators `s` starts with. */
  function DropSeparators(s: string): (r: string)
    ensures |r| <= |s|
    ensures s != [] && IsSeparator(s[0]) ==> |r| < |s|
    ensures r == [] || !IsSeparator(r[0])
  {
    if s != [] && IsSeparator(s[0]) then DropSeparators(s[1..]) else s
  }

  /** What `DropSeparators` drops is a run of separators, and what it keeps is the rest of `s`. */
  lemma {:induction false} DropIsSuffix(s: string)
    ensures var r := DropSeparators(s); r == s[|s| - |r|..] && AllSeparators(s[..|s| - |r|])
  {
    if s != [] && IsSeparator(s[0]) {
      DropIsSuffix(s[1..]);
      var r := DropSeparators(s);
      assert s[1..][|s| - 1 - |r|..] == s[|s| - |r|..];
      assert s[1..][..|s| - 1 - |r|] == s[1..|s| - |r|];
    }
  }

  /** `replaceAll("[\\s-()]+", "_")`: every maximal run of separators becomes one '_'. */
  function Collapse(s: string): (r: string)
    ensures NoSeparators(r)
    ensures |r| <= |s|
    decreases |s|
  {
    if s == [] then []
    else if IsSeparator(s[0]) then "_" + Collapse(DropSeparators(s))
    else [s[0]] + Collapse(s[1..])
  }

  /** The base name of a constant. */
  function BaseName(name: string): string {
    Collapse(UpperCase(name))
  }

  /** A text without separators is left as it is. */
  lemma {:induction false} CollapseKeeps(s: string)
    requires NoSeparators(s)
    ensures Collapse(s) == s
  {
    if s != [] {
      CollapseKeeps(s[1..]);
    }
  }

  /** A run of separators becomes a single '_'. */
  lemma CollapseRun(s: string)
    requires s != [] && AllSeparators(s)
    ensures Collapse(s) == "_"
  {
    SeparatorsThenText(s, []);
    assert s + [] == s;
  }

  /** Dropping a run of separators that is all of `x` leaves `y`, when `y` does not go on with the run. */
  lemma {:induction false} SeparatorsThenText(x: string, y: string)
    requires AllSeparators(x) && (y == [] || !IsSeparator(y[0]))
    ensures DropSeparators(x + y) == y
    decreases |x|
  {
    if x == [] {
      assert x + y == y;
    } else {
      assert (x + y)[1..] == x[1..] + y;
      SeparatorsThenText(x[1..], y);
    }
  }

  /** The separators `x + y` starts with are those of `x`, unless `x` is nothing but separators. */
  lemma {:induction false} DropAppend(x: string, y: string)
    requires DropSeparators(x) != []
    ensures DropSeparators(x + y) == DropSeparators(x) + y
  {
    if IsSeparator(x[0]) {
      assert (x + y)[1..] == x[1..] + y;
      DropAppend(x[1..], y);
    }
  }

  /**
   * Collapsing works piece by piece wherever the pieces do not split a run
   * of separators.
   */
  lemma {:induction false} CollapseAppend(x: string, y: string)
    requires x == [] || y == [] || !IsSeparator(x[|x| - 1]) || !IsSeparator(y[0])
    ensures Collapse(x + y) == Collapse(x) + Collapse(y)
    decreases |x|, 1
  {
    if x == [] {
      assert x + y == y;
    } else if y == [] {
      assert x + y == x;
    } else if IsSeparator(x[0]) {
      CollapseAppendRun(x, y);
    } else {
      assert (x + y)[1..] == x[1..] + y;
      CollapseAppend(x[1..], y);
      assert [x[0]] + (Collapse(x[1..]) + Collapse(y)) == [x[0]] + Collapse(x[1..]) + Collapse(y);
    }
  }

  /** The same, for an `x` that starts with a run of separators. */
  lemma {:induction false} CollapseAppendRun(x: string, y: string)
    requires x != [] && y != [] && IsSeparator(x[0])
    requires !IsSeparator(x[|x| - 1]) || !IsSeparator(y[0])
    ensures Collapse(x + y) == Collapse(x) + Collapse(y)
    decreases |x|, 0
  {
    var r := DropSeparators(x);
    assert (x + y)[0] == x[0];
    if r != [] {
      DropAppend(x, y);
      DropKeepsLast(x);
      CollapseAppend(r, y);
      calc {
        Collapse(x + y);
        "_" + Collapse(r + y);
        "_" + (Collapse(r) + Collapse(y));
        { AppendAssoc("_", Collapse(r), Collapse(y)); }
        ("_" + Collapse(r)) + Collapse(y);
        Collapse(x) + Collapse(y);
      }
    } else {
      DropAllSeparators(x);
      SeparatorsThenText(x, y);
      calc {
        Collapse(x + y);
        "_" + Collapse(y);
        { assert Collapse(x) == "_"; }
        Collapse(x) + Collapse(y);
      }
    }
  }

  lemma AppendAssoc(a: string, b: string, c: string)
    ensures a + (b + c) == (a + b) + c
  {
  }

  /** What `DropSeparators` keeps, if anything, ends as `s` does. */
  lemma {:induction false} DropKeepsLast(s: string)
    requires DropSeparators(s) != []
    ensures DropSeparators(s)[|DropSeparators(s)| - 1] == s[|s| - 1]
  {
    if IsSeparator(s[0]) {
      DropKeepsLast(s[1..]);
    }
  }

  /** `DropSeparators` drops everything only from a run of separators. */
  lemma {:induction false} DropAllSeparators(s: string)
    requires DropSeparators(s) == []
    ensures AllSeparators(s)
  {
    if s != [] {
      DropAllSeparators(s[1..]);
      assert forall i :: 1 <= i < |s| ==> s[i] == s[1..][i - 1];
    }
  }

  /** No lower-case ASCII letter is left after upper-casing. */
  predicate NoLowerAscii(s: string) {
    forall i :: 0 <= i < |s| ==> !('a' <= s[i] <= 'z')
  }

  lemma {:induction false} CollapseNoLower(s: string)
    requires NoLowerAscii(s)
    ensures NoLowerAscii(Collapse(s))
    decreases |s|
  {
    if s != [] {
      if IsSeparator(s[0]) {
        var r := DropSeparators(s);
        DropIsSuffix(s);
        assert forall i :: 0 <= i < |r| ==> r[i] == s[|s| - |r| + i];
        CollapseNoLower(r);
      } else {
        CollapseNoLower(s[1..]);
      }
    }
  }

  /** A base name has no separators and no lower-case ASCII letters, and normalising it again changes nothing. */
  lemma BaseNameIsNormal(name: string)
    ensures NoSeparators(BaseName(name)) && NoLowerAscii(BaseName(name))
    ensures BaseName(BaseName(name)) == BaseName(name)
  {
    var b := BaseName(name);
    CollapseNoLower(UpperCase(name));
    assert UpperCase(b) == b;
    CollapseKeeps(b);
  }

  /*
   * Unique constant names.
   */

  /** The `k`-th name tried: the base name itself, then `base + "_" + k` for k = 1, 2, ... */
  function Candidate(base: string, k: nat): (c: string)
    ensures k == 0 ==> c == base
    ensures k > 0 ==> |c| > |base| + 1 && c[..|base| + 1] == base + "_"
  {
    if k == 0 then base else base + "_" + Decimal.NatString(k)
  }

  /** Different attempts give different names. */
  lemma CandidateInjective(base: string, j: nat, k: nat)
    requires Candidate(base, j) == Candidate(base, k)
    ensures j == k
  {
    if j > 0 && k > 0 {
      var c := Candidate(base, j);
      assert Decimal.NatString(j) == c[|base| + 1..] == Decimal.NatString(k);
      Decimal.NatValueOfString(j);
      Decimal.NatValueOfString(k);
    }
  }

  /** `k` is the first attempt whose name is not taken. */
  predicate IsFirstFree(used: set<string>, base: string, k: nat) {
    Candidate(base, k) !in used && forall j :: 0 <= j < k ==> Candidate(base, j) in used
  }

  /** The names tried before attempt `k`. */
  function Tried(base: string, k: nat): (t: set<string>)
    ensures |t| == k
    ensures forall j :: 0 <= j < k ==> Candidate(base, j) in t
    ensures forall c :: c in t ==> exists j :: 0 <= j < k && c == Candidate(base, j)
  {
    if k == 0 then {}
    else
      var t := Tried(base, k - 1);
      assert Candidate(base, k - 1) !in t by {
        if Candidate(base, k - 1) in t {
          var j :| 0 <= j < k - 1 && Candidate(base, k - 1) == Candidate(base, j);
          CandidateInjective(base, j, k - 1);
        }
      }
      var r := t + {Candidate(base, k - 1)};
      assert forall c :: c in r ==> c in t || c == Candidate(base, k - 1);
      r
  }

  /** At most `|used|` attempts can all be taken. */
  lemma AttemptsBound(used: set<string>, base: string, k: nat)
    requires forall j :: 0 <= j < k ==> Candidate(base, j) in used
    ensures k <= |used|
  {
    var t := Tried(base, k);
    assert t <= used;
    SubsetSize(t, used);
  }

  lemma {:induction false} SubsetSize<T>(a: set<T>, b: set<T>)
    requires a <= b
    ensures |a| <= |b|
    decreases |a|
  {
    if a != {} {
      var x :| x in a;
      SubsetSize(a - {x}, b - {x});
    }
  }

  /** The first free attempt from `k` on, when all before `k` are taken. */
  function FirstFreeFrom(used: set<string>, base: string, k: nat): (r: nat)
    requires forall j :: 0 <= j < k ==> Candidate(base, j) in used
    ensures k <= r && IsFirstFree(used, base, r)
    decreases |used| - k
  {
    AttemptsBound(used, base, k);
    if Candidate(base, k) !in used then k
    else
      AttemptsBound(used, base, k + 1);
      FirstFreeFrom(used, base, k + 1)
  }

  /**
   * The name `addMapping` gives a constant: the base name when it is not
   * taken, else the base name with the smallest free suffix.
   */
  function ConstantName(used: set<string>, base: string): (c: string)
    ensures c !in used
    ensures base !in used ==> c == base
    ensures exists k :: IsFirstFree(used, base, k) && c == Candidate(base, k)
  {
    Candidate(base, FirstFreeFrom(used, base, 0))
  }

  /** There is one first free attempt. */
  lemma FirstFreeUnique(used: set<string>, base: string, j: nat, k: nat)
    requires IsFirstFree(used, base, j) && IsFirstFree(used, base, k)
    ensures j == k
  {
  }

  /*
   * The emitted enum.
   */

  /**
   * `String.format("%1$8s", s)`: `s` right-aligned in 8 characters, padded
   * with spaces on the left; a longer `s` is kept whole.
   */
  function Padded(s: string): (p: string)
    ensures |s| >= 8 ==> p == s
    ensures |s| < 8 ==> |p| == 8 && p[8 - |s|..] == s && forall i :: 0 <= i < 8 - |s| ==> p[i] == ' '
  {
    if |s| >= 8 then s else seq(8 - |s|, _ => ' ') + s
  }

  /** `replace(' ', '0')`. */
  function ZeroSpaces(s: string): (r: string)
    ensures |r| == |s|
    ensures forall i :: 0 <= i < |s| ==> r[i] == if s[i] == ' ' then '0' else s[i]
  {
    seq(|s|, i requires 0 <= i < |s| => if s[i] == ' ' then '0' else s[i])
  }

  /**
   * The emitted constructor's `uuidString`: the format
   * "%1$8s-0000-1000-8000-00805f9b34fb", whose tail is the Bluetooth Base
   * UUID after its first group, with every space then turned into '0'.
   */
  function UuidString(shortUuidString: string): (s: string)
    ensures |s| == (if |shortUuidString| >= 8 then |shortUuidString| else 8) + 28
    ensures |shortUuidString| > 8 ==> Uuids.FromString(s).None?
  {
    ZeroSpaces(Padded(shortUuidString) + GattServices.BluetoothBase[8..])
  }

  function Zeros(n: nat): (z: string)
    ensures |z| == n && forall i :: 0 <= i < n ==> z[i] == '0'
  {
    seq(n, _ => '0')
  }

  lemma {:induction false} ValueOfZeros(n: nat)
    ensures Value(Zeros(n)) == Some(0)
  {
    if n > 0 {
      assert Zeros(n)[..n - 1] == Zeros(n - 1);
      ValueOfZeros(n - 1);
    }
  }

  /** `replace` works piece by piece. */
  lemma ZeroSpacesAppend(a: string, b: string)
    ensures ZeroSpaces(a + b) == ZeroSpaces(a) + ZeroSpaces(b)
  {
    assert forall i :: 0 <= i < |a| + |b| ==> (a + b)[i] == if i < |a| then a[i] else b[i - |a|];
  }

  /** The base UUID after its first group holds no space. */
  lemma CanonicalTailHasNoSpace(t: string)
    requires Uuids.IsLowerCanonical(t)
    ensures ZeroSpaces(t[8..]) == t[8..]
  {
    forall i | 8 <= i < 36 ensures t[i] != ' ' {
      if 9 <= i < 13 {
        assert t[i] == t[9..13][i - 9];
      } else if 14 <= i < 18 {
        assert t[i] == t[14..18][i - 14];
      } else if 19 <= i < 23 {
        assert t[i] == t[19..23][i - 19];
      } else if 24 <= i {
        assert t[i] == t[24..][i - 24];
      }
    }
  }

  /**
   * A short id of at most 8 characters and no spaces is left-padded with
   * '0' to 8 characters and followed by the base UUID's tail.
   */
  lemma UuidStringOfShort(shortUuidString: string)
    requires |shortUuidString| <= 8 && forall i :: 0 <= i < |shortUuidString| ==> shortUuidString[i] != ' '
    ensures UuidString(shortUuidString) == Zeros(8 - |shortUuidString|) + shortUuidString + GattServices.BluetoothBase[8..]
  {
    var tail := GattServices.BluetoothBase[8..];
    GattServices.BaseIsCanonical();
    CanonicalTailHasNoSpace(GattServices.BluetoothBase);
    ZeroSpacesAppend(Padded(shortUuidString), tail);
    assert ZeroSpaces(Padded(shortUuidString)) == Zeros(8 - |shortUuidString|) + shortUuidString;
  }

  /** Eight characters followed by the base UUID's tail are the base UUID with another first group. */
  lemma FirstGroupAndTail(first: string)
    requires |first| == 8
    ensures first + GattServices.BluetoothBase[8..] == Uuids.Join(first, "0000", "1000", "8000", "00805f9b34fb")
  {
    var s := Uuids.Join(first, "0000", "1000", "8000", "00805f9b34fb");
    Uuids.SameTail(first, "00000000", "0000", "1000", "8000", "00805f9b34fb");
    assert s == s[..8] + s[8..];
  }

  /**
   * The `uuid` of a constant whose short id is at most 8 hex digits, in
   * either case: the Bluetooth Base UUID with the id in its first group.
   */
  lemma UuidOfHexShort(shortUuidString: string)
    requires |shortUuidString| <= 8 && Value(shortUuidString).Some?
    ensures Uuids.FromString(UuidString(shortUuidString))
      == Some(GattServices.BaseUuid().(timeLow := Value(shortUuidString).value))
  {
    var first := ZeroPadded(shortUuidString);
    var s := first + GattServices.BluetoothBase[8..];
    assert s == UuidString(shortUuidString) by {
      NoSpaceInHex(shortUuidString);
      UuidStringOfShort(shortUuidString);
    }
    assert s[..8] == first && s[8..] == GattServices.BluetoothBase[8..];
    var base := GattServices.BaseUuid();
    Uuids.WithTimeLow(s, GattServices.BluetoothBase);
  }

  /** The short id left-padded with '0' to 8 characters denotes the same number. */
  function ZeroPadded(shortUuidString: string): (p: string)
    requires |shortUuidString| <= 8 && Value(shortUuidString).Some?
    ensures |p| == 8 && Value(p) == Value(shortUuidString)
  {
    ValueOfZeros(8 - |shortUuidString|);
    ValueAppend(Zeros(8 - |shortUuidString|), shortUuidString);
    Zeros(8 - |shortUuidString|) + shortUuidString
  }

  /** Hex digits are not spaces. */
  lemma {:induction false} NoSpaceInHex(s: string)
    requires Value(s).Some?
    ensures forall i :: 0 <= i < |s| ==> s[i] != ' '
  {
    if s != [] {
      NoSpaceInHex(s[..|s| - 1]);
      forall i | 0 <= i < |s| ensures s[i] != ' ' {
        if i < |s| - 1 {
          assert s[i] == s[..|s| - 1][i];
        }
      }
    }
  }

  /**
   * The generated constant and the app's table agree: a short id the
   * generator is given as hex text denotes the same UUID as
   * `makeStandardService` of that id.
   */
  lemma GeneratedMatchesStandard(shortUuidString: string, id: nat)
    requires |shortUuidString| <= 8 && Value(shortUuidString) == Some(id) && id < 0x8000_0000
    ensures Uuids.FromString(UuidString(shortUuidString)) == Uuids.FromString(GattServices.MakeStandardService(id))
  {
    assert id % 0x1_0000_0000 == id;
    UuidOfHexShort(shortUuidString);
    GattServices.StandardIsBaseExpansion(id);
  }

  /** The test's name upper-cased, one letter at a time. */
  lemma BatteryServiceUpperCase()
    ensures UpperCase("Battery Service") == "BATTERY SERVICE"
  {
    var u := UpperCase("Battery Service");
    assert forall i | 0 <= i < 15 :: u[i] == "BATTERY SERVICE"[i];
  }

  /** Two words joined by one space become the words joined by '_'. */
  lemma TwoWords(x: string, y: string)
    requires x != [] && y != [] && NoSeparators(x) && NoSeparators(y)
    ensures Collapse(x + " " + y) == x + "_" + y
  {
    var space, z := [' '], [' '] + y;
    assert x + z == x + " " + y;
    assert !IsSeparator(x[|x| - 1]);
    CollapseAppend(x, z);
    CollapseKeeps(x);
    SeparatorsThenText(space, y);
    assert DropSeparators(z) == y;
    CollapseKeeps(y);
    assert Collapse(z) == "_" + y;
  }

  /** A name that upper-cases to two words joined by one space has those words joined by '_' as its base name. */
  lemma BaseNameOfTwoWords(name: string, x: string, y: string)
    requires x != [] && y != [] && NoSeparators(x) && NoSeparators(y)
    requires UpperCase(name) == x + " " + y
    ensures BaseName(name) == x + "_" + y
  {
    TwoWords(x, y);
  }

  /** The base name of "Battery Service": its two words, upper-cased, joined by '_'. */
  lemma BatteryServiceBaseName(name: string, x: string, y: string)
    requires name == "Battery Service" && x == "BATTERY" && y == "SERVICE"
    ensures BaseName(name) == x + "_" + y
  {
    BatteryServiceUpperCase();
    assert NoSeparators(x);
    assert NoSeparators(y);
    assert UpperCase(name) == x + " " + y;
    BaseNameOfTwoWords(name, x, y);
  }

  /** The constant name of "Battery Service" in a fresh enum, as the generator's test adds it. */
  lemma BatteryServiceName()
    ensures ConstantName({}, BaseName("Battery Service")) == "BATTERY_SERVICE"
  {
    BatteryServiceBaseName("Battery Service", "BATTERY", "SERVICE");
  }

  /** The short id of the generator's test, "180F", is the Battery Service, 0x180f. */
  lemma BatteryServiceUuid()
    ensures Uuids.FromString(UuidString("180F")) == Uuids.FromString(GattServices.MakeStandardService(0x180f))
  {
    assert "180F"[..3] == "180" && "180"[..2] == "18" && "18"[..1] == "1" && "1"[..0] == "";
    assert Value("1") == Some(1);
    assert Value("18") == Some(0x18);
    assert Value("180") == Some(0x180);
    assert Value("180F") == Some(0x180f);
    GeneratedMatchesStandard("180F", 0x180f);
  }

  /**
   * The mapping added by the generator's test: "Battery Service" becomes the
   * constant BATTERY_SERVICE in a fresh enum, and "180F" is the Battery
   * Service, 0x180f.
   */
  lemma BatteryServiceExample()
    ensures ConstantName({}, BaseName("Battery Service")) == "BATTERY_SERVICE"
    ensures Uuids.FromString(UuidString("180F")) == Uuids.FromString(GattServices.MakeStandardService(0x180f))
  {
    BatteryServiceName();
    BatteryServiceUuid();
  }

  /**
   * An emitted enum constant: its name, the two constructor arguments, and the
   * two fields the constructor derives from them.
   */
  datatype Constant = Constant(
    constantName: string, fullName: string, shortUuidString: string,
    uuidString: string, uuid: Option<Uuids.Uuid>)

  /**
   * The emitted constructor: `uuidString` is the padded short form, `uuid` what
   * `UUID.fromString` makes of it (`None` where that throws).
   */
  function NewConstant(constantName: string, fullName: string, shortUuidString: string): Constant {
    var text := UuidString(shortUuidString);
    Constant(constantName, fullName, shortUuidString, text, Uuids.FromString(text))
  }

  /** `values[i]` is the first constant whose `uuid` equals `uuid`. */
  predicate FirstWithUuid(values: seq<Constant>, i: int, uuid: Uuids.Uuid) {
    && 0 <= i < |values|
    && values[i].uuid == Some(uuid)
    && forall j :: 0 <= j < i ==> values[j].uuid != Some(uuid)
  }

  /** The emitted `fromUuid`: the first constant, in declaration order, with an equal `uuid`, or null. */
  method FromUuid(values: seq<Constant>, uuid: Uuids.Uuid) returns (id: Option<Constant>)
    ensures id.None? <==> forall i :: 0 <= i < |values| ==> values[i].uuid != Some(uuid)
    ensures id.Some? ==> exists i :: FirstWithUuid(values, i, uuid) && id.value == values[i]
  {
    var i := 0;
    while i < |values|
      invariant 0 <= i <= |values|
      invariant forall j :: 0 <= j < i ==> values[j].uuid != Some(uuid)
    {
      if values[i].uuid == Some(uuid) {
        assert FirstWithUuid(values, i, uuid);
        return Some(values[i]);
      }
      i := i + 1;
    }
    return None;
  }

  /** The emitted `getFullName`: the full name of the constant `fromUuid` finds, else the UUID's text. */
  method GetFullName(values: seq<Constant>, uuid: Uuids.Uuid) returns (name: string)
    requires uuid.Valid()
    ensures (forall i :: 0 <= i < |values| ==> values[i].uuid != Some(uuid)) ==> name == Uuids.ToString(uuid)
    ensures forall i :: FirstWithUuid(values, i, uuid) ==> name == values[i].fullName
  {
    var id := FromUuid(values, uuid);
    if id.Some? {
      name := id.value.fullName;
    } else {
      name := Uuids.ToString(uuid);
    }
  }

  /*
   * The generator.
   */

  class Generator {
    /** The names given so far, across every enum this generator began. */
    var uniqueConstants: set<string>
    /** The enum being defined (`definedClass`), if `beginEnum` was called. */
    var enumName: Option<string>
    /** The names of the classes defined in the code model. */
    var classNames: set<string>
    /** The constants of the enum being defined, in order. */
    var constants: seq<Constant>

    /** Every constant of the enum is named in `uniqueConstants`, and no two share a name. */
    predicate Valid()
      reads this
    {
      && (forall i :: 0 <= i < |constants| ==> constants[i].constantName in uniqueConstants)
      && (forall i, j :: 0 <= i < j < |constants| ==> constants[i].constantName != constants[j].constantName)
    }

    constructor()
      ensures Valid()
      ensures uniqueConstants == {} && enumName == None && classNames == {} && constants == []
    {
      uniqueConstants := {};
      enumName := None;
      classNames := {};
      constants := [];
    }

    /**
     * `beginEnum`: defines a new enum class, which fails when the code model
     * already has a class of that name.  The names given so far stay taken.
     */
    method BeginEnum(className: string) returns (ok: bool)
      requires Valid()
      modifies this
      ensures Valid()
      ensures ok <==> className !in old(classNames)
      ensures ok ==> enumName == Some(className) && constants == [] && classNames == old(classNames) + {className}
      ensures !ok ==> enumName == old(enumName) && constants == old(constants) && classNames == old(classNames)
      ensures uniqueConstants == old(uniqueConstants)
    {
      ok := className !in classNames;
      if ok {
        enumName := Some(className);
        classNames := classNames + {className};
        constants := [];
      }
    }

    /**
     * `addMapping`: adds a constant named after `name`, with the first
     * suffix that makes the name new, and records the name as taken.
     */
    method AddMapping(name: string, shortUuid: string)
      requires enumName.Some? && Valid()
      modifies this
      ensures Valid()
      ensures ConstantName(old(uniqueConstants), BaseName(name)) !in old(uniqueConstants)
      ensures constants == old(constants) + [NewConstant(ConstantName(old(uniqueConstants), BaseName(name)), name, shortUuid)]
      ensures uniqueConstants == old(uniqueConstants) + {ConstantName(old(uniqueConstants), BaseName(name))}
      ensures |uniqueConstants| == |old(uniqueConstants)| + 1
      ensures enumName == old(enumName) && classNames == old(classNames)
    {
      var baseName := BaseName(name);
      var constantName := baseName;

      var i := 1;
      while constantName in uniqueConstants
        invariant unchanged(this)
        invariant i >= 1 && constantName == Candidate(baseName, i - 1)
        invariant forall j :: 0 <= j < i - 1 ==> Candidate(baseName, j) in uniqueConstants
        decreases |uniqueConstants| + 1 - i
      {
        AttemptsBound(uniqueConstants, baseName, i);
        constantName := baseName + "_" + Decimal.NatString(i);
        i := i + 1;
      }
      FirstFreeUnique(uniqueConstants, baseName, i - 1, FirstFreeFrom(uniqueConstants, baseName, 0));
      assert constantName == ConstantName(uniqueConstants, baseName);

      constants := constants + [NewConstant(constantName, name, shortUuid)];
      uniqueConstants := uniqueConstants + {constantName};
    }
  }
}
