/**
 * GattServices: the GATT service UUIDs the app names, and the lookup of a
 * service's name by its UUID string.
 *
 * Standard services are 16-bit ids expanded into the Bluetooth Base UUID
 * 0000xxxx-0000-1000-8000-00805f9b34fb (Bluetooth Core Specification,
 * Vol 3, Part B, section 2.5.1); vendor services are written out in full.
 * `NAMES` is keyed by each constant's `toString()`.
 */
module GattServices {
  import opened Nullable
  import opened Hex
  import Uuids

  /** The Bluetooth Base UUID 00000000-0000-1000-8000-00805f9b34fb, into whose first group a short id is put. */
  const BluetoothBase := Uuids.Join("00000000", "0000", "1000", "8000", "00805f9b34fb")

  /** The base UUID's text is canonical. */
  lemma BaseIsCanonical()
    ensures Uuids.IsLowerCanonical(BluetoothBase)
  {
    Uuids.CheckCanonical("00000000", "0000", "1000", "8000", "00805f9b34fb");
  }

  /** The Bluetooth Base UUID, read from its text. */
  function BaseUuid(): (u: Uuids.Uuid)
    ensures u.Valid() && Uuids.FromString(BluetoothBase) == Some(u)
  {
    BaseIsCanonical();
    Uuids.ToStringOfParse(BluetoothBase);
    Uuids.FromString(BluetoothBase).value
  }

  /** The groups after the first one in the base UUID are lower-case hex. */
  lemma BaseGroupsAreLowerHex()
    ensures IsLowerHex("0000") && IsLowerHex("1000") && IsLowerHex("8000") && IsLowerHex("00805f9b34fb")
  {
    LowerHexFromSound("0000", 0);
    LowerHexFromSound("1000", 0);
    LowerHexFromSound("8000", 0);
    LowerHexFromSound("00805f9b34fb", 0);
  }

  /** A Kotlin `Int`. */
  predicate IsInt(n: int) {
    -0x8000_0000 <= n < 0x8000_0000
  }

  /**
   * `makeStandardService`: `%08x` of an `Int` (a negative one as its 32-bit
   * two's complement) followed by the rest of the base UUID.  The text is a
   * canonical UUID, `UUID.fromString` reads the id back from its first
   * group, and the rest is the base UUID's.
   */
  function MakeStandardService(shortServiceId: int): (s: string)
    requires IsInt(shortServiceId)
    ensures Uuids.IsLowerCanonical(s)
    ensures Uuids.FromString(s).Some? && Uuids.FromString(s).value.timeLow == shortServiceId % 0x1_0000_0000
    ensures s[8..] == BluetoothBase[8..]
  {
    var id := shortServiceId % 0x1_0000_0000;
    FormatIsLowerHex(id, 8);
    ValueOfFormat(id, 8);
    BaseGroupsAreLowerHex();
    var s := Uuids.Join(Format(id, 8), "0000", "1000", "8000", "00805f9b34fb");
    Uuids.ToStringOfParse(s);
    Uuids.SameTail(Format(id, 8), "00000000", "0000", "1000", "8000", "00805f9b34fb");
    s
  }

  /** The base UUID itself is the standard service with id 0. */
  lemma BaseIsServiceZero()
    ensures MakeStandardService(0) == BluetoothBase
  {
    assert Format(0, 8) == "00000000";
  }

  /**
   * A standard service is the Bluetooth Base UUID with the id, as an unsigned
   * 32-bit value, in its first group.
   */
  lemma StandardIsBaseExpansion(shortServiceId: int)
    requires IsInt(shortServiceId)
    ensures Uuids.FromString(MakeStandardService(shortServiceId))
      == Some(BaseUuid().(timeLow := shortServiceId % 0x1_0000_0000))
  {
    var base := BaseUuid();
    Uuids.WithTimeLow(MakeStandardService(shortServiceId), BluetoothBase);
  }

  /** Two short ids give the same constant only if they are the same `Int`. */
  lemma StandardServiceInjective(a: int, b: int)
    requires IsInt(a) && IsInt(b) && MakeStandardService(a) == MakeStandardService(b)
    ensures a == b
  {
    assert Uuids.FromString(MakeStandardService(a)).value.timeLow == Uuids.FromString(MakeStandardService(b)).value.timeLow;
    Unsigned(a);
    Unsigned(b);
  }

  /** An `Int` as an unsigned 32-bit value. */
  lemma Unsigned(a: int)
    requires IsInt(a)
    ensures a % 0x1_0000_0000 == if a >= 0 then a else a + 0x1_0000_0000
  {
  }

  /*
   * The constants and the `NAMES` table.
   */


  /** A declared constant: a standard 16-bit id, or a vendor UUID written out. */
  datatype Service = Standard(id: bv16) | Vendor(text: string)

  /** The text the constant hands to `UUID.fromString`. */
  function Declared(s: Service): string {
    match s
    case Standard(id) => MakeStandardService(id as int)
    case Vendor(text) => text
  }

  /** The constant: the UUID its text denotes, or `None` where `UUID.fromString` throws. */
  function Constant(s: Service): (u: Option<Uuids.Uuid>)
    ensures u.Some? ==> u.value.Valid()
  {
    Uuids.FromString(Declared(s))
  }

  /** The constant's `toString()`, the key it has in `NAMES`. */
  function Key(s: Service): Option<string> {
    match Constant(s)
    case Some(u) => Some(Uuids.ToString(u))
    case None => None
  }

  /** A `NAMES` pair: the constant and the name it is given. */
  datatype Entry = Entry(service: Service, name: string)

  /** The standard services of `NAMES`, in its order: each 16-bit id and its name. */
  function StandardNames(): seq<(bv16, string)> {
    [
    (0x1800, "Generic Access"),
    (0x1801, "Generic Attribute"),
    (0x1802, "Immediate Alert"),
    (0x1803, "Link Loss"),
    (0x1804, "Tx Power"),
    (0x1805, "Current Time"),
    (0x1806, "Reference Time Update"),
    (0x1807, "Next DST Change"),
    (0x1808, "Glucose"),
    (0x1809, "Health Thermometer"),
    (0x180a, "Device Information"),
    (0x180d, "Heart Rate"),
    (0x180e, "Phone Alert Status"),
    (0x180f, "Battery Service"),
    (0x1810, "Blood Pressure"),
    (0x1811, "Alert Notification"),
    (0x1812, "Human Interface Device"),
    (0x1813, "Scan Parameters"),
    (0x1814, "Running Speed and Cadence"),
    (0x1815, "Automation IO"),
    (0x1816, "Cycling Speed and Cadence"),
    (0x1818, "Cycling Power"),
    (0x1819, "Location and Navigation"),
    (0x181a, "Environmental Sensing"),
    (0x181b, "Body Composition"),
    (0x181c, "User Data"),
    (0x181d, "Weight Scale"),
    (0x181e, "Bond Management"),
    (0x181f, "Continuous Glucose Monitoring"),
    (0x1820, "Internet Protocol Support"),
    (0x1821, "Indoor Positioning"),
    (0x1822, "Pulse Oximeter"),
    (0x1823, "HTTP Proxy"),
    (0x1824, "Transport Discovery"),
    (0x1825, "Object Transfer"),
    (0x1826, "Fitness Machine"),
    (0x1827, "Mesh Provisioning"),
    (0x1828, "Mesh Proxy"),
    (0x1829, "Reconnection Configuration"),
    (0x183a, "Insulin Delivery"),
    (0x183b, "Binary Sensor"),
    (0x183c, "Emergency Configuration")
    ]
  }

  /** The vendor texts, group by group: 0000fe95-0000-1000-8000-00805f9b34fb and so on. */
  const XiaomiRootService := Uuids.Join("0000fe95", "0000", "1000", "8000", "00805f9b34fb")
  const XiaomiDataService := Uuids.Join("00001204", "0000", "1000", "8000", "00805f9b34fb")
  const XiaomiMijiaDataService := Uuids.Join("226c0000", "6476", "4566", "7562", "66734470666d")
  const NordicDeviceFirmwareUpdate := Uuids.Join("00001530", "1212", "efde", "1523", "785feabcd123")

  /** The vendor services of `NAMES`, in its order, after the standard ones. */
  function VendorNames(): seq<(string, string)> {
    [
    (XiaomiRootService, "Xiaomi Root Service"),
    (XiaomiDataService, "Xiaomi Data Service"),
    (NordicDeviceFirmwareUpdate, "Nordic Device Firmware Update"),
    (XiaomiMijiaDataService, "Xiaomi Mijia Data Service")
    ]
  }

  /** The pairs handed to `hashMapOf`, in order: the standard services, then the vendor ones. */
  function Table(): (t: seq<Entry>)
    ensures |t| == |StandardNames()| + |VendorNames()|
    ensures forall i :: 0 <= i < |StandardNames()| ==> t[i] == Entry(Standard(StandardNames()[i].0), StandardNames()[i].1)
    ensures forall i :: 0 <= i < |VendorNames()| ==>
      t[|StandardNames()| + i] == Entry(Vendor(VendorNames()[i].0), VendorNames()[i].1)
  {
    seq(|StandardNames()|, i requires 0 <= i < |StandardNames()| => Entry(Standard(StandardNames()[i].0), StandardNames()[i].1))
      + seq(|VendorNames()|, i requires 0 <= i < |VendorNames()| => Entry(Vendor(VendorNames()[i].0), VendorNames()[i].1))
  }

  /** The pairs as `hashMapOf` receives them: each constant's key and its name. */
  function Pairs(entries: seq<Entry>): (pairs: seq<(Option<string>, string)>)
    ensures |pairs| == |entries|
    ensures forall i :: 0 <= i < |entries| ==> pairs[i] == (Key(entries[i].service), entries[i].name)
  {
    seq(|entries|, i requires 0 <= i < |entries| => (Key(entries[i].service), entries[i].name))
  }

  /** `hashMapOf(pairs)`: each pair is put in turn, so a later pair wins a shared key. */
  function NamesOf(pairs: seq<(Option<string>, string)>): map<string, string> {
    if pairs == [] then map[]
    else
      var names, last := NamesOf(pairs[..|pairs| - 1]), pairs[|pairs| - 1];
      match last.0
      case Some(k) => names[k := last.1]
      case None => names
  }

  /** `NAMES`. */
  function Names(): map<string, string> {
    NamesOf(Pairs(Table()))
  }

  /** `pairs[i]` is the last pair whose key is `k`. */
  predicate LastWithKey(pairs: seq<(Option<string>, string)>, i: int, k: string) {
    && 0 <= i < |pairs|
    && pairs[i].0 == Some(k)
    && forall j :: i < j < |pairs| ==> pairs[j].0 != Some(k)
  }

  /**
   * `getName(String)`: the name `NAMES` holds for the string, or the string
   * itself.  A name found is that of the last pair whose key (a constant's
   * `toString()`) is the string, as `hashMapOf` keeps the last of equal keys.
   */
  function GetName(uuid: string): (name: string)
    ensures uuid !in Names() ==> name == uuid
    ensures uuid in Names() ==> exists i :: LastWithKey(Pairs(Table()), i, uuid) && name == Pairs(Table())[i].1
  {
    if uuid in Names() then
      NamesOfLookup(Pairs(Table()), uuid);
      Names()[uuid]
    else uuid
  }

  /** `getName(UUID)`: the name looked up by the UUID's text. */
  function GetNameOfUuid(uuid: Uuids.Uuid): (name: string)
    requires uuid.Valid()
    ensures name in Names().Values || name == Uuids.ToString(uuid)
  {
    GetName(Uuids.ToString(uuid))
  }

  /*
   * What the table promises.
   */

  /**
   * A key is in the map exactly when some pair carries it, and it maps to the
   * name of the last pair that does.
   */
  lemma {:induction false} NamesOfLookup(pairs: seq<(Option<string>, string)>, k: string)
    ensures k in NamesOf(pairs) <==> exists i :: 0 <= i < |pairs| && pairs[i].0 == Some(k)
    ensures k in NamesOf(pairs) ==> exists i :: LastWithKey(pairs, i, k) && NamesOf(pairs)[k] == pairs[i].1
  {
    if pairs != [] {
      var init, last := pairs[..|pairs| - 1], pairs[|pairs| - 1];
      NamesOfLookup(init, k);
      if last.0 == Some(k) {
        assert LastWithKey(pairs, |pairs| - 1, k);
      } else if k in NamesOf(init) {
        var i :| LastWithKey(init, i, k) && NamesOf(init)[k] == init[i].1;
        assert pairs[i] == init[i];
        forall j | i < j < |pairs| ensures pairs[j].0 != Some(k) {
          if j < |init| {
            assert pairs[j] == init[j];
          }
        }
        assert LastWithKey(pairs, i, k);
      }
      if exists i :: 0 <= i < |pairs| && pairs[i].0 == Some(k) {
        var i :| 0 <= i < |pairs| && pairs[i].0 == Some(k);
        if i < |init| {
          assert init[i] == pairs[i];
        }
      }
    }
  }

  /** Every key some pair carries is in the map. */
  lemma KeysAreInMap(pairs: seq<(Option<string>, string)>)
    ensures forall i :: 0 <= i < |pairs| && pairs[i].0.Some? ==> pairs[i].0.value in NamesOf(pairs)
  {
    forall i | 0 <= i < |pairs| && pairs[i].0.Some? ensures pairs[i].0.value in NamesOf(pairs) {
      NamesOfLookup(pairs, pairs[i].0.value);
    }
  }

  /** A declared text `toString()` gives back unchanged: a standard service's, or a lower-case canonical vendor text. */
  predicate WellDeclared(s: Service) {
    s.Vendor? ==> Uuids.IsLowerCanonical(s.text)
  }

  /** A well-declared constant parses, and its key is the text it was declared with. */
  lemma KeyOfWellDeclared(s: Service)
    requires WellDeclared(s)
    ensures Key(s) == Some(Declared(s))
  {
    Uuids.ToStringOfParse(Declared(s));
  }

  /** In a table of well-declared constants, every constant's key is its declared text. */
  lemma KeysAreDeclaredTexts(table: seq<Entry>)
    requires forall i :: 0 <= i < |table| ==> WellDeclared(table[i].service)
    ensures forall i :: 0 <= i < |table| ==> Pairs(table)[i].0 == Some(Declared(table[i].service))
  {
    forall i | 0 <= i < |table| ensures Pairs(table)[i].0 == Some(Declared(table[i].service)) {
      KeyOfWellDeclared(table[i].service);
    }
  }

  /** The vendor texts are canonical lower-case UUIDs. */
  lemma VendorTextsAreCanonical()
    ensures forall v :: 0 <= v < |VendorNames()| ==> Uuids.IsLowerCanonical(VendorNames()[v].0)
  {
    forall v | 0 <= v < |VendorNames()| ensures Uuids.IsLowerCanonical(VendorNames()[v].0) {
      if v == 0 {
        XiaomiRootIsCanonical();
      } else if v == 1 {
        XiaomiDataIsCanonical();
      } else if v == 2 {
        NordicIsCanonical();
      } else {
        XiaomiMijiaIsCanonical();
      }
    }
  }

  lemma XiaomiRootIsCanonical()
    ensures Uuids.IsLowerCanonical(XiaomiRootService)
  {
    Uuids.CheckCanonical("0000fe95", "0000", "1000", "8000", "00805f9b34fb");
  }

  lemma XiaomiDataIsCanonical()
    ensures Uuids.IsLowerCanonical(XiaomiDataService)
  {
    Uuids.CheckCanonical("00001204", "0000", "1000", "8000", "00805f9b34fb");
  }

  lemma NordicIsCanonical()
    ensures Uuids.IsLowerCanonical(NordicDeviceFirmwareUpdate)
  {
    Uuids.CheckCanonical("00001530", "1212", "efde", "1523", "785feabcd123");
  }

  lemma XiaomiMijiaIsCanonical()
    ensures Uuids.IsLowerCanonical(XiaomiMijiaDataService)
  {
    Uuids.CheckCanonical("226c0000", "6476", "4566", "7562", "66734470666d");
  }

  /** Every constant of the table is well declared. */
  lemma TableIsWellDeclared()
    ensures forall i :: 0 <= i < |Table()| ==> WellDeclared(Table()[i].service)
  {
    VendorTextsAreCanonical();
    forall i | |StandardNames()| <= i < |Table()| ensures WellDeclared(Table()[i].service) {
      assert Table()[i].service == Vendor(VendorNames()[i - |StandardNames()|].0);
    }
  }

  /**
   * Every declared constant parses, its key is the very text it was declared
   * with, and `NAMES` holds an entry under that text.
   */
  lemma EveryConstantIsNamed()
    ensures forall i :: 0 <= i < |Table()| ==> Pairs(Table())[i].0 == Some(Declared(Table()[i].service))
    ensures forall i :: 0 <= i < |Table()| ==> Declared(Table()[i].service) in Names()
  {
    TableIsWellDeclared();
    KeysAreDeclaredTexts(Table());
    KeysAreInMap(Pairs(Table()));
  }
}
