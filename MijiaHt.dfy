/**
 * The older fixed-offset decoder for the Xiaomi Mijia temperature and
 * humidity sensor (XiaomiMijiaHtSensor).  Every field is computed from
 * array slices at fixed positions, whatever the flag bits say; a slice past
 * the end throws in the source, which here is `None`.
 */
module MijiaHt {
  import opened Nullable
  import opened Hex
  import opened Decimal
  import XiaomiSensor
  import XiaomiSensorFrames

  datatype PayloadType = Unknown | TemperatureAndHumidity | TemperatureOnly | HumidityOnly | BatteryOnly

  /** A decoded frame; `temperature` and `humidity` are in tenths. */
  datatype MijiaHtSensor = MijiaHtSensor(
    header: seq<byte>,
    address: string,
    payloadType: PayloadType,
    temperature: Option<int>,
    humidity: Option<int>,
    battery: Option<int>)
  {
    /** `toString`: the readings the payload type carries, or "unknown". */
    function ToString(): string
      requires payloadType == TemperatureAndHumidity ==> temperature.Some? && humidity.Some?
      requires payloadType == TemperatureOnly ==> temperature.Some?
      requires payloadType == HumidityOnly ==> humidity.Some?
      requires payloadType == BatteryOnly ==> battery.Some?
    {
      match payloadType
      case TemperatureAndHumidity =>
        "temperature is " + Tenths(temperature.value) + "°C, humidity is " + Tenths(humidity.value) + "%"
      case TemperatureOnly => "temperature is " + Tenths(temperature.value) + "°C"
      case HumidityOnly => "humidity is " + Tenths(humidity.value) + "%"
      case BatteryOnly => "battery is " + IntString(battery.value) + "%"
      case Unknown => "unknown"
    }
  }

  /** `getType`: bytes 11-12 as a big-endian signed 16-bit value. */
  function GetType(bytes: seq<byte>): (code: int)
    requires |bytes| >= 13
    ensures -0x8000 <= code < 0x8000
  {
    Signed8(bytes[11]) * 256 + bytes[12]
  }

  function PayloadTypeOf(code: int): PayloadType {
    if code == 0x0d10 then TemperatureAndHumidity
    else if code == 0x0410 then TemperatureOnly
    else if code == 0x0610 then HumidityOnly
    else if code == 0x0a10 then BatteryOnly
    else Unknown
  }

  /** The length the payload type's readings need: one past the last byte read. */
  function NeededLength(t: PayloadType): nat {
    match t
    case TemperatureAndHumidity => 18
    case TemperatureOnly => 16
    case HumidityOnly => 16
    case BatteryOnly => 15
    case Unknown => 13
  }

  /** `parseValue`: a signed little-endian 16-bit value, in tenths. */
  function ParseValue(bytes: seq<byte>, at: nat): int
    requires at + 2 <= |bytes|
  {
    XiaomiSensor.ReadShort(bytes, at)
  }

  /** The field initialisers, in order; `None` when one of them would slice past the end. */
  function Decode(bytes: seq<byte>): Option<MijiaHtSensor> {
    if |bytes| < 13 then None
    else
      var t := PayloadTypeOf(GetType(bytes));
      if |bytes| < NeededLength(t) then None
      else
        Some(MijiaHtSensor(
          bytes[0..5],
          XiaomiSensor.MacString(bytes[5..11]),
          t,
          if t == TemperatureAndHumidity || t == TemperatureOnly then Some(ParseValue(bytes, 14)) else None,
          if t == TemperatureAndHumidity then Some(ParseValue(bytes, 16))
          else if t == HumidityOnly then Some(ParseValue(bytes, 14))
          else None,
          if t == BatteryOnly then Some(Signed8(bytes[14])) else None))
  }

  /** The payload type is read big-endian: byte 11 is the high byte. */
  lemma PayloadTypeBytes(bytes: seq<byte>)
    requires |bytes| >= 13
    ensures PayloadTypeOf(GetType(bytes)) == TemperatureAndHumidity <==> bytes[11] == 0x0d && bytes[12] == 0x10
    ensures PayloadTypeOf(GetType(bytes)) == TemperatureOnly <==> bytes[11] == 0x04 && bytes[12] == 0x10
    ensures PayloadTypeOf(GetType(bytes)) == HumidityOnly <==> bytes[11] == 0x06 && bytes[12] == 0x10
    ensures PayloadTypeOf(GetType(bytes)) == BatteryOnly <==> bytes[11] == 0x0a && bytes[12] == 0x10
  {
  }

  /** Which readings a decoded frame has: exactly those of its payload type. */
  lemma ReadingsFollowType(bytes: seq<byte>)
    requires Decode(bytes).Some?
    ensures var m := Decode(bytes).value;
      && (m.temperature.Some? <==> m.payloadType == TemperatureAndHumidity || m.payloadType == TemperatureOnly)
      && (m.humidity.Some? <==> m.payloadType == TemperatureAndHumidity || m.payloadType == HumidityOnly)
      && (m.battery.Some? <==> m.payloadType == BatteryOnly)
      && (m.payloadType == Unknown <==> m.ToString() == "unknown")
  {
    var m := Decode(bytes).value;
    if m.payloadType != Unknown {
      assert m.ToString()[0] != 'u';
    }
  }

  /** The decoding succeeds exactly on frames long enough for the readings their type carries. */
  lemma DecodeDefinedIff(bytes: seq<byte>)
    ensures Decode(bytes).Some? <==> |bytes| >= 13 && |bytes| >= NeededLength(PayloadTypeOf(GetType(bytes)))
  {
  }

  /** Battery is a signed byte: levels 0x80-0xff come out negative. */
  lemma BatteryIsSigned(bytes: seq<byte>)
    requires Decode(bytes).Some? && Decode(bytes).value.payloadType == BatteryOnly
    ensures var b := Decode(bytes).value.battery.value;
      -128 <= b < 128 && b % 256 == bytes[14] && (b < 0 <==> bytes[14] >= 0x80)
  {
  }

  /** The frames both decoders read: a MAC and an event and no capabilities, of a known payload type. */
  predicate SharedLayout(bytes: seq<byte>) {
    && Decode(bytes).Some? && Decode(bytes).value.payloadType != Unknown
    && XiaomiSensor.ParseHeader(bytes).flags.hasMacAddress
    && !XiaomiSensor.ParseHeader(bytes).flags.hasCapabilities
    && XiaomiSensor.ParseHeader(bytes).flags.hasEvent
  }

  /** What agreement means: same address, same temperature, humidity and battery equal modulo their widths. */
  predicate Agree(m: MijiaHtSensor, p: XiaomiSensor.Parsed) {
    && p.Parsed?
    && p.sensor.address == Some(m.address)
    && p.sensor.temperature == m.temperature
    && p.sensor.humidity == (if m.humidity.Some? then Some(m.humidity.value % 0x10000) else None)
    && p.sensor.battery == (if m.battery.Some? then Some(m.battery.value % 256) else None)
  }

  /**
   * On a MiBeacon frame carrying a MAC and an event and no capabilities, the
   * two decoders agree: same address, same temperature, and humidity and
   * battery equal modulo the width they are read at (the fixed-offset
   * decoder reads them signed, the MiBeacon decoder unsigned).
   */
  lemma AgreesWithMiBeacon(bytes: seq<byte>)
    requires SharedLayout(bytes)
    ensures Agree(Decode(bytes).value, XiaomiSensor.Decode(bytes))
  {
    var f := XiaomiSensor.ParseHeader(bytes).flags;
    assert XiaomiSensor.EventAt(f) == 11;
    PayloadTypeBytes(bytes);
    match PayloadTypeOf(GetType(bytes))
    case TemperatureAndHumidity => AgreeOnEvent(bytes, TemperatureAndHumidity, XiaomiSensor.TemperatureAndHumidity);
    case TemperatureOnly => AgreeOnEvent(bytes, TemperatureOnly, XiaomiSensor.Temperature);
    case HumidityOnly => AgreeOnEvent(bytes, HumidityOnly, XiaomiSensor.Humidity);
    case BatteryOnly => AgreeOnEvent(bytes, BatteryOnly, XiaomiSensor.Battery);
  }

  /** One payload type at a time: the fixed-offset type `t` and the MiBeacon event `id` name the same reading. */
  lemma AgreeOnEvent(bytes: seq<byte>, t: PayloadType, id: int)
    requires SharedLayout(bytes) && PayloadTypeOf(GetType(bytes)) == t
    requires XiaomiSensor.EventAt(XiaomiSensor.ParseHeader(bytes).flags) == 11
    requires XiaomiSensor.ReadUnsignedShort(bytes, 11) == id
    requires t == TemperatureAndHumidity <==> id == XiaomiSensor.TemperatureAndHumidity
    requires t == TemperatureOnly <==> id == XiaomiSensor.Temperature
    requires t == HumidityOnly <==> id == XiaomiSensor.Humidity
    requires t == BatteryOnly <==> id == XiaomiSensor.Battery
    ensures Agree(Decode(bytes).value, XiaomiSensor.Decode(bytes))
  {
  }

  /** The frames of the unit tests, with the values they expect. */
  lemma TemperatureAndHumidityFrame(frame: seq<byte>)
    requires frame == [0x50, 0x20, 0xaa, 0x01, 0xb4, 0xf6, 0x16, 0x33, 0x34, 0x2d, 0x58, 0x0d, 0x10, 0x04, 0xe8, 0x00, 0x5f, 0x02]
    ensures var m := Decode(frame);
      && m.Some?
      && m.value.address == "58" + ":" + "2d" + ":" + "34" + ":" + "33" + ":" + "16" + ":" + "f6"
      && m.value.temperature == Some(232)
      && m.value.humidity == Some(607)
      && m.value.battery == None
  {
    XiaomiSensorFrames.MacOfTestSensor(frame[5..11]);
  }

  lemma TemperatureFrame(frame: seq<byte>)
    requires frame == [0x50, 0x20, 0xaa, 0x01, 0xc0, 0xf6, 0x16, 0x33, 0x34, 0x2d, 0x58, 0x04, 0x10, 0x02, 0xe8, 0x00]
    ensures var m := Decode(frame);
      && m.Some?
      && m.value.address == "58" + ":" + "2d" + ":" + "34" + ":" + "33" + ":" + "16" + ":" + "f6"
      && m.value.temperature == Some(232)
      && m.value.humidity == None
  {
    XiaomiSensorFrames.MacOfTestSensor(frame[5..11]);
  }

  lemma HumidityFrame(frame: seq<byte>)
    requires frame == [0x50, 0x20, 0xaa, 0x01, 0xba, 0xf6, 0x16, 0x33, 0x34, 0x2d, 0x58, 0x06, 0x10, 0x02, 0x5f, 0x02]
    ensures var m := Decode(frame);
      && m.Some?
      && m.value.address == "58" + ":" + "2d" + ":" + "34" + ":" + "33" + ":" + "16" + ":" + "f6"
      && m.value.temperature == None
      && m.value.humidity == Some(607)
  {
    XiaomiSensorFrames.MacOfTestSensor(frame[5..11]);
  }

  lemma BatteryFrame(frame: seq<byte>)
    requires frame == [0x50, 0x20, 0xaa, 0x01, 0xba, 0xf6, 0x16, 0x33, 0x34, 0x2d, 0x58, 0x0a, 0x10, 0x01, 0x5d]
    ensures var m := Decode(frame);
      && m.Some?
      && m.value.address == "58" + ":" + "2d" + ":" + "34" + ":" + "33" + ":" + "16" + ":" + "f6"
      && m.value.temperature == None
      && m.value.humidity == None
      && m.value.battery == Some(93)
  {
    XiaomiSensorFrames.MacOfTestSensor(frame[5..11]);
  }
}
