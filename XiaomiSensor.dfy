/**
 * Decoder for the Xiaomi "MiBeacon" service data that Xiaomi sensors put in
 * their BLE advertisements.  A frame is laid out as
 *
 *   bytes 0-1   frame control, little endian: version in the top 4 bits,
 *               flags in the low 12 bits
 *   bytes 2-4   product id and frame counter (never read)
 *   then, each only when its flag is set, in this order:
 *     6 bytes   MAC address, least significant byte first
 *     1 byte    capabilities
 *     event     2-byte little-endian id, 1-byte length, `length` bytes of data
 *
 * Temperatures and humidities stay in tenths, the unit of the payload; the
 * source divides them by 10.0 into a Double.  A read past the end of the
 * payload throws in the source; here it is the `OutOfBounds` result.
 */
module XiaomiSensor {
  import opened Nullable
  import opened Hex
  import opened Arith

  datatype Flags = Flags(
    isNewFactory: bool,
    isConnected: bool,
    isCentral: bool,
    isEncrypted: bool,
    hasMacAddress: bool,
    hasCapabilities: bool,
    hasEvent: bool,
    hasCustomData: bool,
    hasSubtitle: bool,
    isBindingFrame: bool)

  datatype Header = Header(version: int, flags: Flags)

  datatype Capabilities = Capabilities(
    connectible: bool,
    centralCapable: bool,
    encryptable: bool,
    io: bool)

  /** A decoded frame.  `temperature` and `humidity` are in tenths of a degree and of a percent. */
  datatype Sensor = Sensor(
    header: Header,
    address: Option<string>,
    capabilities: Option<Capabilities>,
    temperature: Option<int>,
    humidity: Option<int>,
    battery: Option<int>,
    luminance: Option<int>,
    moisture: Option<int>,
    fertility: Option<int>)

  /** The reading, with the cursor where decoding stopped, or the failure of a read past the end. */
  datatype Parsed = Parsed(sensor: Sensor, offset: nat) | OutOfBounds

  // Bit positions of the frame-control flags.
  const NewFactory: nat := 0
  const Connected: nat := 1
  const Central: nat := 2
  const Encrypted: nat := 3
  const MacAddress: nat := 4
  const CapabilitiesFlag: nat := 5
  const Event: nat := 6
  const CustomData: nat := 7
  const Subtitle: nat := 8
  const Binding: nat := 9

  // Event ids.
  const Temperature := 0x1004
  const KettleStatusAndTemperature := 0x1005
  const Humidity := 0x1006
  const Illuminance := 0x1007
  const Moisture := 0x1008
  const Fertility := 0x1009
  const Battery := 0x100A
  const TemperatureAndHumidity := 0x100D

  function Pow2(k: nat): (p: nat)
    ensures p >= 1
  {
    if k == 0 then 1 else 2 * Pow2(k - 1)
  }

  /** `(x and (1 shl k)) != 0`; also right for negative `x`, read in two's complement. */
  predicate Bit(x: int, k: nat) {
    (x / Pow2(k)) % 2 == 1
  }

  /** `readByte`: the byte at `offset`, unsigned. */
  function ReadByte(bytes: seq<byte>, offset: nat): byte
    requires offset < |bytes|
  {
    bytes[offset]
  }

  /** `readUnsignedShort`: the little-endian 16-bit value at `offset`, unsigned. */
  function ReadUnsignedShort(bytes: seq<byte>, offset: nat): (v: int)
    requires offset + 2 <= |bytes|
    ensures 0 <= v < 0x10000
  {
    bytes[offset] as int + 256 * bytes[offset + 1] as int
  }

  /** `readShort`: the little-endian 16-bit value at `offset`, in two's complement. */
  function ReadShort(bytes: seq<byte>, offset: nat): (v: int)
    requires offset + 2 <= |bytes|
    ensures -0x8000 <= v < 0x8000
    ensures v % 0x10000 == ReadUnsignedShort(bytes, offset)
  {
    var u := ReadUnsignedShort(bytes, offset);
    if u < 0x8000 then u else u - 0x10000
  }

  /** `parseHeader`: version and flags from the frame control at bytes 0-1. */
  function ParseHeader(bytes: seq<byte>): Header
    requires |bytes| >= 2
  {
    var frameControl := ReadUnsignedShort(bytes, 0);
    var flags := frameControl % 0x1000;
    Header(
      frameControl / 0x1000,
      Flags(
        isNewFactory := Bit(flags, NewFactory),
        isConnected := Bit(flags, Connected),
        isCentral := Bit(flags, Central),
        isEncrypted := Bit(flags, Encrypted),
        hasMacAddress := Bit(flags, MacAddress),
        hasCapabilities := Bit(flags, CapabilitiesFlag),
        hasEvent := Bit(flags, Event),
        hasCustomData := Bit(flags, CustomData),
        hasSubtitle := Bit(flags, Subtitle),
        isBindingFrame := Bit(flags, Binding)))
  }

  /** `parseCapabilities`; `io` is set by either of bits 3 and 4. */
  function ParseCapabilities(value: int): Capabilities {
    Capabilities(
      connectible := Bit(value, 0),
      centralCapable := Bit(value, 1),
      encryptable := Bit(value, 2),
      io := Bit(value, 3) || Bit(value, 4))
  }

  /** The MAC address as the source prints it: the six bytes reversed, two hex digits each, joined by ':'. */
  function MacString(mac: seq<byte>): string
    requires |mac| == 6
  {
    JoinHex(Reverse(mac))
  }

  /*
   * The frame layout, stated by position rather than by walking a cursor.
   */

  const MacAt: nat := 5

  function CapabilitiesAt(f: Flags): nat {
    MacAt + (if f.hasMacAddress then 6 else 0)
  }

  function EventAt(f: Flags): nat {
    CapabilitiesAt(f) + (if f.hasCapabilities then 1 else 0)
  }

  /** How many bytes past the start of its data the decoder of event `id` reads. */
  function EventDataWidth(id: int): nat {
    if id == TemperatureAndHumidity then 4
    else if id == Temperature || id == Humidity || id == KettleStatusAndTemperature then 2
    else if id == Battery || id == Illuminance || id == Moisture || id == Fertility then 1
    else 0
  }

  /** The length the fixed part of the frame needs: everything up to the event's data. */
  function FixedLength(f: Flags): nat {
    if f.hasEvent then EventAt(f) + 3
    else if f.hasCapabilities then CapabilitiesAt(f) + 1
    else if f.hasMacAddress then MacAt + 6
    else 2
  }

  /** The reading fields event `id` fills in, from data starting at `at`. */
  function WithEvent(s: Sensor, bytes: seq<byte>, id: int, at: nat): Sensor
    requires at + EventDataWidth(id) <= |bytes|
  {
    if id == Temperature then s.(temperature := Some(ReadShort(bytes, at)))
    else if id == Humidity then s.(humidity := Some(ReadUnsignedShort(bytes, at)))
    else if id == TemperatureAndHumidity then
      s.(temperature := Some(ReadShort(bytes, at)), humidity := Some(ReadUnsignedShort(bytes, at + 2)))
    else if id == KettleStatusAndTemperature then s.(temperature := Some(10 * ReadByte(bytes, at + 1)))
    else if id == Battery then s.(battery := Some(ReadByte(bytes, at)))
    else if id == Illuminance then s.(luminance := Some(ReadByte(bytes, at)))
    else if id == Moisture then s.(moisture := Some(ReadByte(bytes, at)))
    else if id == Fertility then s.(fertility := Some(ReadByte(bytes, at)))
    else s
  }

  /** The decoding of a whole frame, by position. */
  function Decode(bytes: seq<byte>): Parsed {
    if |bytes| < 2 then OutOfBounds
    else
      var header := ParseHeader(bytes);
      var f := header.flags;
      if |bytes| < FixedLength(f) then OutOfBounds
      else
        var e := EventAt(f);
        var id := if f.hasEvent then ReadUnsignedShort(bytes, e) else 0;
        if f.hasEvent && |bytes| < e + 3 + EventDataWidth(id) then OutOfBounds
        else
          var base := Sensor(
            header,
            if f.hasMacAddress then Some(MacString(bytes[MacAt..MacAt + 6])) else None,
            if f.hasCapabilities then Some(ParseCapabilities(Signed8(bytes[CapabilitiesAt(f)]))) else None,
            None, None, None, None, None, None);
          if f.hasEvent then Parsed(WithEvent(base, bytes, id, e + 3), e + 3 + bytes[e + 2])
          else Parsed(base, e)
  }

  /**
   * `parse`: walks a cursor over the optional fields, as the source does.
   * Every read is bounds-checked; the first one past the end fails.
   */
  method Parse(bytes: seq<byte>) returns (p: Parsed)
    ensures p == Decode(bytes)
  {
    if |bytes| < 2 {
      return OutOfBounds;
    }
    var header := ParseHeader(bytes);
    var offset: nat := 5;

    var macAddress: Option<string> := None;
    if header.flags.hasMacAddress {
      if |bytes| < offset + 6 {
        return OutOfBounds;
      }
      macAddress := Some(JoinHex(Reverse(bytes[offset..offset + 6])));
      offset := offset + 6;
    }

    var capabilities: Option<Capabilities> := None;
    if header.flags.hasCapabilities {
      if |bytes| <= offset {
        return OutOfBounds;
      }
      capabilities := Some(ParseCapabilities(Signed8(bytes[offset])));
      offset := offset + 1;
    }

    var temperature: Option<int> := None;
    var humidity: Option<int> := None;
    var battery: Option<int> := None;
    var luminance: Option<int> := None;
    var moisture: Option<int> := None;
    var fertility: Option<int> := None;
    if header.flags.hasEvent {
      if |bytes| < offset + 2 {
        return OutOfBounds;
      }
      var eventId := ReadUnsignedShort(bytes, offset);
      offset := offset + 2;
      if |bytes| <= offset {
        return OutOfBounds;
      }
      var dataLength := ReadByte(bytes, offset);
      offset := offset + 1;
      if |bytes| < offset + EventDataWidth(eventId) {
        return OutOfBounds;
      }
      if eventId == Temperature {
        temperature := Some(ReadShort(bytes, offset));
      } else if eventId == Humidity {
        humidity := Some(ReadUnsignedShort(bytes, offset));
      } else if eventId == TemperatureAndHumidity {
        temperature := Some(ReadShort(bytes, offset));
        humidity := Some(ReadUnsignedShort(bytes, offset + 2));
      } else if eventId == KettleStatusAndTemperature {
        temperature := Some(10 * ReadByte(bytes, offset + 1));
      } else if eventId == Battery {
        battery := Some(ReadByte(bytes, offset));
      } else if eventId == Illuminance {
        luminance := Some(ReadByte(bytes, offset));
      } else if eventId == Moisture {
        moisture := Some(ReadByte(bytes, offset));
      } else if eventId == Fertility {
        fertility := Some(ReadByte(bytes, offset));
      }
      offset := offset + dataLength;
    }

    return Parsed(
      Sensor(header, macAddress, capabilities, temperature, humidity, battery, luminance, moisture, fertility),
      offset);
  }

  /*
   * Properties of the decoding.
   */

  /** The flags are bits 0-7 of byte 0 and bits 0-1 of byte 1; the version is the high nibble of byte 1. */
  lemma HeaderFromWireBytes(bytes: seq<byte>)
    requires |bytes| >= 2
    ensures ParseHeader(bytes).version == bytes[1] / 16
    ensures ParseHeader(bytes).flags == Flags(
      Bit(bytes[0], 0), Bit(bytes[0], 1), Bit(bytes[0], 2), Bit(bytes[0], 3),
      Bit(bytes[0], 4), Bit(bytes[0], 5), Bit(bytes[0], 6), Bit(bytes[0], 7),
      Bit(bytes[1], 0), Bit(bytes[1], 1))
  {
    var b0, b1 := bytes[0] as int, bytes[1] as int;
    var flags := ReadUnsignedShort(bytes, 0) % 0x1000;
    assert flags == b0 + 256 * (b1 % 16);
    forall k: nat | k < 8 ensures Bit(flags, k) == Bit(b0, k) {
      LowBitsOfSum(b0, b1 % 16, k);
    }
    forall k: nat | k < 2 ensures Bit(flags, 8 + k) == Bit(b1, k) {
      HighBitsOfSum(b0, b1, k);
    }
  }

  lemma {:induction false} Pow2Add(a: nat, b: nat)
    ensures Pow2(a + b) == Pow2(a) * Pow2(b)
  {
    if a > 0 {
      Pow2Add(a - 1, b);
    }
  }

  /** Adding a multiple of 256 leaves bits 0-7 alone. */
  lemma LowBitsOfSum(low: int, high: int, k: nat)
    requires k < 8
    ensures Bit(low + 256 * high, k) == Bit(low, k)
  {
    var p, h := Pow2(k), Pow2(7 - k);
    Pow2Add(k, 7 - k);
    assert Pow2(7) == 128;
    assert 256 * high == 2 * p * (h * high) by {
      assert p * h == 128;
      assert 2 * p * (h * high) == 2 * (p * h) * high;
    }
    QuotientParity(low, p, h * high);
  }

  /** Bits 8 and 9 of `low + 256 * (high % 16)` are bits 0 and 1 of `high`. */
  lemma HighBitsOfSum(low: int, high: int, k: nat)
    requires 0 <= low < 256 && 0 <= high && k < 2
    ensures Bit(low + 256 * (high % 16), 8 + k) == Bit(high, k)
  {
    var h, p := high % 16, Pow2(k);
    Pow2Add(8, k);
    assert Pow2(8) == 256;
    DropLowByte(low, h, p);
    Pow2Add(k, 3 - k);
    assert Pow2(3) == 8;
    var t := high / 16;
    assert high == h + 2 * p * (Pow2(3 - k) * t) by {
      assert p * Pow2(3 - k) == 8;
      assert 2 * p * (Pow2(3 - k) * t) == 2 * (p * Pow2(3 - k)) * t;
    }
    QuotientParity(h, p, Pow2(3 - k) * t);
  }

  /** The capability byte is read as a signed byte; bits 0-4 come out the same either way. */
  lemma CapabilitiesIgnoreSign(b: byte)
    ensures ParseCapabilities(Signed8(b)) == ParseCapabilities(b)
  {
    if b >= 128 {
      forall k: nat | k < 5 ensures Bit(b - 256, k) == Bit(b, k) {
        LowBitsOfSum(b, -1, k);
      }
    }
  }

  /** Which fields a decoded frame has: address and capabilities follow their flags; each reading comes only from its own event. */
  lemma FieldPresence(bytes: seq<byte>)
    requires Decode(bytes).Parsed?
    ensures var f := ParseHeader(bytes).flags;
      var s := Decode(bytes).sensor;
      var id := if f.hasEvent then ReadUnsignedShort(bytes, EventAt(f)) else 0;
      && (s.address.Some? <==> f.hasMacAddress)
      && (s.capabilities.Some? <==> f.hasCapabilities)
      && (s.temperature.Some? <==> f.hasEvent && (id == Temperature || id == TemperatureAndHumidity || id == KettleStatusAndTemperature))
      && (s.humidity.Some? <==> f.hasEvent && (id == Humidity || id == TemperatureAndHumidity))
      && (s.battery.Some? <==> f.hasEvent && id == Battery)
      && (s.luminance.Some? <==> f.hasEvent && id == Illuminance)
      && (s.moisture.Some? <==> f.hasEvent && id == Moisture)
      && (s.fertility.Some? <==> f.hasEvent && id == Fertility)
  {
  }

  /**
   * Where the cursor ends: 5, plus 6 for a MAC, 1 for capabilities, and for
   * an event 3 plus its declared length, whatever the event id.
   */
  lemma CursorAfterFrame(bytes: seq<byte>)
    requires Decode(bytes).Parsed?
    ensures var f := ParseHeader(bytes).flags;
      Decode(bytes).offset == 5 + (if f.hasMacAddress then 6 else 0) + (if f.hasCapabilities then 1 else 0)
        + (if f.hasEvent then 3 + bytes[EventAt(f) + 2] as int else 0)
  {
  }

  /** Bytes after the frame change nothing in a successful decoding. */
  lemma TrailingBytesIgnored(bytes: seq<byte>, extra: seq<byte>)
    requires Decode(bytes).Parsed?
    ensures Decode(bytes + extra) == Decode(bytes)
  {
    var all := bytes + extra;
    assert all[..|bytes|] == bytes;
    assert ParseHeader(all) == ParseHeader(bytes);
    var f := ParseHeader(bytes).flags;
    if f.hasMacAddress {
      assert all[MacAt..MacAt + 6] == bytes[MacAt..MacAt + 6];
    }
  }

  /** Product id and frame counter (bytes 2-4) are never read. */
  lemma FrameCounterIgnored(bytes: seq<byte>, i: nat, v: byte)
    requires 2 <= i < 5 && i < |bytes|
    ensures Decode(bytes[i := v]) == Decode(bytes)
  {
    var changed := bytes[i := v];
    assert ParseHeader(changed) == ParseHeader(bytes);
    var f := ParseHeader(bytes).flags;
    if f.hasMacAddress && |bytes| >= MacAt + 6 {
      assert changed[MacAt..MacAt + 6] == bytes[MacAt..MacAt + 6];
    }
  }
}
