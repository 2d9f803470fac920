/** The frames of the decoder's unit tests, with the readings they expect. */
module XiaomiSensorFrames {
  import opened Nullable
  import opened Hex
  import opened XiaomiSensor

  /** Six bytes join into their two-digit forms separated by ':'. */
  lemma JoinSix(bs: seq<byte>)
    requires |bs| == 6
    ensures JoinHex(bs) == HexByte(bs[0]) + ":" + HexByte(bs[1]) + ":" + HexByte(bs[2]) + ":" + HexByte(bs[3]) + ":" + HexByte(bs[4]) + ":" + HexByte(bs[5])
  {
    assert bs[1..][1..] == bs[2..] && bs[2..][1..] == bs[3..] && bs[3..][1..] == bs[4..] && bs[4..][1..] == bs[5..];
    var j5 := JoinHex(bs[5..]);
    var j4 := JoinHex(bs[4..]);
    assert j4 == HexByte(bs[4]) + ":" + j5;
    var j3 := JoinHex(bs[3..]);
    assert j3 == HexByte(bs[3]) + ":" + j4;
    var j2 := JoinHex(bs[2..]);
    assert j2 == HexByte(bs[2]) + ":" + j3;
    var j1 := JoinHex(bs[1..]);
    assert j1 == HexByte(bs[1]) + ":" + j2;
  }

  /** A MAC prints as its bytes from last to first, two hex digits each, joined by ':'. */
  lemma MacOf(mac: seq<byte>)
    requires |mac| == 6
    ensures MacString(mac) == HexByte(mac[5]) + ":" + HexByte(mac[4]) + ":" + HexByte(mac[3]) + ":" + HexByte(mac[2]) + ":" + HexByte(mac[1]) + ":" + HexByte(mac[0])
  {
    JoinSix(Reverse(mac));
  }

  lemma TestSensorDigits()
    ensures HexByte(0x58) == "58" && HexByte(0x2d) == "2d" && HexByte(0x34) == "34"
    ensures HexByte(0x33) == "33" && HexByte(0x16) == "16" && HexByte(0xf6) == "f6"
  {
  }

  /** The address of the sensor in most of the unit tests, "58:2d:34:33:16:f6": its bytes reversed. */
  lemma MacOfTestSensor(mac: seq<byte>)
    requires mac == [0xf6, 0x16, 0x33, 0x34, 0x2d, 0x58]
    ensures MacString(mac) == "58" + ":" + "2d" + ":" + "34" + ":" + "33" + ":" + "16" + ":" + "f6"
  {
    MacOf(mac);
    TestSensorDigits();
  }

  lemma SecondSensorDigits()
    ensures HexByte(0x58) == "58" && HexByte(0x2d) == "2d" && HexByte(0x34) == "34"
    ensures HexByte(0x32) == "32" && HexByte(0xf9) == "f9" && HexByte(0x36) == "36"
  {
  }

  /** The sensor of the negative-temperature tests, "58:2d:34:32:f9:36". */
  lemma MacOfSecondSensor(mac: seq<byte>)
    requires mac == [0x36, 0xf9, 0x32, 0x34, 0x2d, 0x58]
    ensures MacString(mac) == "58" + ":" + "2d" + ":" + "34" + ":" + "32" + ":" + "f9" + ":" + "36"
  {
    MacOf(mac);
    SecondSensorDigits();
  }

  lemma FlowerCareDigits()
    ensures HexByte(0x80) == "80" && HexByte(0xea) == "ea" && HexByte(0xca) == "ca"
    ensures HexByte(0x88) == "88" && HexByte(0xaf) == "af" && HexByte(0x1f) == "1f"
  {
  }

  /** The plant sensor of the moisture, fertility and luminance tests, "80:ea:ca:88:af:1f". */
  lemma MacOfFlowerCare(mac: seq<byte>)
    requires mac == [0x1f, 0xaf, 0x88, 0xca, 0xea, 0x80]
    ensures MacString(mac) == "80" + ":" + "ea" + ":" + "ca" + ":" + "88" + ":" + "af" + ":" + "1f"
  {
    MacOf(mac);
    FlowerCareDigits();
  }

  lemma KettleDigits()
    ensures HexByte(0xb8) == "b8" && HexByte(0x7c) == "7c" && HexByte(0x6f) == "6f"
    ensures HexByte(0x44) == "44" && HexByte(0x5f) == "5f" && HexByte(0xf2) == "f2"
  {
  }

  /** The kettle, "b8:7c:6f:44:5f:f2". */
  lemma MacOfKettle(mac: seq<byte>)
    requires mac == [0xf2, 0x5f, 0x44, 0x6f, 0x7c, 0xb8]
    ensures MacString(mac) == "b8" + ":" + "7c" + ":" + "6f" + ":" + "44" + ":" + "5f" + ":" + "f2"
  {
    MacOf(mac);
    KettleDigits();
  }

  /** Frame control 0x2050: a MAC address and an event. */
  lemma ControlWithMac(frame: seq<byte>)
    requires |frame| >= 2 && frame[0] == 0x50 && frame[1] == 0x20
    ensures ParseHeader(frame).flags == Flags(false, false, false, false, true, false, true, false, false, false)
  {
    HeaderFromWireBytes(frame);
    BitsOfMacControl();
  }

  lemma BitsOfMacControl()
    ensures !Bit(0x50, 0) && !Bit(0x50, 1) && !Bit(0x50, 2) && !Bit(0x50, 3)
    ensures Bit(0x50, 4) && !Bit(0x50, 5) && Bit(0x50, 6) && !Bit(0x50, 7)
    ensures !Bit(0x20, 0) && !Bit(0x20, 1)
  {
  }

  /** Frame control 0x2071: a MAC address, capabilities and an event; the new-factory flag is set. */
  lemma ControlWithCapabilities(frame: seq<byte>)
    requires |frame| >= 2 && frame[0] == 0x71 && frame[1] == 0x20
    ensures ParseHeader(frame).flags == Flags(true, false, false, false, true, true, true, false, false, false)
  {
    HeaderFromWireBytes(frame);
    BitsOfCapabilitiesControl();
  }

  lemma BitsOfCapabilitiesControl()
    ensures Bit(0x71, 0) && !Bit(0x71, 1) && !Bit(0x71, 2) && !Bit(0x71, 3)
    ensures Bit(0x71, 4) && Bit(0x71, 5) && Bit(0x71, 6) && !Bit(0x71, 7)
    ensures !Bit(0x20, 0) && !Bit(0x20, 1)
  {
  }

  /** The frames of the unit tests, with the values they expect. */
  lemma TemperatureAndHumidityFrame(frame: seq<byte>)
    requires frame == [0x50, 0x20, 0xaa, 0x01, 0xb4, 0xf6, 0x16, 0x33, 0x34, 0x2d, 0x58, 0x0d, 0x10, 0x04, 0xe8, 0x00, 0x5f, 0x02]
    ensures var p := Decode(frame);
      && p.Parsed?
      && p.sensor.address == Some("58" + ":" + "2d" + ":" + "34" + ":" + "33" + ":" + "16" + ":" + "f6")
      && p.sensor.temperature == Some(232)
      && p.sensor.humidity == Some(607)
  {
    ControlWithMac(frame);
    MacOfTestSensor(frame[MacAt..MacAt + 6]);
  }

  lemma NegativeTemperatureAndHumidityFrame(frame: seq<byte>)
    requires frame == [0x50, 0x20, 0xaa, 0x01, 0x28, 0x36, 0xf9, 0x32, 0x34, 0x2d, 0x58, 0x0d, 0x10, 0x04, 0xda, 0xff, 0x60, 0x02]
    ensures var p := Decode(frame);
      && p.Parsed?
      && p.sensor.address == Some("58" + ":" + "2d" + ":" + "34" + ":" + "32" + ":" + "f9" + ":" + "36")
      && p.sensor.temperature == Some(-38)
      && p.sensor.humidity == Some(608)
  {
    ControlWithMac(frame);
    MacOfSecondSensor(frame[MacAt..MacAt + 6]);
  }

  lemma TemperatureFrame(frame: seq<byte>)
    requires frame == [0x50, 0x20, 0xaa, 0x01, 0xc0, 0xf6, 0x16, 0x33, 0x34, 0x2d, 0x58, 0x04, 0x10, 0x02, 0xe8, 0x00]
    ensures var p := Decode(frame);
      && p.Parsed?
      && p.sensor.address == Some("58" + ":" + "2d" + ":" + "34" + ":" + "33" + ":" + "16" + ":" + "f6")
      && p.sensor.temperature == Some(232)
      && p.sensor.humidity == None
  {
    ControlWithMac(frame);
    MacOfTestSensor(frame[MacAt..MacAt + 6]);
  }

  lemma NegativeTemperatureFrame(frame: seq<byte>)
    requires frame == [0x50, 0x20, 0xaa, 0x01, 0x60, 0x36, 0xf9, 0x32, 0x34, 0x2d, 0x58, 0x04, 0x10, 0x02, 0xd7, 0xff]
    ensures var p := Decode(frame);
      && p.Parsed?
      && p.sensor.address == Some("58" + ":" + "2d" + ":" + "34" + ":" + "32" + ":" + "f9" + ":" + "36")
      && p.sensor.temperature == Some(-41)
      && p.sensor.humidity == None
  {
    ControlWithMac(frame);
    MacOfSecondSensor(frame[MacAt..MacAt + 6]);
  }

  lemma HumidityFrame(frame: seq<byte>)
    requires frame == [0x50, 0x20, 0xaa, 0x01, 0xba, 0xf6, 0x16, 0x33, 0x34, 0x2d, 0x58, 0x06, 0x10, 0x02, 0x5f, 0x02]
    ensures var p := Decode(frame);
      && p.Parsed?
      && p.sensor.address == Some("58" + ":" + "2d" + ":" + "34" + ":" + "33" + ":" + "16" + ":" + "f6")
      && p.sensor.temperature == None
      && p.sensor.humidity == Some(607)
  {
    ControlWithMac(frame);
    MacOfTestSensor(frame[MacAt..MacAt + 6]);
  }

  lemma BatteryFrame(frame: seq<byte>)
    requires frame == [0x50, 0x20, 0xaa, 0x01, 0xba, 0xf6, 0x16, 0x33, 0x34, 0x2d, 0x58, 0x0a, 0x10, 0x01, 0x5d]
    ensures var p := Decode(frame);
      && p.Parsed?
      && p.sensor.address == Some("58" + ":" + "2d" + ":" + "34" + ":" + "33" + ":" + "16" + ":" + "f6")
      && p.sensor.temperature == None
      && p.sensor.humidity == None
      && p.sensor.battery == Some(93)
  {
    ControlWithMac(frame);
    MacOfTestSensor(frame[MacAt..MacAt + 6]);
  }

  lemma MoistureFrame(frame: seq<byte>)
    requires frame == [0x71, 0x20, 0x98, 0x00, 0xbf, 0x1f, 0xaf, 0x88, 0xca, 0xea, 0x80, 0x0d, 0x08, 0x10, 0x01, 0x11]
    ensures var p := Decode(frame);
      && p.Parsed?
      && p.sensor.address == Some("80" + ":" + "ea" + ":" + "ca" + ":" + "88" + ":" + "af" + ":" + "1f")
      && p.sensor.moisture == Some(17)
  {
    ControlWithCapabilities(frame);
    MacOfFlowerCare(frame[MacAt..MacAt + 6]);
  }

  lemma FertilityFrame(frame: seq<byte>)
    requires frame == [0x71, 0x20, 0x98, 0x00, 0x60, 0x1f, 0xaf, 0x88, 0xca, 0xea, 0x80, 0x0d, 0x09, 0x10, 0x02, 0x6d, 0x0c]
    ensures var p := Decode(frame);
      && p.Parsed?
      && p.sensor.address == Some("80" + ":" + "ea" + ":" + "ca" + ":" + "88" + ":" + "af" + ":" + "1f")
      && p.sensor.fertility == Some(109)
  {
    ControlWithCapabilities(frame);
    MacOfFlowerCare(frame[MacAt..MacAt + 6]);
  }

  /** A frame with capabilities; luminance is one byte although the event says three. */
  lemma LuminanceFrame(frame: seq<byte>)
    requires frame == [0x71, 0x20, 0x98, 0x00, 0x62, 0x1f, 0xaf, 0x88, 0xca, 0xea, 0x80, 0x0d, 0x07, 0x10, 0x03, 0x4f, 0x00, 0x00]
    ensures var p := Decode(frame);
      && p.Parsed?
      && p.sensor.address == Some("80" + ":" + "ea" + ":" + "ca" + ":" + "88" + ":" + "af" + ":" + "1f")
      && p.sensor.capabilities == Some(Capabilities(true, false, true, true))
      && p.sensor.luminance == Some(79)
  {
    ControlWithCapabilities(frame);
    MacOfFlowerCare(frame[MacAt..MacAt + 6]);
    assert Signed8(0x0d) == 0x0d;
    BitsOfTestCapabilities();
  }

  lemma BitsOfTestCapabilities()
    ensures Bit(0x0d, 0) && !Bit(0x0d, 1) && Bit(0x0d, 2) && Bit(0x0d, 3)
  {
  }

  /** The kettle reports whole degrees in the second data byte. */
  lemma KettleFrame(frame: seq<byte>)
    requires frame == [0x71, 0x20, 0x13, 0x01, 0x71, 0xf2, 0x5f, 0x44, 0x6f, 0x7c, 0xb8, 0x09, 0x05, 0x10, 0x02, 0x00, 0x15]
    ensures var p := Decode(frame);
      && p.Parsed?
      && p.sensor.address == Some("b8" + ":" + "7c" + ":" + "6f" + ":" + "44" + ":" + "5f" + ":" + "f2")
      && p.sensor.temperature == Some(210)
  {
    ControlWithCapabilities(frame);
    MacOfKettle(frame[MacAt..MacAt + 6]);
  }
}
