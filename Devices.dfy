/**
 * DevicesModel: the list of devices the app shows, one record per device,
 * added when a device is first seen and updated in place afterwards.
 *
 * The name mapper's answer for a device (`mappedName`) and the time of the
 * update (`now`, in milliseconds) are parameters.  Sensor readings keep the
 * integer tenths of `XiaomiSensor.Sensor`.
 */
module Devices {
  import opened Nullable
  import XiaomiSensor

  /** The parts of a Bluetooth device the model reads: its address and its advertised name, which may be absent. */
  datatype BluetoothDevice = BluetoothDevice(address: string, name: Option<string>)

  /** One row of the list. */
  datatype DeviceModel = DeviceModel(
    address: string,
    name: Option<string>,
    battery: Option<int>,
    error: Option<string>,
    temperature: Option<int>,
    humidity: Option<int>,
    luminance: Option<int>,
    moisture: Option<int>,
    fertility: Option<int>,
    lastUpdate: int,
    useCustomName: bool)
  {
    /**
     * `withCustomName`: a blank name keeps the old one and clears the
     * custom-name mark; any other name replaces it and sets the mark.
     */
    function WithCustomName(newName: string): (r: DeviceModel)
      ensures IsBlank(newName) ==> r == this.(useCustomName := false)
      ensures !IsBlank(newName) ==> r == this.(name := Some(newName), useCustomName := true)
    {
      DeviceModel(address, if IsBlank(newName) then name else Some(newName), battery, error,
        temperature, humidity, luminance, moisture, fertility, lastUpdate, !IsBlank(newName))
    }
  }

  /** Kotlin's `Char.isWhitespace`: Java's whitespace characters and Unicode space separators. */
  predicate IsWhitespace(c: char) {
    || '\t' <= c <= '\r' || '\U{1C}' <= c <= '\U{1F}' || c == ' '
    || c == '\U{A0}' || c == '\U{1680}' || '\U{2000}' <= c <= '\U{200A}'
    || c == '\U{2028}' || c == '\U{2029}' || c == '\U{202F}' || c == '\U{205F}' || c == '\U{3000}'
  }

  /** `isBlank`: empty, or whitespace only. */
  predicate IsBlank(s: string) {
    forall i :: 0 <= i < |s| ==> IsWhitespace(s[i])
  }

  /** Kotlin `a ?: b`. */
  function Or<T>(a: Option<T>, b: Option<T>): (r: Option<T>)
    ensures a.Some? ==> r == a
    ensures a.None? ==> r == b
  {
    if a.Some? then a else b
  }

  /** A sensor's reading, or nothing when there is no sensor. */
  function Reading(sensor: Option<XiaomiSensor.Sensor>, field: XiaomiSensor.Sensor -> Option<int>): Option<int> {
    if sensor.Some? then field(sensor.value) else None
  }

  /** The record `addDevice` appends. */
  function NewRecord(device: BluetoothDevice, mappedName: string, sensor: Option<XiaomiSensor.Sensor>, now: int): (r: DeviceModel)
    ensures r.address == device.address && r.name == Some(mappedName) && r.error == None && r.lastUpdate == now
    ensures r.useCustomName <==> Some(mappedName) != device.name
    ensures sensor.None? ==>
      r.battery == r.temperature == r.humidity == r.luminance == r.moisture == r.fertility == None
    ensures sensor.Some? ==>
      && r.battery == sensor.value.battery && r.temperature == sensor.value.temperature
      && r.humidity == sensor.value.humidity && r.luminance == sensor.value.luminance
      && r.moisture == sensor.value.moisture && r.fertility == sensor.value.fertility
  {
    DeviceModel(
      device.address,
      Some(mappedName),
      Reading(sensor, (s: XiaomiSensor.Sensor) => s.battery),
      None,
      Reading(sensor, (s: XiaomiSensor.Sensor) => s.temperature),
      Reading(sensor, (s: XiaomiSensor.Sensor) => s.humidity),
      Reading(sensor, (s: XiaomiSensor.Sensor) => s.luminance),
      Reading(sensor, (s: XiaomiSensor.Sensor) => s.moisture),
      Reading(sensor, (s: XiaomiSensor.Sensor) => s.fertility),
      now,
      Some(mappedName) != device.name)
  }

  /**
   * The record `updateDevice` puts in place of `original`: each reading the
   * sensor has replaces the old one, the others stay; the error is cleared;
   * a custom name is never overwritten and the custom-name mark never
   * cleared.
   */
  function Merged(original: DeviceModel, device: BluetoothDevice, mappedName: string,
                  sensor: Option<XiaomiSensor.Sensor>, now: int): (r: DeviceModel)
    ensures r.address == original.address && r.error == None && r.lastUpdate == now
    ensures original.useCustomName ==> r.name == original.name && r.useCustomName
    ensures !original.useCustomName ==> r.name == Some(mappedName) && (r.useCustomName <==> Some(mappedName) != device.name)
    ensures sensor.None? ==>
      && r.battery == original.battery && r.temperature == original.temperature
      && r.humidity == original.humidity && r.luminance == original.luminance
      && r.moisture == original.moisture && r.fertility == original.fertility
    ensures sensor.Some? ==>
      && r.battery == (if sensor.value.battery.Some? then sensor.value.battery else original.battery)
      && r.temperature == (if sensor.value.temperature.Some? then sensor.value.temperature else original.temperature)
      && r.humidity == (if sensor.value.humidity.Some? then sensor.value.humidity else original.humidity)
      && r.luminance == (if sensor.value.luminance.Some? then sensor.value.luminance else original.luminance)
      && r.moisture == (if sensor.value.moisture.Some? then sensor.value.moisture else original.moisture)
      && r.fertility == (if sensor.value.fertility.Some? then sensor.value.fertility else original.fertility)
  {
    DeviceModel(
      original.address,
      if original.useCustomName then original.name else Some(mappedName),
      Or(Reading(sensor, (s: XiaomiSensor.Sensor) => s.battery), original.battery),
      None,
      Or(Reading(sensor, (s: XiaomiSensor.Sensor) => s.temperature), original.temperature),
      Or(Reading(sensor, (s: XiaomiSensor.Sensor) => s.humidity), original.humidity),
      Or(Reading(sensor, (s: XiaomiSensor.Sensor) => s.luminance), original.luminance),
      Or(Reading(sensor, (s: XiaomiSensor.Sensor) => s.moisture), original.moisture),
      Or(Reading(sensor, (s: XiaomiSensor.Sensor) => s.fertility), original.fertility),
      now,
      original.useCustomName || Some(mappedName) != device.name)
  }

  /** The index of the first record with `address`, if any. */
  function FirstWith(list: seq<DeviceModel>, address: string): (i: Option<nat>)
    ensures i.None? ==> forall j :: 0 <= j < |list| ==> list[j].address != address
    ensures i.Some? ==> i.value < |list| && list[i.value].address == address
    ensures i.Some? ==> forall j :: 0 <= j < i.value ==> list[j].address != address
    decreases |list|
  {
    if list == [] then None
    else if list[0].address == address then Some(0)
    else
      var rest := FirstWith(list[1..], address);
      if rest.Some? then Some(rest.value + 1) else None
  }

  /** What `doUpdate` leaves: the list, and whether it replaced a record. */
  datatype Update = Update(list: seq<DeviceModel>, changed: bool)

  /**
   * `doUpdate`: only the first record with the address is offered to the
   * updater, and it is replaced only if the updater returns a different one.
   */
  function ApplyFirst(list: seq<DeviceModel>, address: string, updater: DeviceModel -> DeviceModel): (u: Update)
    ensures |u.list| == |list|
    ensures u.changed <==>
      FirstWith(list, address).Some? && updater(list[FirstWith(list, address).value]) != list[FirstWith(list, address).value]
    ensures !u.changed ==> u.list == list
    ensures u.changed ==> var i := FirstWith(list, address).value; u.list == list[i := updater(list[i])]
  {
    var i := FirstWith(list, address);
    if i.Some? && updater(list[i.value]) != list[i.value] then Update(list[i.value := updater(list[i.value])], true)
    else Update(list, false)
  }

  /** An updater that keeps addresses never changes the addresses of the list. */
  lemma ApplyFirstKeepsAddresses(list: seq<DeviceModel>, address: string, updater: DeviceModel -> DeviceModel)
    requires forall d :: updater(d).address == d.address
    ensures var u := ApplyFirst(list, address, updater);
      forall j :: 0 <= j < |list| ==> u.list[j].address == list[j].address
  {
  }

  /** Renaming twice to the same name changes nothing the second time. */
  lemma RenameIsIdempotent(list: seq<DeviceModel>, address: string, newName: string)
    ensures var once := ApplyFirst(list, address, (d: DeviceModel) => d.WithCustomName(newName));
      ApplyFirst(once.list, address, (d: DeviceModel) => d.WithCustomName(newName)) == Update(once.list, false)
  {
    var rename := (d: DeviceModel) => d.WithCustomName(newName);
    var once := ApplyFirst(list, address, rename);
    SameAddressesSameFirst(list, once.list, address);
  }

  /** Updating twice with the same reading at the same time changes nothing the second time. */
  lemma UpdateIsIdempotent(list: seq<DeviceModel>, device: BluetoothDevice, mappedName: string,
                           sensor: Option<XiaomiSensor.Sensor>, now: int)
    ensures var merge := (d: DeviceModel) => Merged(d, device, mappedName, sensor, now);
      var once := ApplyFirst(list, device.address, merge);
      ApplyFirst(once.list, device.address, merge) == Update(once.list, false)
  {
    var merge := (d: DeviceModel) => Merged(d, device, mappedName, sensor, now);
    var once := ApplyFirst(list, device.address, merge);
    SameAddressesSameFirst(list, once.list, device.address);
  }

  /** Lists with the same addresses have the same first match. */
  lemma {:induction false} SameAddressesSameFirst(a: seq<DeviceModel>, b: seq<DeviceModel>, address: string)
    requires |a| == |b|
    requires forall j :: 0 <= j < |a| ==> a[j].address == b[j].address
    ensures FirstWith(a, address) == FirstWith(b, address)
    decreases |a|
  {
    if a != [] {
      SameAddressesSameFirst(a[1..], b[1..], address);
    }
  }

  /** The list of devices, updated in place. */
  class DevicesModel {
    var devices: seq<DeviceModel>

    constructor()
      ensures devices == []
    {
      devices := [];
    }

    /** `addDevice`: one new record at the end. */
    method AddDevice(device: BluetoothDevice, mappedName: string, sensor: Option<XiaomiSensor.Sensor>, now: int)
      modifies this
      ensures devices == old(devices) + [NewRecord(device, mappedName, sensor, now)]
    {
      devices := devices + [NewRecord(device, mappedName, sensor, now)];
    }

    /** `doUpdate`: the loop over the list, up to the first record with the address. */
    method DoUpdate(address: string, updater: DeviceModel -> DeviceModel) returns (changed: bool)
      modifies this
      ensures Update(devices, changed) == ApplyFirst(old(devices), address, updater)
    {
      var i := 0;
      while i < |devices|
        invariant 0 <= i <= |devices| && devices == old(devices)
        invariant forall j :: 0 <= j < i ==> devices[j].address != address
      {
        var original := devices[i];
        if original.address == address {
          assert FirstWith(devices, address) == Some(i) by {
            FirstMatch(devices, address, i);
          }
          var updated := updater(original);
          if updated != original {
            devices := devices[i := updated];
            return true;
          }
          return false;
        }
        i := i + 1;
      }
      return false;
    }

    /** `updateDeviceName`. */
    method UpdateDeviceName(address: string, newName: string) returns (changed: bool)
      modifies this
      ensures Update(devices, changed) == ApplyFirst(old(devices), address, (d: DeviceModel) => d.WithCustomName(newName))
    {
      changed := DoUpdate(address, (d: DeviceModel) => d.WithCustomName(newName));
    }

    /** `updateDevice`. */
    method UpdateDevice(device: BluetoothDevice, mappedName: string, sensor: Option<XiaomiSensor.Sensor>, now: int)
      returns (changed: bool)
      modifies this
      ensures Update(devices, changed) ==
        ApplyFirst(old(devices), device.address, (d: DeviceModel) => Merged(d, device, mappedName, sensor, now))
    {
      changed := DoUpdate(device.address, (d: DeviceModel) => Merged(d, device, mappedName, sensor, now));
    }
  }

  /** The first index whose record has the address, with none before it, is the first match. */
  lemma {:induction false} FirstMatch(list: seq<DeviceModel>, address: string, i: nat)
    requires i < |list| && list[i].address == address
    requires forall j :: 0 <= j < i ==> list[j].address != address
    ensures FirstWith(list, address) == Some(i)
    decreases i
  {
    if i > 0 {
      FirstMatch(list[1..], address, i - 1);
    }
  }

  /*
   * The model's unit tests, with the name mapper's answer and the clock as values.
   */

  /** A device added with its own name, then renamed, then updated: the custom name survives. */
  method CustomNameIsNotOverwritten() returns (first: DeviceModel, renamed: DeviceModel, updated: DeviceModel)
    ensures first.name == Some("device#1") && !first.useCustomName
    ensures renamed.name == Some("custom-name") && renamed.useCustomName
    ensures updated.name == Some("custom-name") && updated.useCustomName
  {
    var device := BluetoothDevice("12:34:56:78:90:AB", Some("device#1"));
    var model := new DevicesModel();
    model.AddDevice(device, "device#1", None, 1);
    first := model.devices[0];
    assert !IsBlank("custom-name") by {
      assert !IsWhitespace("custom-name"[0]);
    }
    var changed := model.UpdateDeviceName(device.address, "custom-name");
    renamed := model.devices[0];
    changed := model.UpdateDevice(device, "device#1", None, 2);
    updated := model.devices[0];
  }

  /** A device whose mapped name differs from its own is added with the custom-name mark. */
  method AddedWithCustomName() returns (first: DeviceModel)
    ensures first.address == "12:34:56:78:90:AB" && first.name == Some("custom-name") && first.useCustomName
  {
    var device := BluetoothDevice("12:34:56:78:90:AB", Some("device#1"));
    var model := new DevicesModel();
    model.AddDevice(device, "custom-name", None, 1);
    first := model.devices[0];
  }
}
