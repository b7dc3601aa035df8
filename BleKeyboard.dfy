/** The Bluetooth LE keyboard (BleKeyboard/BleKeyboard.py): the key state of
    a HID keyboard with one ordinary and one media key pressed at a time, the
    HID reports it sends, and the selection of BlueZ devices to pair,
    connect and disconnect. The D-Bus object tree is given as a list of
    managed objects; calls made on devices and services are logged. */
module BleKeyboard {
  import opened Wrappers

  /** The all-zero 8-byte keyboard input report (modifiers, reserved byte,
      six key slots) of the boot keyboard in Appendix B.1 of the USB HID
      specification 1.11: no key pressed. */
  const KeyRelease: seq<int> := [0, 0, 0, 0, 0, 0, 0, 0]

  /** The all-zero 2-byte consumer-control report: no media key pressed. */
  const MediaRelease: seq<int> := [0, 0]

  /** A report handed to the HID service. */
  datatype HidReport = KeyReport(bytes: seq<int>) | MediaReport(bytes: seq<int>)

  /** `create_keycode` / `create_media_keycode`, given as a table: a name
      the table lacks, or maps to an empty report, gives no key. */
  function Keycode(table: map<string, seq<int>>, name: string): (r: Option<seq<int>>)
    ensures r.Some? <==> name in table && table[name] != []
    ensures r.Some? ==> r.value == table[name]
  {
    if name in table && table[name] != [] then Some(table[name]) else None
  }

  /** The properties of an `org.bluez.Device1` interface; a property BlueZ
      does not report is None. Present properties are D-Bus variants, which
      are truthy whatever their value. */
  datatype DeviceProps = DeviceProps(
    alias: Option<string>,
    address: Option<string>,
    paired: Option<bool>,
    connected: Option<bool>)

  /** One entry of `GetManagedObjects`: the object path and its Device1
      interface, if it has one. */
  datatype ManagedObject = ManagedObject(path: string, device: Option<DeviceProps>)

  /** An entry of the list `devices` returns. */
  datatype ListedDevice = ListedDevice(
    path: string,
    address: string,
    alias: string,
    paired: Option<bool>,
    connected: Option<bool>)

  datatype Service = Battery | DeviceInformation | Hid

  /** Calls made on the bus. */
  datatype BusCall =
    | Pair(path: string)
    | ConnectDevice(path: string)
    | DisconnectDevice(path: string)
    | RegisterService(service: Service, objectPath: string)
    | UnregisterService(service: Service)

  /** `managed_objects[path].get("org.bluez.Device1", {})`. */
  function Props(o: ManagedObject): DeviceProps
  {
    if o.device.Some? then o.device.value else DeviceProps(None, None, None, None)
  }

  /** `address and alias and (paired or connected)`. */
  predicate IsListed(o: ManagedObject)
  {
    var d := Props(o);
    d.address.Some? && d.alias.Some? && (d.paired.Some? || d.connected.Some?)
  }

  /** All of address, paired and connected are present, and the device is
      connected but not paired. */
  predicate NeedsPairing(o: ManagedObject)
  {
    var d := Props(o);
    d.address.Some? && d.paired.Some? && d.connected.Some? && !d.paired.value && d.connected.value
  }

  function Entry(o: ManagedObject): ListedDevice
    requires IsListed(o)
  {
    var d := Props(o);
    ListedDevice(o.path, d.address.value, d.alias.value, d.paired, d.connected)
  }

  /** The devices `devices` lists, in object order. */
  function Listed(objs: seq<ManagedObject>): seq<ListedDevice>
  {
    if objs == [] then []
    else
      var last := objs[|objs| - 1];
      Listed(objs[..|objs| - 1]) + (if IsListed(last) then [Entry(last)] else [])
  }

  /** The pair calls `devices` makes, in object order. */
  function PairCalls(objs: seq<ManagedObject>): seq<BusCall>
  {
    if objs == [] then []
    else
      var last := objs[|objs| - 1];
      PairCalls(objs[..|objs| - 1]) + (if NeedsPairing(last) then [Pair(last.path)] else [])
  }

  /** An object is listed iff it has an address, an alias, and a paired or
      connected property. */
  lemma {:induction false} ListedIff(objs: seq<ManagedObject>, d: ListedDevice)
    ensures d in Listed(objs) <==> exists o :: o in objs && IsListed(o) && d == Entry(o)
  {
    if objs != [] {
      var init := objs[..|objs| - 1];
      ListedIff(init, d);
      assert objs == init + [objs[|objs| - 1]];
    }
  }

  /** A pair call is made exactly for the objects that need pairing. */
  lemma {:induction false} PairCallsIff(objs: seq<ManagedObject>, c: BusCall)
    ensures c in PairCalls(objs) <==> exists o :: o in objs && NeedsPairing(o) && c == Pair(o.path)
  {
    if objs != [] {
      var init := objs[..|objs| - 1];
      PairCallsIff(init, c);
      assert objs == init + [objs[|objs| - 1]];
    }
  }

  /** `is_connected`: some listed device is both paired and connected. */
  predicate AnyConnected(devs: seq<ListedDevice>)
  {
    exists i :: 0 <= i < |devs| && devs[i].paired == Some(true) && devs[i].connected == Some(true)
  }

  /** Whether `disconnect(address)` acts on a listed device. */
  predicate DisconnectTarget(d: ListedDevice, address: Option<string>)
  {
    d.connected == Some(true) && (address.None? || address.value == d.address)
  }

  /** The disconnect calls of `disconnect(address)`: every connected device,
      or only those with the given address; a device without a path is
      skipped. */
  function DisconnectCalls(devs: seq<ListedDevice>, address: Option<string>): seq<BusCall>
  {
    if devs == [] then []
    else
      var last := devs[|devs| - 1];
      DisconnectCalls(devs[..|devs| - 1], address)
        + (if DisconnectTarget(last, address) && last.path != "" then [DisconnectDevice(last.path)] else [])
  }

  /** Every disconnect call is for a listed target, and every listed target
      with a path gets one. */
  lemma {:induction false} DisconnectCallsIff(devs: seq<ListedDevice>, address: Option<string>, p: string)
    ensures DisconnectDevice(p) in DisconnectCalls(devs, address)
        <==> exists d :: d in devs && DisconnectTarget(d, address) && d.path == p && p != ""
    ensures forall c :: c in DisconnectCalls(devs, address) ==> c.DisconnectDevice?
  {
    if devs != [] {
      var init := devs[..|devs| - 1];
      DisconnectCallsIff(init, address, p);
      assert devs == init + [devs[|devs| - 1]];
    }
  }

  /** The connect call of `connect(address)`: only the first listed device
      with the address is considered, and only if it has a path. */
  function ConnectCalls(devs: seq<ListedDevice>, address: string): (r: seq<BusCall>)
    ensures |r| <= 1
  {
    if devs == [] then []
    else if devs[0].address == address then
      (if devs[0].path != "" then [ConnectDevice(devs[0].path)] else [])
    else ConnectCalls(devs[1..], address)
  }

  /** A connect call goes to the first device with the address, and there is
      none when no listed device has the address. */
  lemma {:induction false} ConnectCallsFirst(devs: seq<ListedDevice>, address: string)
    ensures ConnectCalls(devs, address) != [] ==>
              exists i :: 0 <= i < |devs| && devs[i].address == address && devs[i].path != ""
                && ConnectCalls(devs, address) == [ConnectDevice(devs[i].path)]
                && forall j :: 0 <= j < i ==> devs[j].address != address
    ensures (forall i :: 0 <= i < |devs| ==> devs[i].address != address) ==> ConnectCalls(devs, address) == []
  {
    if devs != [] && devs[0].address != address {
      ConnectCallsFirst(devs[1..], address);
      if ConnectCalls(devs, address) != [] {
        var i :| 0 <= i < |devs[1..]| && devs[1..][i].address == address && devs[1..][i].path != ""
                 && ConnectCalls(devs[1..], address) == [ConnectDevice(devs[1..][i].path)]
                 && forall j :: 0 <= j < i ==> devs[1..][j].address != address;
        assert devs[i + 1] == devs[1..][i];
        assert forall j :: 0 <= j < i + 1 ==> devs[j].address != address by {
          forall j | 0 <= j < i + 1 ensures devs[j].address != address {
            if j > 0 {
              assert devs[j] == devs[1..][j - 1];
            }
          }
        }
      }
    }
  }

  /** The first listed device with the address is the one connected exactly
      when it has a path, whatever follows it. */
  lemma {:induction false} ConnectCallsMade(devs: seq<ListedDevice>, address: string, i: nat)
    requires i < |devs| && devs[i].address == address
    requires forall j :: 0 <= j < i ==> devs[j].address != address
    ensures ConnectCalls(devs, address) == (if devs[i].path != "" then [ConnectDevice(devs[i].path)] else [])
  {
    if i > 0 {
      assert devs[0].address != address;
      assert devs[1..][i - 1] == devs[i];
      assert forall j :: 0 <= j < i - 1 ==> devs[1..][j].address != address by {
        forall j | 0 <= j < i - 1 ensures devs[1..][j].address != address {
          assert devs[1..][j] == devs[j + 1];
        }
      }
      ConnectCallsMade(devs[1..], address, i - 1);
    }
  }

  const BatteryPath: string := "/me/wehrfritz/bluez_peripheral/service_battery"
  const InfoPath: string := "/me/wehrfritz/bluez_peripheral/service_info"
  const HidPath: string := "/me/wehrfritz/bluez_peripheral/service_hid"

  /** The unregister calls of `unregister_services`, for the services that
      exist, in the order battery, device information, HID. */
  function UnregisterCalls(services: set<Service>): (r: seq<BusCall>)
    ensures forall c :: c in r ==> c.UnregisterService? && c.service in services
    ensures |r| <= 3
  {
    (if Battery in services then [UnregisterService(Battery)] else [])
      + (if DeviceInformation in services then [UnregisterService(DeviceInformation)] else [])
      + (if Hid in services then [UnregisterService(Hid)] else [])
  }

  /** Every existing service is unregistered. */
  lemma UnregisterCallsComplete(services: set<Service>, s: Service)
    requires s in services
    ensures UnregisterService(s) in UnregisterCalls(services)
  {
    match s
    case Battery =>
      assert UnregisterCalls(services)[0] == UnregisterService(Battery);
    case DeviceInformation =>
    case Hid =>
  }

  class BleKeyboard {
    const keyTable: map<string, seq<int>>
    const mediaTable: map<string, seq<int>>
    var pressedKeys: seq<seq<int>>
    var pressedMediaKeys: seq<seq<int>>
    var reports: seq<HidReport>
    /** The services that are not None. */
    var services: set<Service>
    var bus: seq<BusCall>

    /** At most one key and one media key are down. */
    ghost predicate Valid()
      reads this
    {
      |pressedKeys| <= 1 && |pressedMediaKeys| <= 1
    }

    constructor (keyTable: map<string, seq<int>>, mediaTable: map<string, seq<int>>)
      ensures Valid() && this.keyTable == keyTable && this.mediaTable == mediaTable
      ensures pressedKeys == [] && pressedMediaKeys == [] && reports == [] && services == {} && bus == []
    {
      this.keyTable := keyTable;
      this.mediaTable := mediaTable;
      pressedKeys, pressedMediaKeys, reports, services, bus := [], [], [], {}, [];
    }

    /** `register_services()`: create the three services and register each
        under its object path. */
    method RegisterServices()
      modifies this`services, this`bus
      ensures services == {Battery, DeviceInformation, Hid}
      ensures bus == old(bus) + [RegisterService(Battery, BatteryPath), RegisterService(DeviceInformation, InfoPath),
                                 RegisterService(Hid, HidPath)]
    {
      services := {Battery, DeviceInformation, Hid};
      bus := bus + [RegisterService(Battery, BatteryPath)];
      bus := bus + [RegisterService(DeviceInformation, InfoPath)];
      bus := bus + [RegisterService(Hid, HidPath)];
    }

    /** `unregister_services()`: only the services that exist. */
    method UnregisterServices()
      modifies this`bus
      ensures bus == old(bus) + UnregisterCalls(services)
    {
      if Battery in services {
        bus := bus + [UnregisterService(Battery)];
      }
      if DeviceInformation in services {
        bus := bus + [UnregisterService(DeviceInformation)];
      }
      if Hid in services {
        bus := bus + [UnregisterService(Hid)];
      }
    }

    /** `release_keys()`: the zero report is sent only if a key is down. */
    method ReleaseKeys()
      requires Valid()
      modifies this`pressedKeys, this`reports
      ensures Valid() && pressedKeys == []
      ensures reports == old(reports) + (if old(pressedKeys) != [] then [KeyReport(KeyRelease)] else [])
    {
      if pressedKeys != [] {
        reports := reports + [KeyReport(KeyRelease)];
        pressedKeys := [];
      }
    }

    /** `press_key(name)`: a known key releases the previous one and is then
        the only key down; an unknown name changes nothing. */
    method PressKey(name: string)
      requires Valid()
      modifies this`pressedKeys, this`reports
      ensures Valid()
      ensures Keycode(keyTable, name).None? ==> pressedKeys == old(pressedKeys) && reports == old(reports)
      ensures Keycode(keyTable, name).Some? ==>
                var key := Keycode(keyTable, name).value;
                pressedKeys == [key]
                && reports == old(reports) + (if old(pressedKeys) != [] then [KeyReport(KeyRelease)] else [])
                   + [KeyReport(key)]
    {
      var key := Keycode(keyTable, name);
      if key.Some? {
        ReleaseKeys();
        pressedKeys := pressedKeys + [key.value];
        reports := reports + [KeyReport(key.value)];
      }
    }

    /** `send_key(name)`: press, wait, release; no key is down afterwards. */
    method SendKey(name: string)
      requires Valid()
      modifies this`pressedKeys, this`reports
      ensures Valid() && pressedKeys == []
      ensures Keycode(keyTable, name).Some? ==>
                reports == old(reports) + (if old(pressedKeys) != [] then [KeyReport(KeyRelease)] else [])
                   + [KeyReport(Keycode(keyTable, name).value), KeyReport(KeyRelease)]
      ensures Keycode(keyTable, name).None? ==>
                reports == old(reports) + (if old(pressedKeys) != [] then [KeyReport(KeyRelease)] else [])
    {
      PressKey(name);
      ReleaseKeys();
    }

    /** `release_media_keys()`. */
    method ReleaseMediaKeys()
      requires Valid()
      modifies this`pressedMediaKeys, this`reports
      ensures Valid() && pressedMediaKeys == []
      ensures reports == old(reports) + (if old(pressedMediaKeys) != [] then [MediaReport(MediaRelease)] else [])
    {
      if pressedMediaKeys != [] {
        reports := reports + [MediaReport(MediaRelease)];
        pressedMediaKeys := [];
      }
    }

    /** `press_media_key(name)`. */
    method PressMediaKey(name: string)
      requires Valid()
      modifies this`pressedMediaKeys, this`reports
      ensures Valid()
      ensures Keycode(mediaTable, name).None? ==> pressedMediaKeys == old(pressedMediaKeys) && reports == old(reports)
      ensures Keycode(mediaTable, name).Some? ==>
                var key := Keycode(mediaTable, name).value;
                pressedMediaKeys == [key]
                && reports == old(reports) + (if old(pressedMediaKeys) != [] then [MediaReport(MediaRelease)] else [])
                   + [MediaReport(key)]
    {
      var key := Keycode(mediaTable, name);
      if key.Some? {
        ReleaseMediaKeys();
        pressedMediaKeys := pressedMediaKeys + [key.value];
        reports := reports + [MediaReport(key.value)];
      }
    }

    /** `send_media_key(name)`. */
    method SendMediaKey(name: string)
      requires Valid()
      modifies this`pressedMediaKeys, this`reports
      ensures Valid() && pressedMediaKeys == []
      ensures Keycode(mediaTable, name).Some? ==>
                reports == old(reports) + (if old(pressedMediaKeys) != [] then [MediaReport(MediaRelease)] else [])
                   + [MediaReport(Keycode(mediaTable, name).value), MediaReport(MediaRelease)]
      ensures Keycode(mediaTable, name).None? ==>
                reports == old(reports) + (if old(pressedMediaKeys) != [] then [MediaReport(MediaRelease)] else [])
    {
      PressMediaKey(name);
      ReleaseMediaKeys();
    }

    /** `devices`: list the connected or paired devices, asking each device
        that is connected but not paired to pair. */
    method Devices(objs: seq<ManagedObject>) returns (devs: seq<ListedDevice>)
      modifies this`bus
      ensures devs == Listed(objs)
      ensures bus == old(bus) + PairCalls(objs)
    {
      devs := [];
      for i := 0 to |objs|
        invariant devs == Listed(objs[..i])
        invariant bus == old(bus) + PairCalls(objs[..i])
      {
        assert objs[..i + 1][..i] == objs[..i];
        var d := Props(objs[i]);
        if d.address.Some? && d.paired.Some? && d.connected.Some? {
          if !d.paired.value && d.connected.value {
            bus := bus + [Pair(objs[i].path)];
          }
        }
        if d.address.Some? && d.alias.Some? && (d.paired.Some? || d.connected.Some?) {
          devs := devs + [ListedDevice(objs[i].path, d.address.value, d.alias.value, d.paired, d.connected)];
        }
      }
      assert objs[..|objs|] == objs;
    }

    /** `is_connected`. */
    method IsConnected(objs: seq<ManagedObject>) returns (connected: bool)
      modifies this`bus
      ensures connected == AnyConnected(Listed(objs))
      ensures bus == old(bus) + PairCalls(objs)
    {
      var devs := Devices(objs);
      for i := 0 to |devs|
        invariant forall j :: 0 <= j < i ==> !(devs[j].paired == Some(true) && devs[j].connected == Some(true))
      {
        if devs[i].paired == Some(true) && devs[i].connected == Some(true) {
          return true;
        }
      }
      return false;
    }

    /** `disconnect(address)`, with the object tree BlueZ reports. */
    method Disconnect(address: Option<string>, objs: seq<ManagedObject>)
      modifies this`bus
      ensures bus == old(bus) + PairCalls(objs) + DisconnectCalls(Listed(objs), address)
    {
      var devs := Devices(objs);
      DisconnectEach(devs, address);
    }

    /** The loop of `disconnect` over the listed devices. */
    method DisconnectEach(devs: seq<ListedDevice>, address: Option<string>)
      modifies this`bus
      ensures bus == old(bus) + DisconnectCalls(devs, address)
    {
      for i := 0 to |devs|
        invariant bus == old(bus) + DisconnectCalls(devs[..i], address)
      {
        assert devs[..i + 1][..i] == devs[..i];
        if devs[i].connected == Some(true) && (address.None? || address.value == devs[i].address) {
          var path := devs[i].path;
          if path != "" {
            bus := bus + [DisconnectDevice(path)];
          }
        }
      }
      assert devs[..|devs|] == devs;
    }

    /** `connect(address)`: disconnect everything (as seen in `before`), then
        connect the first device listed in `after` with the address. */
    method Connect(address: string, before: seq<ManagedObject>, after: seq<ManagedObject>)
      modifies this`bus
      ensures bus == old(bus) + PairCalls(before) + DisconnectCalls(Listed(before), None)
                     + PairCalls(after) + ConnectCalls(Listed(after), address)
    {
      Disconnect(None, before);
      var devs := Devices(after);
      for i := 0 to |devs|
        invariant ConnectCalls(devs[i..], address) == ConnectCalls(devs, address)
      {
        assert devs[i..][1..] == devs[i + 1..];
        if devs[i].address == address {
          var path := devs[i].path;
          if path == "" {
            return;
          }
          bus := bus + [ConnectDevice(path)];
          return;
        }
      }
    }
  }
}
