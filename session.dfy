/** The `LotusLamp` object of lotus_lamp/controller.py: which configured
    device to use, the connection state (`device`, `client`, `_connected`,
    `config.address`), and the packets written to the lamp. The BLE
    transport is abstract: scan results and connection outcomes are
    parameters, and each write to the write characteristic is recorded in
    a ghost log. */
module Session {
  import opened Wrappers
  import Text
  import opened Protocol
  import opened Config
  import opened Ble

  /** The `device_config` / `device_name` / store rule of `__init__` fails with: */
  datatype InitError =
    | DeviceNotFound(name: string, available: seq<string>, inFile: bool)
    | NoDevicesInFile          // "No devices found in config file"
    | NoDevicesConfigured      // "No Lotus Lamp devices configured" and the three options

  /** `__init__`'s choice of device: an explicit config wins; otherwise a
      non-empty `device_name` is looked up in the store (a miss lists the
      stored names); otherwise the store's first device. `fromFile` says
      whether the store came from an explicit `config_path`, which only
      changes the error raised for an empty store. */
  function ResolveConfig(explicit: Option<DeviceConfig>, fromFile: bool, store: Store, deviceName: string)
    : (r: Result<DeviceConfig, InitError>)
    requires ValidStore(store)
    ensures explicit.Some? ==> r == Ok(explicit.value)
    ensures explicit.None? && deviceName != "" ==>
      (r.Ok? <==> deviceName in store.order) &&
      (r.Ok? ==> r.value.name == deviceName && Get(store, deviceName) == Some(r.value)) &&
      (r.Err? ==> r.error == DeviceNotFound(deviceName, store.order, fromFile))
    ensures explicit.None? && deviceName == "" ==>
      (r.Ok? <==> store.order != []) &&
      (r.Ok? ==> Some(r.value) == Default(store)) &&
      (r.Err? ==> r.error == if fromFile then NoDevicesInFile else NoDevicesConfigured)
  {
    if explicit.Some? then Ok(explicit.value)
    else if deviceName != "" then
      match Get(store, deviceName)
      case Some(d) => Ok(d)
      case None => Err(DeviceNotFound(deviceName, store.order, fromFile))
    else
      match Default(store)
      case Some(d) => Ok(d)
      case None => Err(if fromFile then NoDevicesInFile else NoDevicesConfigured)
  }

  /** With two stored devices, a name selects its own record, an unknown
      name is refused with both names listed, and no name gives the first. */
  lemma ResolveExamples(a: DeviceConfig, b: DeviceConfig)
    requires a.name != b.name && a.name != "" && b.name != ""
    ensures var s := Store([a.name, b.name], map[a.name := a, b.name := b]);
      ResolveConfig(None, true, s, b.name) == Ok(b) &&
      ResolveConfig(None, true, s, "") == Ok(a) &&
      ResolveConfig(Some(b), true, s, "") == Ok(b) &&
      (forall n :: n != a.name && n != b.name && n != "" ==>
        ResolveConfig(None, true, s, n) == Err(DeviceNotFound(n, [a.name, b.name], true)))
  {
    var s := Store([a.name, b.name], map[a.name := a, b.name := b]);
    assert ValidStore(s);
  }

  /** An empty store with no explicit config is refused. */
  lemma ResolveNothingConfigured(name: string)
    ensures ResolveConfig(None, false, EmptyStore, "") == Err(NoDevicesConfigured)
    ensures name != "" ==> ResolveConfig(None, false, EmptyStore, name) == Err(DeviceNotFound(name, [], false))
  {
  }

  // ---------------------------------------------------------------------
  // Connection state and writes.

  /** `str(device.name)`. */
  function NameText(name: Option<string>): string {
    if name.Some? then name.value else "None"
  }

  /** A configured address counts only when it is a non-empty string. */
  predicate HasAddress(config: DeviceConfig) {
    config.address.Some? && config.address.value != ""
  }

  /** What `scan` looks for: the configured address, ignoring case, or else
      a peer whose name contains the configured name. */
  predicate ScanMatches(config: DeviceConfig, d: BleDevice) {
    if HasAddress(config) then Text.Upper(d.address) == Text.Upper(config.address.value)
    else Text.Contains(NameText(d.name), config.name)
  }

  /** The index of the first peer `scan` accepts, or `|ds|` if none. */
  function FirstMatch(config: DeviceConfig, ds: seq<BleDevice>): (k: nat)
    ensures k <= |ds|
    ensures k < |ds| ==> ScanMatches(config, ds[k])
    ensures forall j :: 0 <= j < k ==> !ScanMatches(config, ds[j])
    decreases |ds|
  {
    if ds == [] then 0
    else if ScanMatches(config, ds[0]) then 0
    else 1 + FirstMatch(config, ds[1..])
  }

  /** The config after a successful `scan`: a peer found by name lends its
      address to the config; one found by address changes nothing. */
  function ScannedConfig(config: DeviceConfig, d: BleDevice): DeviceConfig {
    if HasAddress(config) then config else config.(address := Some(d.address))
  }

  /** One `write_gatt_char` call, and the pause `_send_command` takes after it. */
  datatype Write = Write(channel: string, packet: Packet, delayMs: nat)

  const CommandDelayMs: nat := 100
  const PowerDelayMs: nat := 500

  datatype CommandError =
    | NotConnected                 // `ConnectionError("Not connected to lamp")`
    | BadColor(e: ColorError)      // `ValueError(f"Unknown color: {color}")`

  datatype ConnectResult = Connected | NotFound | TransportFault

  /** The writes of `times` rounds of `pulse`: the colour, then black. */
  function PulseWrites(channel: string, r: int, g: int, b: int, times: nat): seq<Write> {
    if times == 0 then []
    else
      PulseWrites(channel, r, g, b, times - 1) +
      [Write(channel, RgbPacket(r, g, b), CommandDelayMs), Write(channel, RgbPacket(0, 0, 0), CommandDelayMs)]
  }

  /** The pulse writes alternate: the colour at every even position, black
      at every odd one, two per round. */
  lemma {:induction false} PulseWritesAlternate(channel: string, r: int, g: int, b: int, times: nat)
    ensures |PulseWrites(channel, r, g, b, times)| == 2 * times
    ensures forall i :: 0 <= i < times ==>
      PulseWrites(channel, r, g, b, times)[2 * i] == Write(channel, RgbPacket(r, g, b), CommandDelayMs) &&
      PulseWrites(channel, r, g, b, times)[2 * i + 1] == Write(channel, RgbPacket(0, 0, 0), CommandDelayMs)
  {
    if times > 0 {
      PulseWritesAlternate(channel, r, g, b, times - 1);
      var front := PulseWrites(channel, r, g, b, times - 1);
      var ws := PulseWrites(channel, r, g, b, times);
      assert forall j :: 0 <= j < |front| ==> ws[j] == front[j];
    }
  }

  /** The loop of `scan` over the peers when an address is configured. */
  method FindByAddress(config: DeviceConfig, discovered: seq<BleDevice>) returns (k: nat)
    requires HasAddress(config)
    ensures k == FirstMatch(config, discovered)
  {
    var i := 0;
    while i < |discovered|
      invariant 0 <= i <= |discovered|
      invariant forall j :: 0 <= j < i ==> !ScanMatches(config, discovered[j])
    {
      if Text.Upper(discovered[i].address) == Text.Upper(config.address.value) {
        return i;
      }
      i := i + 1;
    }
    k := i;
  }

  /** The loop of `scan` over the peers when only a name is configured. */
  method FindByName(config: DeviceConfig, discovered: seq<BleDevice>) returns (k: nat)
    requires !HasAddress(config)
    ensures k == FirstMatch(config, discovered)
  {
    var i := 0;
    while i < |discovered|
      invariant 0 <= i <= |discovered|
      invariant forall j :: 0 <= j < i ==> !ScanMatches(config, discovered[j])
    {
      if Text.Contains(NameText(discovered[i].name), config.name) {
        return i;
      }
      i := i + 1;
    }
    k := i;
  }

  class LotusLamp {
    var config: DeviceConfig
    var device: Option<BleDevice>
    /** The address the current `BleakClient` was created for, if any. */
    var client: Option<string>
    var connected: bool
    /** Every packet written to the lamp so far, oldest first. */
    ghost var written: seq<Write>

    /** A connected session always has a client. */
    ghost predicate Valid()
      reads this
    {
      connected ==> client.Some?
    }

    /** The state `__init__` leaves once it has chosen `config`. */
    constructor (config: DeviceConfig)
      ensures Valid()
      ensures this.config == config && device == None && client == None && !connected
      ensures written == []
    {
      this.config := config;
      device := None;
      client := None;
      connected := false;
      written := [];
    }

    /** `_send_command`: refuse when not connected, otherwise write the
        packet to the configured write characteristic. */
    method SendCommand(packet: Packet, delayMs: nat) returns (r: Outcome<CommandError>)
      modifies this`written
      ensures connected ==> r == Pass && written == old(written) + [Write(config.writeCharUuid, packet, delayMs)]
      ensures !connected ==> r == Fail(NotConnected) && written == old(written)
    {
      if !connected {
        return Fail(NotConnected);
      }
      written := written + [Write(config.writeCharUuid, packet, delayMs)];
      r := Pass;
    }

    method SetRgb(r: int, g: int, b: int) returns (res: Outcome<CommandError>)
      modifies this`written
      ensures connected ==> res == Pass && written == old(written) + [Write(config.writeCharUuid, RgbPacket(r, g, b), CommandDelayMs)]
      ensures !connected ==> res == Fail(NotConnected) && written == old(written)
    {
      res := SendCommand(RgbPacket(r, g, b), CommandDelayMs);
    }

    /** `set_color`: an unknown name is refused before the connection is
        looked at; a known one is sent as `set_rgb` sends its triple. */
    method SetColor(color: string) returns (res: Outcome<CommandError>)
      modifies this`written
      ensures ColorPacket(color).Err? ==> res == Fail(BadColor(ColorPacket(color).error)) && written == old(written)
      ensures ColorPacket(color).Ok? && connected ==>
        res == Pass && written == old(written) + [Write(config.writeCharUuid, ColorPacket(color).value, CommandDelayMs)]
      ensures ColorPacket(color).Ok? && !connected ==> res == Fail(NotConnected) && written == old(written)
    {
      var packet := ColorPacket(color);
      if packet.Err? {
        return Fail(BadColor(packet.error));
      }
      res := SendCommand(packet.value, CommandDelayMs);
    }

    method SetBrightness(level: int) returns (res: Outcome<CommandError>)
      modifies this`written
      ensures connected ==> res == Pass && written == old(written) + [Write(config.writeCharUuid, BrightnessPacket(level), CommandDelayMs)]
      ensures !connected ==> res == Fail(NotConnected) && written == old(written)
    {
      res := SendCommand(BrightnessPacket(level), CommandDelayMs);
    }

    method SetSpeed(level: int) returns (res: Outcome<CommandError>)
      modifies this`written
      ensures connected ==> res == Pass && written == old(written) + [Write(config.writeCharUuid, SpeedPacket(level), CommandDelayMs)]
      ensures !connected ==> res == Fail(NotConnected) && written == old(written)
    {
      res := SendCommand(SpeedPacket(level), CommandDelayMs);
    }

    method SetAnimation(mode: int) returns (res: Outcome<CommandError>)
      modifies this`written
      ensures connected ==> res == Pass && written == old(written) + [Write(config.writeCharUuid, AnimationPacket(mode), CommandDelayMs)]
      ensures !connected ==> res == Fail(NotConnected) && written == old(written)
    {
      res := SendCommand(AnimationPacket(mode), CommandDelayMs);
    }

    /** `power_on`, followed by the longer half-second pause. */
    method PowerOn() returns (res: Outcome<CommandError>)
      modifies this`written
      ensures connected ==> res == Pass && written == old(written) + [Write(config.writeCharUuid, PowerPacket(true), PowerDelayMs)]
      ensures !connected ==> res == Fail(NotConnected) && written == old(written)
    {
      res := SendCommand(PowerPacket(true), PowerDelayMs);
    }

    /** `power_off`, followed by the longer half-second pause. */
    method PowerOff() returns (res: Outcome<CommandError>)
      modifies this`written
      ensures connected ==> res == Pass && written == old(written) + [Write(config.writeCharUuid, PowerPacket(false), PowerDelayMs)]
      ensures !connected ==> res == Fail(NotConnected) && written == old(written)
    {
      res := SendCommand(PowerPacket(false), PowerDelayMs);
    }

    /** `pulse`: `times` rounds of the colour then black. Without a
        connection the first write fails and nothing is sent; with
        `times <= 0` nothing is attempted, so nothing fails. */
    method Pulse(r: int, g: int, b: int, times: int) returns (res: Outcome<CommandError>)
      modifies this`written
      ensures connected ==>
        res == Pass && written == old(written) + PulseWrites(config.writeCharUuid, r, g, b, if times < 0 then 0 else times)
      ensures !connected ==> written == old(written) && (res == Pass <==> times <= 0)
      ensures !connected && times > 0 ==> res == Fail(NotConnected)
    {
      res := Pass;
      ghost var rounds := if times < 0 then 0 else times;
      var i := 0;
      while i < times
        invariant 0 <= i <= rounds
        invariant res == Pass
        invariant connected ==> written == old(written) + PulseWrites(config.writeCharUuid, r, g, b, i)
        invariant !connected ==> written == old(written) && i == 0
      {
        res := SetRgb(r, g, b);
        if res.Fail? {
          return;
        }
        res := SetRgb(0, 0, 0);
        if res.Fail? {
          return;
        }
        i := i + 1;
      }
    }

    /** `scan` over the peers the BLE scanner reported: take the first that
        matches the configured address, or else the configured name; a
        match by name also stores the peer's address in the config. */
    method Scan(discovered: seq<BleDevice>) returns (found: bool)
      modifies this`device, this`config
      ensures var k := FirstMatch(old(config), discovered);
        found == (k < |discovered|) &&
        (found ==> device == Some(discovered[k]) && config == ScannedConfig(old(config), discovered[k])) &&
        (!found ==> device == old(device) && config == old(config))
    {
      var k;
      if HasAddress(config) {
        k := FindByAddress(config, discovered);
      } else {
        k := FindByName(config, discovered);
      }
      if k == |discovered| {
        return false;
      }
      device := Some(discovered[k]);
      if !HasAddress(config) {
        config := config.(address := Some(discovered[k].address));
      }
      found := true;
    }

    /** `connect`. With a stored address and no peer yet, try the address
        directly (`directOk` is that attempt's outcome); if it fails, clear
        the address and fall back to scanning by name. Then connect to the
        peer found (`linkOk` is that attempt's outcome; a failure there is
        the transport error `connect` lets escape). */
    method Connect(directOk: bool, discovered: seq<BleDevice>, linkOk: bool) returns (r: ConnectResult)
      requires Valid()
      modifies this`config, this`device, this`client, this`connected
      ensures Valid()
      ensures var direct := HasAddress(old(config)) && old(device).None?;
        var cfg := if direct then old(config).(address := None) else old(config);
        var k := FirstMatch(cfg, discovered);
        (direct && directOk ==>
          r == Connected && connected && client == old(config).address &&
          config == old(config) && device == old(device)) &&
        (!(direct && directOk) && old(device).Some? ==>
          config == cfg && device == old(device) && client == Some(old(device).value.address) &&
          (r == Connected <==> linkOk) && (r != Connected ==> r == TransportFault) &&
          connected == (linkOk || old(connected))) &&
        (!(direct && directOk) && old(device).None? && k == |discovered| ==>
          r == NotFound && config == cfg && device == None && connected == old(connected) &&
          client == (if direct then old(config).address else old(client))) &&
        (!(direct && directOk) && old(device).None? && k < |discovered| ==>
          config == ScannedConfig(cfg, discovered[k]) && device == Some(discovered[k]) &&
          client == Some(discovered[k].address) &&
          (r == Connected <==> linkOk) && (r != Connected ==> r == TransportFault) &&
          connected == (linkOk || old(connected)))
    {
      if HasAddress(config) && device.None? {
        client := config.address;
        if directOk {
          connected := true;
          return Connected;
        }
        config := config.(address := None);
      }
      if device.None? {
        var found := Scan(discovered);
        if !found {
          return NotFound;
        }
      }
      client := Some(device.value.address);
      if !linkOk {
        return TransportFault;
      }
      connected := true;
      r := Connected;
    }

    /** `disconnect`: only a connected session with a client changes, and
        only its flag; so a second call changes nothing. */
    method Disconnect()
      requires Valid()
      modifies this`connected
      ensures Valid() && !connected
    {
      if client.Some? && connected {
        connected := false;
      }
    }
  }

  /** Before `connect`, every command is refused and nothing is written;
      `disconnect` is harmless in any state. */
  method UnconnectedSession(config: DeviceConfig) returns (lamp: LotusLamp)
    ensures fresh(lamp) && lamp.written == [] && !lamp.connected
  {
    lamp := new LotusLamp(config);
    var res := lamp.SetRgb(255, 0, 0);
    assert res == Fail(NotConnected);
    res := lamp.PowerOn();
    assert res == Fail(NotConnected);
    lamp.Disconnect();
    lamp.Disconnect();
  }
}
