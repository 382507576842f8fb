/** lotus_lamp/scanner.py: the record kept for each advertising peer
    (`DeviceInfo`), the filter that picks likely lamps out of a scan
    (`scan_lotus_lamps`) and the configuration dictionary offered for a
    chosen peer (`generate_config`). The radio scan itself is left out:
    what it reports is an input. */
module Scanner {
  import opened Wrappers
  import opened Text
  import opened JsonValue
  import Config
  import opened Ble

  /** `COMMON_SERVICE_UUIDS`. */
  const CommonServiceUuids: seq<string> := ["0000FFF0-0000-1000-8000-00805F9B34FB"]

  /** `COMMON_NAME_PATTERNS`. */
  const CommonNamePatterns: seq<string> := ["MELK", "Lotus", "LED", "RGB", "LAMP", "Light"]

  /** The `DeviceInfo` record: it is built once and never changed. */
  datatype DeviceInfo = DeviceInfo(name: string, address: string, rssi: int, services: seq<string>)

  /** A list of strings as JSON: each string in its place. */
  function StringItems(ss: seq<string>): (items: seq<Json>)
    ensures |items| == |ss|
    ensures forall i :: 0 <= i < |ss| ==> items[i] == JStr(ss[i])
  {
    if ss == [] then [] else StringItems(ss[..|ss| - 1]) + [JStr(ss[|ss| - 1])]
  }

  /** `to_dict`: exactly the four fields. */
  function ToDict(d: DeviceInfo): (j: Json)
    ensures j.JObj? && j.fields.Keys == {"name", "address", "rssi", "services"}
    ensures j.fields["name"] == JStr(d.name) && j.fields["address"] == JStr(d.address)
    ensures j.fields["rssi"] == JNum(d.rssi)
    ensures j.fields["services"].JArr? && |j.fields["services"].items| == |d.services|
    ensures forall i :: 0 <= i < |d.services| ==> j.fields["services"].items[i] == JStr(d.services[i])
  {
    JObj(map[
      "name" := JStr(d.name),
      "address" := JStr(d.address),
      "rssi" := JNum(d.rssi),
      "services" := JArr(StringItems(d.services))])
  }

  /** The strings of a JSON array of strings, in order. */
  function Strings(items: seq<Json>): (r: Option<seq<string>>)
    ensures r.Some? ==> |r.value| == |items|
  {
    if items == [] then Some([])
    else
      match Strings(items[..|items| - 1])
      case Some(front) =>
        if items[|items| - 1].JStr? then Some(front + [items[|items| - 1].s]) else None
      case None => None
  }

  /** Reading a `to_dict` dictionary back. */
  function FromDict(j: Json): Option<DeviceInfo> {
    if j.JObj? && "name" in j.fields && "address" in j.fields && "rssi" in j.fields && "services" in j.fields
      && j.fields["name"].JStr? && j.fields["address"].JStr? && j.fields["rssi"].JNum?
      && j.fields["services"].JArr?
    then
      match Strings(j.fields["services"].items)
      case Some(services) =>
        Some(DeviceInfo(j.fields["name"].s, j.fields["address"].s, j.fields["rssi"].n, services))
      case None => None
    else None
  }

  lemma {:induction false} StringsOfItems(ss: seq<string>)
    ensures Strings(StringItems(ss)) == Some(ss)
  {
    if ss != [] {
      var front := ss[..|ss| - 1];
      StringsOfItems(front);
      var items := StringItems(ss);
      assert items[..|items| - 1] == StringItems(front);
      assert front + [ss[|ss| - 1]] == ss;
    }
  }

  /** `to_dict` loses nothing: the record reads back whole. */
  lemma ToDictFromDict(d: DeviceInfo)
    ensures FromDict(ToDict(d)) == Some(d)
  {
    StringsOfItems(d.services);
  }

  // ---------------------------------------------------------------------
  // `scan_all`: one record per reported peer.

  /** The advertisement data of a peer, when the scan returned some. */
  datatype Advertisement = Advertisement(serviceUuids: seq<string>, rssi: int)

  datatype Peer = Peer(device: BleDevice, adv: Option<Advertisement>)

  /** `device.name or "Unknown"`. */
  function DisplayName(name: Option<string>): (r: string)
    ensures r == "Unknown" <==> name.None? || name.value == "" || name.value == "Unknown"
    ensures r != "Unknown" ==> name == Some(r)
  {
    if name.Some? && name.value != "" then name.value else "Unknown"
  }

  /** The record `scan_all` builds for one peer: an absent or empty name
      becomes "Unknown", and without advertisement data the service list
      is empty and the signal strength 0. */
  function PeerRecord(p: Peer): (d: DeviceInfo)
    ensures d.address == p.device.address
    ensures d.name == DisplayName(p.device.name)
    ensures p.adv.None? ==> d.rssi == 0 && d.services == []
    ensures p.adv.Some? ==> d.rssi == p.adv.value.rssi && d.services == p.adv.value.serviceUuids
  {
    var services := if p.adv.Some? && p.adv.value.serviceUuids != [] then p.adv.value.serviceUuids else [];
    var rssi := if p.adv.Some? then p.adv.value.rssi else 0;
    DeviceInfo(DisplayName(p.device.name), p.device.address, rssi, services)
  }

  /** The loop of `scan_all` over the peers the scan reported, in the
      order reported. */
  method ScanAll(peers: seq<Peer>) returns (devices: seq<DeviceInfo>)
    ensures |devices| == |peers|
    ensures forall i :: 0 <= i < |peers| ==> devices[i] == PeerRecord(peers[i])
  {
    devices := [];
    var i := 0;
    while i < |peers|
      invariant 0 <= i <= |peers| && |devices| == i
      invariant forall k :: 0 <= k < i ==> devices[k] == PeerRecord(peers[k])
    {
      var p := peers[i];
      var services: seq<string> := [];
      if p.adv.Some? && p.adv.value.serviceUuids != [] {
        services := p.adv.value.serviceUuids;
      }
      var rssi := if p.adv.Some? then p.adv.value.rssi else 0;
      devices := devices + [DeviceInfo(DisplayName(p.device.name), p.device.address, rssi, services)];
      i := i + 1;
    }
  }

  // ---------------------------------------------------------------------
  // `scan_lotus_lamps`: keeping the likely lamps.

  /** Some pattern, lower-cased, occurs in the lower-cased name. */
  predicate NameMatch(name: string) {
    exists p :: p in CommonNamePatterns && Contains(Lower(name), Lower(p))
  }

  /** Some common service id is in the list, exactly as written. */
  predicate ServiceMatch(services: seq<string>) {
    exists u :: u in CommonServiceUuids && u in services
  }

  predicate IsLikelyLamp(d: DeviceInfo) {
    NameMatch(d.name) || ServiceMatch(d.services)
  }

  /** The likely lamps among `ds`, in their order. */
  function LikelyLamps(ds: seq<DeviceInfo>): (r: seq<DeviceInfo>)
    ensures |r| <= |ds|
  {
    if ds == [] then []
    else LikelyLamps(ds[..|ds| - 1]) + (if IsLikelyLamp(ds[|ds| - 1]) then [ds[|ds| - 1]] else [])
  }

  lemma LikelyLampsSnoc(ds: seq<DeviceInfo>, i: nat)
    requires i < |ds|
    ensures IsLikelyLamp(ds[i]) ==> LikelyLamps(ds[..i + 1]) == LikelyLamps(ds[..i]) + [ds[i]]
    ensures !IsLikelyLamp(ds[i]) ==> LikelyLamps(ds[..i + 1]) == LikelyLamps(ds[..i])
  {
    assert ds[..i + 1][..i] == ds[..i];
    assert LikelyLamps(ds[..i]) + [] == LikelyLamps(ds[..i]);
  }

  /** The filtering loop of `scan_lotus_lamps`. */
  method FilterLikelyLamps(devices: seq<DeviceInfo>) returns (lamps: seq<DeviceInfo>)
    ensures lamps == LikelyLamps(devices)
  {
    lamps := [];
    var i := 0;
    while i < |devices|
      invariant 0 <= i <= |devices|
      invariant lamps == LikelyLamps(devices[..i])
    {
      LikelyLampsSnoc(devices, i);
      var device := devices[i];
      var nameMatch := NameMatch(device.name);
      var serviceMatch := ServiceMatch(device.services);
      if nameMatch || serviceMatch {
        lamps := lamps + [device];
      }
      i := i + 1;
    }
    assert devices[..i] == devices;
  }

  /** A peer is kept if and only if it is a likely lamp. */
  lemma {:induction false} LikelyLampsMembers(ds: seq<DeviceInfo>, d: DeviceInfo)
    ensures d in LikelyLamps(ds) <==> d in ds && IsLikelyLamp(d)
  {
    if ds != [] {
      var front := ds[..|ds| - 1];
      LikelyLampsMembers(front, d);
      assert ds == front + [ds[|ds| - 1]];
    }
  }

  /** The positions in `ds` of the peers kept. */
  function KeptIndices(ds: seq<DeviceInfo>): (idx: seq<nat>)
    ensures |idx| == |LikelyLamps(ds)|
  {
    if ds == [] then []
    else KeptIndices(ds[..|ds| - 1]) + (if IsLikelyLamp(ds[|ds| - 1]) then [|ds| - 1] else [])
  }

  /** The output is a subsequence of the input: the kept peers sit at
      strictly increasing positions, so order is kept and nothing is
      repeated. */
  lemma {:induction false} LikelyLampsSubsequence(ds: seq<DeviceInfo>)
    ensures var idx := KeptIndices(ds);
      (forall k :: 0 <= k < |idx| ==> idx[k] < |ds| && LikelyLamps(ds)[k] == ds[idx[k]]) &&
      (forall k, m :: 0 <= k < m < |idx| ==> idx[k] < idx[m])
  {
    if ds != [] {
      var front := ds[..|ds| - 1];
      LikelyLampsSubsequence(front);
      var idx := KeptIndices(ds);
      var r := LikelyLamps(ds);
      assert idx[..|KeptIndices(front)|] == KeptIndices(front);
      assert r[..|LikelyLamps(front)|] == LikelyLamps(front);
      assert forall k :: 0 <= k < |KeptIndices(front)| ==> idx[k] < |front|;
    }
  }

  /** Only the letters' case of the name is ignored. */
  lemma NameMatchIgnoresCase(name: string)
    ensures NameMatch(Upper(name)) == NameMatch(name) && NameMatch(Lower(name)) == NameMatch(name)
  {
    LowerOfUpper(name);
    LowerIdempotent(name);
  }

  /** A non-empty text whose first letter `hay` lacks is not in `hay`. */
  lemma {:induction false} MissingFirstLetter(hay: string, needle: string)
    requires |needle| > 0 && forall i :: 0 <= i < |hay| ==> hay[i] != needle[0]
    ensures !Contains(hay, needle)
    decreases |hay|
  {
    if |hay| > 0 {
      if |needle| <= |hay| {
        assert hay[..|needle|][0] == hay[0];
      }
      MissingFirstLetter(hay[1..], needle);
    }
  }

  /** Every pattern starts with M, L or R: a name without those letters,
      in either case, matches none. */
  lemma NoPatternInitial(name: string)
    requires forall i :: 0 <= i < |name| ==> LowerChar(name[i]) !in {'m', 'l', 'r'}
    ensures !NameMatch(name)
  {
    var n := Lower(name);
    forall i | 0 <= i < |n|
      ensures n[i] !in {'m', 'l', 'r'}
    {
      CaseAt(name, i);
    }
    forall p | p in CommonNamePatterns
      ensures !Contains(n, Lower(p))
    {
      CaseAt(p, 0);
      MissingFirstLetter(n, Lower(p));
    }
  }

  /** The default name "Unknown" matches no pattern. */
  lemma UnknownMatchesNoPattern()
    ensures !NameMatch("Unknown")
  {
    NoPatternInitial("Unknown");
  }

  /** The service test is exact: the lamp service written in lower case
      does not count. */
  lemma ServiceMatchIsCaseSensitive()
    ensures !ServiceMatch(["0000fff0-0000-1000-8000-00805f9b34fb"])
  {
    var u := CommonServiceUuids[0];
    var l := "0000fff0-0000-1000-8000-00805f9b34fb";
    assert u[4] != l[4];
  }

  /** The name test ignores case: "lotus" matches the pattern "Lotus". */
  lemma NameMatchIsCaseInsensitive()
    ensures NameMatch("lotus")
  {
    assert Lower("lotus") == "lotus" && Lower("Lotus") == "lotus";
    assert StartsWith("lotus", "lotus");
  }

  /** A peer named "Unknown" that advertises the lamp service in lower
      case is not kept. */
  lemma LowerCaseServiceNotKept(address: string, rssi: int)
    ensures !IsLikelyLamp(DeviceInfo("Unknown", address, rssi, ["0000fff0-0000-1000-8000-00805f9b34fb"]))
  {
    UnknownMatchesNoPattern();
    ServiceMatchIsCaseSensitive();
  }

  // ---------------------------------------------------------------------
  // `generate_config`.

  /** Python truthiness of an optional string argument. */
  predicate Truthy(s: Option<string>) {
    s.Some? && s.value != ""
  }

  function OrDefault(s: Option<string>, default: string): (r: string)
    ensures Truthy(s) ==> r == s.value
    ensures !Truthy(s) ==> r == default
  {
    if Truthy(s) then s.value else default
  }

  /** The configuration dictionary for a peer: its name and address, and
      each id given, or the standard one when the argument is falsy. */
  function GenerateConfig(device: DeviceInfo, serviceUuid: Option<string>, writeCharUuid: Option<string>,
                          notifyCharUuid: Option<string>): (j: Json)
    ensures j.JObj? && j.fields.Keys == {"name", "address", "service_uuid", "write_char_uuid", "notify_char_uuid"}
    ensures j.fields["name"] == JStr(device.name) && j.fields["address"] == JStr(device.address)
    ensures j.fields["service_uuid"] == JStr(if Truthy(serviceUuid) then serviceUuid.value else Config.DefaultServiceUuid)
    ensures j.fields["write_char_uuid"] == JStr(if Truthy(writeCharUuid) then writeCharUuid.value else Config.DefaultWriteCharUuid)
    ensures j.fields["notify_char_uuid"] == JStr(if Truthy(notifyCharUuid) then notifyCharUuid.value else Config.DefaultNotifyCharUuid)
  {
    JObj(map[
      "name" := JStr(device.name),
      "address" := JStr(device.address),
      "service_uuid" := JStr(OrDefault(serviceUuid, Config.DefaultServiceUuid)),
      "write_char_uuid" := JStr(OrDefault(writeCharUuid, Config.DefaultWriteCharUuid)),
      "notify_char_uuid" := JStr(OrDefault(notifyCharUuid, Config.DefaultNotifyCharUuid))])
  }

  /** The generated dictionary is a valid device record: the configuration
      loader reads it as that peer with those ids. */
  lemma GeneratedConfigLoads(device: DeviceInfo, s: Option<string>, w: Option<string>, n: Option<string>)
    ensures Config.FromDict(GenerateConfig(device, s, w, n)) ==
      Ok(Config.DeviceConfig(device.name, Some(device.address),
        OrDefault(s, Config.DefaultServiceUuid), OrDefault(w, Config.DefaultWriteCharUuid),
        OrDefault(n, Config.DefaultNotifyCharUuid)))
  {
    var m := GenerateConfig(device, s, w, n).fields;
    assert m.Keys <= Config.FieldNames;
    assert "name" in m;
  }

  /** Without arguments the generated record is the standard lamp. */
  lemma GeneratedDefaults(device: DeviceInfo)
    ensures Config.FromDict(GenerateConfig(device, None, None, None)) ==
      Ok(Config.NewDeviceConfig(device.name).(address := Some(device.address)))
  {
    GeneratedConfigLoads(device, None, None, None);
  }
}
