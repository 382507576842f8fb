/** lotus_lamp/advanced_scanner.py: the record of one GATT service built
    while reading a device's structure (`ServiceInfo`), and the two-tier
    guess at the lamp's service, write and notify ids from that structure
    (`identify_lotus_lamp_uuids`). Connecting to the device is left out:
    the services it reports are an input. */
module AdvancedScanner {
  import opened Wrappers
  import opened Text

  /** One entry of a service's `characteristics` list. */
  datatype Characteristic = Characteristic(uuid: string, properties: seq<string>)

  /** The dictionary `ServiceInfo.to_dict` returns. */
  datatype ServiceRecord = ServiceRecord(uuid: string, description: string, characteristics: seq<Characteristic>)

  /** The `device_info` dictionary: the address and one record per service. */
  datatype DeviceStructure = DeviceStructure(address: string, services: seq<ServiceRecord>)

  class ServiceInfo {
    var uuid: string
    var description: string
    var characteristics: seq<Characteristic>

    constructor (uuid: string, description: string)
      ensures this.uuid == uuid && this.description == description && characteristics == []
    {
      this.uuid := uuid;
      this.description := description;
      characteristics := [];
    }

    /** Appends one characteristic; the earlier ones keep their places. */
    method AddCharacteristic(uuid: string, properties: seq<string>)
      modifies this`characteristics
      ensures characteristics == old(characteristics) + [Characteristic(uuid, properties)]
    {
      characteristics := characteristics + [Characteristic(uuid, properties)];
    }

    /** The uuid, the description and exactly the characteristics added. */
    function ToDict(): (r: ServiceRecord)
      reads this
      ensures r.uuid == uuid && r.description == description && r.characteristics == characteristics
    {
      ServiceRecord(uuid, description, characteristics)
    }
  }

  // ---------------------------------------------------------------------
  // Reading a device's structure, given what the GATT client reports.

  /** A characteristic as the BLE library reports it, with its lower-case
      property flags (`read`, `write`, `write-without-response`, ...). */
  datatype GattCharacteristic = GattCharacteristic(uuid: string, flags: seq<string>)
  datatype GattService = GattService(uuid: string, characteristics: seq<GattCharacteristic>)

  /** `KNOWN_SERVICES`: upper-case service ids and their descriptions. */
  const KnownServices: seq<(string, string)> := [
    ("0000FFF0-0000-1000-8000-00805F9B34FB", "Lotus Lamp Service (Common)"),
    ("00001800-0000-1000-8000-00805F9B34FB", "Generic Access"),
    ("00001801-0000-1000-8000-00805F9B34FB", "Generic Attribute"),
    ("0000180A-0000-1000-8000-00805F9B34FB", "Device Information"),
    ("0000180F-0000-1000-8000-00805F9B34FB", "Battery Service")
  ]

  /** `dict.get(key, default)` over a table of pairs with distinct keys. */
  function Lookup(table: seq<(string, string)>, key: string, default: string): (v: string)
    ensures (forall j :: 0 <= j < |table| ==> table[j].0 != key) ==> v == default
    ensures forall j :: 0 <= j < |table| && table[j].0 == key && (forall m :: 0 <= m < j ==> table[m].0 != key) ==> v == table[j].1
  {
    if table == [] then default
    else if table[0].0 == key then table[0].1
    else
      assert forall j :: 1 <= j < |table| ==> table[j] == table[1..][j - 1];
      Lookup(table[1..], key, default)
  }

  /** `KNOWN_SERVICES.get(uuid.upper(), "Unknown Service")`. */
  function ServiceDescription(uuid: string): string {
    Lookup(KnownServices, Upper(uuid), "Unknown Service")
  }

  /** The upper-case property names recorded for a set of flags, always in
      the order READ, WRITE, WRITE_NO_RESPONSE, NOTIFY, INDICATE. */
  function PropertyNames(flags: seq<string>): (names: seq<string>)
    ensures "READ" in names <==> "read" in flags
    ensures "WRITE" in names <==> "write" in flags
    ensures "WRITE_NO_RESPONSE" in names <==> "write-without-response" in flags
    ensures "NOTIFY" in names <==> "notify" in flags
    ensures "INDICATE" in names <==> "indicate" in flags
  {
    Flag(flags, "read", "READ") + Flag(flags, "write", "WRITE") +
    Flag(flags, "write-without-response", "WRITE_NO_RESPONSE") +
    Flag(flags, "notify", "NOTIFY") + Flag(flags, "indicate", "INDICATE")
  }

  /** The recorded names are property names only, each at most once, in
      the order READ, WRITE, WRITE_NO_RESPONSE, NOTIFY, INDICATE. */
  lemma PropertyNamesInOrder(flags: seq<string>)
    ensures forall n :: n in PropertyNames(flags) ==> n in PropertyOrder
    ensures forall i, j :: 0 <= i < j < |PropertyNames(flags)| ==>
      PropertyRank(PropertyNames(flags)[i]) < PropertyRank(PropertyNames(flags)[j])
  {
    var n1 := Flag(flags, "read", "READ");
    var n2 := n1 + Flag(flags, "write", "WRITE");
    var n3 := n2 + Flag(flags, "write-without-response", "WRITE_NO_RESPONSE");
    var n4 := n3 + Flag(flags, "notify", "NOTIFY");
    var n5 := n4 + Flag(flags, "indicate", "INDICATE");
    RankedFlag([], flags, "read", "READ", 0);
    RankedFlag(n1, flags, "write", "WRITE", 1);
    RankedFlag(n2, flags, "write-without-response", "WRITE_NO_RESPONSE", 2);
    RankedFlag(n3, flags, "notify", "NOTIFY", 3);
    RankedFlag(n4, flags, "indicate", "INDICATE", 4);
    assert PropertyNames(flags) == n5;
    forall n | n in n5
      ensures n in PropertyOrder
    {
      var i :| 0 <= i < |n5| && n5[i] == n;
      assert PropertyRank(n) < 5;
    }
  }

  /** The order in which the property names are recorded. */
  const PropertyOrder: seq<string> := ["READ", "WRITE", "WRITE_NO_RESPONSE", "NOTIFY", "INDICATE"]

  /** A property name's position in `PropertyOrder` (5 for any other string). */
  function PropertyRank(name: string): (k: nat)
    ensures k < 5 ==> PropertyOrder[k] == name
    ensures k == 5 <==> name !in PropertyOrder
  {
    if name == "READ" then 0
    else if name == "WRITE" then 1
    else if name == "WRITE_NO_RESPONSE" then 2
    else if name == "NOTIFY" then 3
    else if name == "INDICATE" then 4
    else 5
  }

  /** Names of rank below `bound`, in strictly increasing rank. */
  predicate Ranked(names: seq<string>, bound: nat) {
    (forall i :: 0 <= i < |names| ==> PropertyRank(names[i]) < bound) &&
    (forall i, j :: 0 <= i < j < |names| ==> PropertyRank(names[i]) < PropertyRank(names[j]))
  }

  /** Appending the name of the next rank keeps the names ranked. */
  lemma RankedFlag(names: seq<string>, flags: seq<string>, flag: string, name: string, k: nat)
    requires Ranked(names, k) && PropertyRank(name) == k
    ensures Ranked(names + Flag(flags, flag, name), k + 1)
    ensures forall n :: n in names + Flag(flags, flag, name) ==> (n in names || n == name)
  {
  }

  /** One property name, present exactly when its flag is reported. */
  function Flag(flags: seq<string>, flag: string, name: string): (r: seq<string>)
    ensures forall n :: n in r ==> n == name
    ensures name in r <==> flag in flags
  {
    if flag in flags then [name] else []
  }

  function DescribeCharacteristic(c: GattCharacteristic): Characteristic {
    Characteristic(c.uuid, PropertyNames(c.flags))
  }

  /** The records of a service's characteristics, one each, in order. */
  function DescribeCharacteristics(cs: seq<GattCharacteristic>): (r: seq<Characteristic>)
    ensures |r| == |cs|
  {
    if cs == [] then [] else DescribeCharacteristics(cs[..|cs| - 1]) + [DescribeCharacteristic(cs[|cs| - 1])]
  }

  lemma {:induction false} DescribeCharacteristicsAt(cs: seq<GattCharacteristic>, k: nat)
    requires k < |cs|
    ensures DescribeCharacteristics(cs)[k] == DescribeCharacteristic(cs[k])
  {
    if k < |cs| - 1 {
      DescribeCharacteristicsAt(cs[..|cs| - 1], k);
    }
  }

  /** The record of one service: its id, its description from the table
      of known services, and its characteristics. */
  function DescribeService(s: GattService): ServiceRecord {
    ServiceRecord(s.uuid, ServiceDescription(s.uuid), DescribeCharacteristics(s.characteristics))
  }

  /** The records of the services, one each, in order. */
  function DescribeServices(gatt: seq<GattService>): (r: seq<ServiceRecord>)
    ensures |r| == |gatt|
  {
    if gatt == [] then [] else DescribeServices(gatt[..|gatt| - 1]) + [DescribeService(gatt[|gatt| - 1])]
  }

  lemma {:induction false} DescribeServicesAt(gatt: seq<GattService>, k: nat)
    requires k < |gatt|
    ensures DescribeServices(gatt)[k] == DescribeService(gatt[k])
  {
    if k < |gatt| - 1 {
      DescribeServicesAt(gatt[..|gatt| - 1], k);
    }
  }

  lemma DescribeServicesSnoc(gatt: seq<GattService>, i: nat)
    requires i < |gatt|
    ensures DescribeServices(gatt[..i + 1]) == DescribeServices(gatt[..i]) + [DescribeService(gatt[i])]
  {
    assert gatt[..i + 1][..i] == gatt[..i];
  }

  lemma DescribeCharacteristicsSnoc(cs: seq<GattCharacteristic>, j: nat)
    requires j < |cs|
    ensures DescribeCharacteristics(cs[..j + 1]) == DescribeCharacteristics(cs[..j]) + [DescribeCharacteristic(cs[j])]
  {
    assert cs[..j + 1][..j] == cs[..j];
  }

  /** One service's record: a `ServiceInfo` filled characteristic by
      characteristic, in the order reported. */
  method ReadService(g: GattService) returns (r: ServiceRecord)
    ensures r == DescribeService(g)
  {
    var description := ServiceDescription(g.uuid);
    var service := new ServiceInfo(g.uuid, description);
    var cs := g.characteristics;
    var j := 0;
    while j < |cs|
      invariant 0 <= j <= |cs|
      invariant service.uuid == g.uuid && service.description == description
      invariant service.characteristics == DescribeCharacteristics(cs[..j])
    {
      DescribeCharacteristicsSnoc(cs, j);
      service.AddCharacteristic(cs[j].uuid, PropertyNames(cs[j].flags));
      j := j + 1;
    }
    assert cs[..j] == cs;
    r := service.ToDict();
  }

  /** The body of `discover_device_structure` once connected: one record
      per reported service, in the order reported. */
  method ReadStructure(address: string, gatt: seq<GattService>) returns (info: DeviceStructure)
    ensures info == DeviceStructure(address, DescribeServices(gatt))
  {
    var services: seq<ServiceRecord> := [];
    var i := 0;
    while i < |gatt|
      invariant 0 <= i <= |gatt|
      invariant services == DescribeServices(gatt[..i])
    {
      DescribeServicesSnoc(gatt, i);
      var record := ReadService(gatt[i]);
      services := services + [record];
      i := i + 1;
    }
    assert gatt[..i] == gatt;
    info := DeviceStructure(address, services);
  }

  // ---------------------------------------------------------------------
  // Identifying the lamp's ids.

  const LampService: string := "0000FFF0-0000-1000-8000-00805F9B34FB"
  const LampWriteChar: string := "0000FFF3-0000-1000-8000-00805F9B34FB"
  const LampNotifyChar: string := "0000FFF4-0000-1000-8000-00805F9B34FB"
  const VendorPrefix: string := "0000FF"
  const BaseSuffix: string := "-0000-1000-8000-00805F9B34FB"

  datatype Confidence = Unknown | Medium | High

  /** The `suggestions` dictionary; an empty id stands for an unset slot
      (both are falsy to the code). */
  datatype Suggestion = Suggestion(serviceUuid: string, writeCharUuid: string, notifyCharUuid: string, confidence: Confidence)

  /** The lamp's own service, in any letter case. */
  predicate IsLampService(s: ServiceRecord) {
    Upper(s.uuid) == LampService
  }

  /** Another 16-bit vendor service on the Bluetooth base id. */
  predicate IsVendorService(s: ServiceRecord) {
    !IsLampService(s) && StartsWith(Upper(s.uuid), VendorPrefix) && EndsWith(Upper(s.uuid), BaseSuffix)
  }

  /** The index of the first lamp service, or `|ss|`: nothing after it is looked at. */
  function LampServiceIndex(ss: seq<ServiceRecord>): (k: nat)
    ensures k <= |ss|
    ensures k < |ss| ==> IsLampService(ss[k])
    ensures forall j {:trigger IsLampService(ss[j])} :: 0 <= j < k ==> !IsLampService(ss[j])
  {
    if ss == [] then 0
    else if IsLampService(ss[0]) then 0
    else 1 + LampServiceIndex(ss[1..])
  }

  /** The upper-cased id of the last vendor service, or "" if there is none. */
  function LastVendorUuid(ss: seq<ServiceRecord>): (u: string)
    ensures u == "" <==> forall j {:trigger IsVendorService(ss[j])} :: 0 <= j < |ss| ==> !IsVendorService(ss[j])
  {
    if ss == [] then ""
    else
      var front := ss[..|ss| - 1];
      assert forall j :: 0 <= j < |front| ==> front[j] == ss[j];
      if IsVendorService(ss[|ss| - 1]) then
        assert |Upper(ss[|ss| - 1].uuid)| >= |VendorPrefix|;
        Upper(ss[|ss| - 1].uuid)
      else LastVendorUuid(front)
  }

  /** The characteristics of the vendor services, in service order. */
  function VendorCharacteristics(ss: seq<ServiceRecord>): seq<Characteristic> {
    if ss == [] then []
    else VendorCharacteristics(ss[..|ss| - 1]) + (if IsVendorService(ss[|ss| - 1]) then ss[|ss| - 1].characteristics else [])
  }

  predicate WritesNoResponse(c: Characteristic) {
    "WRITE_NO_RESPONSE" in c.properties
  }

  predicate Notifies(c: Characteristic) {
    "NOTIFY" in c.properties
  }

  /** The first write-without-response characteristic with a non-empty id
      (`|cs|` if none): the one whose id the write slot keeps. */
  function FirstWriter(cs: seq<Characteristic>): (k: nat)
    ensures k <= |cs|
    ensures k < |cs| ==> WritesNoResponse(cs[k]) && cs[k].uuid != ""
    ensures forall j {:trigger WritesNoResponse(cs[j])} :: 0 <= j < k ==> !(WritesNoResponse(cs[j]) && cs[j].uuid != "")
  {
    if cs == [] then 0
    else if WritesNoResponse(cs[0]) && cs[0].uuid != "" then 0
    else 1 + FirstWriter(cs[1..])
  }

  /** A characteristic is offered to the notify slot unless it can write
      without response and the write slot was still empty when it came. */
  predicate NotifyCandidate(cs: seq<Characteristic>, j: int)
    requires 0 <= j < |cs|
  {
    Notifies(cs[j]) && cs[j].uuid != "" && !(WritesNoResponse(cs[j]) && j <= FirstWriter(cs))
  }

  function FirstNotifierFrom(cs: seq<Characteristic>, from: nat): (k: nat)
    requires from <= |cs|
    ensures from <= k <= |cs|
    ensures k < |cs| ==> NotifyCandidate(cs, k)
    ensures forall j :: from <= j < k ==> !NotifyCandidate(cs, j)
    decreases |cs| - from
  {
    if from == |cs| then from
    else if NotifyCandidate(cs, from) then from
    else FirstNotifierFrom(cs, from + 1)
  }

  /** The first notify candidate with a non-empty id (`|cs|` if none). */
  function FirstNotifier(cs: seq<Characteristic>): (k: nat)
    ensures k <= |cs|
    ensures k < |cs| ==> NotifyCandidate(cs, k)
    ensures forall j :: 0 <= j < k ==> !NotifyCandidate(cs, j)
  {
    FirstNotifierFrom(cs, 0)
  }

  function SlotAt(cs: seq<Characteristic>, k: nat): string {
    if k < |cs| then Upper(cs[k].uuid) else ""
  }

  /** What the vendor tier leaves in the write and notify slots. */
  function VendorWrite(cs: seq<Characteristic>): string {
    SlotAt(cs, FirstWriter(cs))
  }

  function VendorNotify(cs: seq<Characteristic>): string {
    SlotAt(cs, FirstNotifier(cs))
  }

  /** Some characteristic has this id, in any letter case. */
  predicate Mentions(cs: seq<Characteristic>, id: string) {
    cs != [] && (Upper(cs[|cs| - 1].uuid) == id || Mentions(cs[..|cs| - 1], id))
  }

  predicate HasCharacteristic(s: ServiceRecord, id: string) {
    Mentions(s.characteristics, id)
  }

  /** The suggestion is returned only when all three ids are set. */
  function Complete(s: Suggestion): (r: Option<Suggestion>)
    ensures r.Some? <==> s.serviceUuid != "" && s.writeCharUuid != "" && s.notifyCharUuid != ""
    ensures r.Some? ==> r.value == s
  {
    if s.serviceUuid != "" && s.writeCharUuid != "" && s.notifyCharUuid != "" then Some(s) else None
  }

  /** The medium tier alone, over services none of which is a lamp
      service: the last vendor service names the service, and the first
      eligible vendor characteristics fill write and notify. */
  function VendorOnlyTier(ss: seq<ServiceRecord>): (r: Option<Suggestion>)
    ensures r.Some? ==> r.value.serviceUuid == LastVendorUuid(ss) != "" && r.value.confidence == Medium
  {
    var service := LastVendorUuid(ss);
    var cs := VendorCharacteristics(ss);
    Complete(Suggestion(service, VendorWrite(cs), VendorNotify(cs), if service == "" then Unknown else Medium))
  }

  /** Both tiers: the vendor services in `pre` fill the slots as above;
      the lamp service then takes over the service id with high confidence
      and sets write and notify to its own FFF3 and FFF4 characteristics
      where it has them. */
  function LampTier(pre: seq<ServiceRecord>, lamp: ServiceRecord): (r: Option<Suggestion>)
    ensures r.Some? ==> r.value.serviceUuid == LampService && r.value.confidence == High
  {
    var cs := VendorCharacteristics(pre);
    Complete(Suggestion(LampService,
      if HasCharacteristic(lamp, LampWriteChar) then LampWriteChar else VendorWrite(cs),
      if HasCharacteristic(lamp, LampNotifyChar) then LampNotifyChar else VendorNotify(cs),
      High))
  }

  /** What `identify_lotus_lamp_uuids` returns: both tiers up to the first
      lamp service if there is one, the medium tier alone otherwise. */
  function Identify(ss: seq<ServiceRecord>): (r: Option<Suggestion>)
    ensures r.Some? ==> r.value.serviceUuid != "" && r.value.writeCharUuid != "" && r.value.notifyCharUuid != ""
  {
    var k := LampServiceIndex(ss);
    if k < |ss| then LampTier(ss[..k], ss[k]) else VendorOnlyTier(ss)
  }

  // Appending one characteristic to the vendor list changes the slots as
  // one step of the inner loop does.

  lemma {:induction false} FirstWriterSnoc(cs: seq<Characteristic>, c: Characteristic)
    ensures FirstWriter(cs + [c]) ==
      if FirstWriter(cs) < |cs| then FirstWriter(cs)
      else if WritesNoResponse(c) && c.uuid != "" then |cs| else |cs| + 1
  {
    var k := FirstWriter(cs + [c]);
    var xs := cs + [c];
    if FirstWriter(cs) < |cs| {
      var m := FirstWriter(cs);
      assert xs[m] == cs[m];
      assert forall j :: 0 <= j < m ==> xs[j] == cs[j];
      assert k < |cs| ==> xs[k] == cs[k];
    } else {
      assert forall j :: 0 <= j < |cs| ==> xs[j] == cs[j];
      assert xs[|cs|] == c;
    }
  }

  lemma VendorWriteSnoc(cs: seq<Characteristic>, c: Characteristic)
    ensures VendorWrite(cs + [c]) ==
      if VendorWrite(cs) == "" && WritesNoResponse(c) then Upper(c.uuid) else VendorWrite(cs)
  {
    FirstWriterSnoc(cs, c);
    var xs := cs + [c];
    if FirstWriter(cs) < |cs| {
      assert xs[FirstWriter(cs)] == cs[FirstWriter(cs)];
      assert |Upper(cs[FirstWriter(cs)].uuid)| > 0;
    }
  }

  lemma {:induction false} FirstNotifierSnoc(cs: seq<Characteristic>, c: Characteristic)
    ensures var xs := cs + [c];
      FirstNotifier(xs) ==
        if FirstNotifier(cs) < |cs| then FirstNotifier(cs)
        else if NotifyCandidate(xs, |cs|) then |cs| else |cs| + 1
    ensures NotifyCandidate(cs + [c], |cs|) <==>
      Notifies(c) && c.uuid != "" && !(WritesNoResponse(c) && FirstWriter(cs) == |cs|)
  {
    var xs := cs + [c];
    FirstWriterSnoc(cs, c);
    assert xs[|cs|] == c;
    assert forall j :: 0 <= j < |cs| ==> xs[j] == cs[j] && (NotifyCandidate(xs, j) <==> NotifyCandidate(cs, j));
    var k := FirstNotifier(xs);
    if FirstNotifier(cs) < |cs| {
      var m := FirstNotifier(cs);
      assert NotifyCandidate(xs, m);
    }
  }

  lemma VendorNotifySnoc(cs: seq<Characteristic>, c: Characteristic)
    ensures VendorNotify(cs + [c]) ==
      if VendorNotify(cs) == "" && Notifies(c) && !(WritesNoResponse(c) && VendorWrite(cs) == "")
      then Upper(c.uuid) else VendorNotify(cs)
  {
    FirstNotifierSnoc(cs, c);
    var xs := cs + [c];
    if FirstNotifier(cs) < |cs| {
      assert xs[FirstNotifier(cs)] == cs[FirstNotifier(cs)];
      assert |Upper(cs[FirstNotifier(cs)].uuid)| > 0;
    }
    if FirstWriter(cs) < |cs| {
      assert |Upper(cs[FirstWriter(cs)].uuid)| > 0;
    }
  }

  /** The inner loop over a lamp service: an FFF3 characteristic sets the
      write slot and an FFF4 one the notify slot, whatever they held. */
  method FillFromLampService(s: ServiceRecord, write0: string, notify0: string) returns (write: string, notify: string)
    ensures write == if HasCharacteristic(s, LampWriteChar) then LampWriteChar else write0
    ensures notify == if HasCharacteristic(s, LampNotifyChar) then LampNotifyChar else notify0
  {
    write, notify := write0, notify0;
    var cs := s.characteristics;
    var j := 0;
    while j < |cs|
      invariant 0 <= j <= |cs|
      invariant write == if Mentions(cs[..j], LampWriteChar) then LampWriteChar else write0
      invariant notify == if Mentions(cs[..j], LampNotifyChar) then LampNotifyChar else notify0
    {
      assert cs[..j + 1][..j] == cs[..j];
      var cu := Upper(cs[j].uuid);
      if cu == LampWriteChar {
        write := cu;
      } else if cu == LampNotifyChar {
        notify := cu;
      }
      j := j + 1;
    }
    assert cs[..j] == cs;
  }

  /** One more characteristic of a vendor service offered to the slots. */
  lemma VendorSlotsStep(before: seq<Characteristic>, cs: seq<Characteristic>, j: nat)
    requires j < |cs|
    ensures var xs, c := before + cs[..j], cs[j];
      VendorWrite(before + cs[..j + 1]) ==
        (if VendorWrite(xs) == "" && WritesNoResponse(c) then Upper(c.uuid) else VendorWrite(xs)) &&
      VendorNotify(before + cs[..j + 1]) ==
        (if VendorNotify(xs) == "" && Notifies(c) && !(WritesNoResponse(c) && VendorWrite(xs) == "")
         then Upper(c.uuid) else VendorNotify(xs))
  {
    var xs, c := before + cs[..j], cs[j];
    assert before + cs[..j + 1] == xs + [c] by {
      assert cs[..j + 1] == cs[..j] + [c];
    }
    VendorWriteSnoc(xs, c);
    VendorNotifySnoc(xs, c);
  }

  /** The inner loop over a vendor service: a write-without-response
      characteristic fills an empty write slot; otherwise a notify one
      fills an empty notify slot. */
  method FillFromVendorService(before: seq<Characteristic>, cs: seq<Characteristic>, write0: string, notify0: string)
    returns (write: string, notify: string)
    requires write0 == VendorWrite(before) && notify0 == VendorNotify(before)
    ensures write == VendorWrite(before + cs) && notify == VendorNotify(before + cs)
  {
    write, notify := write0, notify0;
    assert before + cs[..0] == before;
    var j := 0;
    while j < |cs|
      invariant 0 <= j <= |cs|
      invariant write == VendorWrite(before + cs[..j])
      invariant notify == VendorNotify(before + cs[..j])
    {
      var c := cs[j];
      VendorSlotsStep(before, cs, j);
      if WritesNoResponse(c) && write == "" {
        write := Upper(c.uuid);
      } else if Notifies(c) && notify == "" {
        notify := Upper(c.uuid);
      }
      j := j + 1;
    }
    assert cs[..j] == cs;
  }

  /** One pass of the loop over a service before the first lamp service:
      a vendor service overwrites the service id and offers its
      characteristics to the slots; any other service changes nothing. */
  method VisitService(ss: seq<ServiceRecord>, i: nat, service0: string, write0: string, notify0: string)
    returns (service: string, write: string, notify: string)
    requires i < LampServiceIndex(ss)
    requires service0 == LastVendorUuid(ss[..i])
    requires write0 == VendorWrite(VendorCharacteristics(ss[..i]))
    requires notify0 == VendorNotify(VendorCharacteristics(ss[..i]))
    ensures service == LastVendorUuid(ss[..i + 1])
    ensures write == VendorWrite(VendorCharacteristics(ss[..i + 1]))
    ensures notify == VendorNotify(VendorCharacteristics(ss[..i + 1]))
  {
    var s := ss[i];
    VendorPartsSnoc(ss, i);
    service, write, notify := service0, write0, notify0;
    if IsVendorService(s) {
      write, notify := FillFromVendorService(VendorCharacteristics(ss[..i]), s.characteristics, write, notify);
      service := Upper(s.uuid);
    }
  }

  /** One more service in the prefix: only a vendor service changes the
      service id and the vendor characteristics. */
  lemma VendorPartsSnoc(ss: seq<ServiceRecord>, i: nat)
    requires i < |ss|
    ensures IsVendorService(ss[i]) ==>
      VendorCharacteristics(ss[..i + 1]) == VendorCharacteristics(ss[..i]) + ss[i].characteristics &&
      LastVendorUuid(ss[..i + 1]) == Upper(ss[i].uuid)
    ensures !IsVendorService(ss[i]) ==>
      VendorCharacteristics(ss[..i + 1]) == VendorCharacteristics(ss[..i]) &&
      LastVendorUuid(ss[..i + 1]) == LastVendorUuid(ss[..i])
  {
    assert ss[..i + 1][..i] == ss[..i] && ss[..i + 1][i] == ss[i];
    assert VendorCharacteristics(ss[..i]) + [] == VendorCharacteristics(ss[..i]);
  }

  /** `identify_lotus_lamp_uuids`: one pass over the services that stops at
      the first lamp service, overwriting the service id at every vendor
      service and filling each characteristic slot at most once. */
  method IdentifyLotusLampUuids(info: DeviceStructure) returns (r: Option<Suggestion>)
    ensures r == Identify(info.services)
  {
    var ss := info.services;
    var service, write, notify, confidence := "", "", "", Unknown;
    var i := 0;
    ghost var stopped := false;
    assert ss[..0] == [] && VendorCharacteristics([]) == [];
    assert FirstWriter([]) == 0 && FirstNotifier([]) == 0;
    while i < |ss|
      invariant 0 <= i <= LampServiceIndex(ss) && !stopped
      invariant service == LastVendorUuid(ss[..i])
      invariant write == VendorWrite(VendorCharacteristics(ss[..i]))
      invariant notify == VendorNotify(VendorCharacteristics(ss[..i]))
      invariant confidence == if service == "" then Unknown else Medium
    {
      var s := ss[i];
      if IsLampService(s) {
        assert LampServiceIndex(ss) == i;
        IdentifyStops(ss);
        service := LampService;
        confidence := High;
        write, notify := FillFromLampService(s, write, notify);
        stopped := true;
        break;
      }
      service, write, notify := VisitService(ss, i, service, write, notify);
      confidence := if service == "" then Unknown else Medium;
      i := i + 1;
    }
    if !stopped {
      assert ss[..i] == ss;
      IdentifyRunsThrough(ss);
    }
    if service != "" && write != "" && notify != "" {
      r := Some(Suggestion(service, write, notify, confidence));
    } else {
      r := None;
    }
  }

  // ---------------------------------------------------------------------
  // Properties of the identification.

  lemma IdentifyStops(ss: seq<ServiceRecord>)
    requires LampServiceIndex(ss) < |ss|
    ensures Identify(ss) == LampTier(ss[..LampServiceIndex(ss)], ss[LampServiceIndex(ss)])
  {
  }

  lemma IdentifyRunsThrough(ss: seq<ServiceRecord>)
    requires forall j {:trigger IsLampService(ss[j])} :: 0 <= j < |ss| ==> !IsLampService(ss[j])
    ensures Identify(ss) == VendorOnlyTier(ss)
  {
    assert LampServiceIndex(ss) == |ss|;
  }

  lemma {:induction false} LampServiceIndexOfExtension(ss: seq<ServiceRecord>, xs: seq<ServiceRecord>)
    requires LampServiceIndex(ss) < |ss| <= |xs| && xs[..|ss|] == ss
    ensures LampServiceIndex(xs) == LampServiceIndex(ss)
    ensures xs[..LampServiceIndex(ss)] == ss[..LampServiceIndex(ss)]
    ensures xs[LampServiceIndex(ss)] == ss[LampServiceIndex(ss)]
  {
    assert xs[0] == ss[0];
    if !IsLampService(ss[0]) {
      assert xs[1..][..|ss[1..]|] == ss[1..];
      LampServiceIndexOfExtension(ss[1..], xs[1..]);
    }
    assert xs[..LampServiceIndex(ss)] == xs[..|ss|][..LampServiceIndex(ss)];
  }

  /** Only the services up to and including the first lamp service count. */
  lemma SameUpToLampService(ss: seq<ServiceRecord>, xs: seq<ServiceRecord>)
    requires LampServiceIndex(ss) < |ss| && LampServiceIndex(ss) < |xs|
    requires LampServiceIndex(xs) == LampServiceIndex(ss)
    requires xs[..LampServiceIndex(ss)] == ss[..LampServiceIndex(ss)]
    requires xs[LampServiceIndex(ss)] == ss[LampServiceIndex(ss)]
    ensures Identify(xs) == Identify(ss)
  {
  }

  /** The `break`: once the list holds a lamp service, services added
      after the list are never looked at. */
  lemma IgnoresAfterLampService(ss: seq<ServiceRecord>, xs: seq<ServiceRecord>)
    requires LampServiceIndex(ss) < |ss| <= |xs| && xs[..|ss|] == ss
    ensures Identify(xs) == Identify(ss)
  {
    LampServiceIndexOfExtension(ss, xs);
    SameUpToLampService(ss, xs);
  }

  /** With both of its own characteristics, a lamp service decides all
      three ids, whatever the vendor tier found. */
  lemma LampServiceDecides(pre: seq<ServiceRecord>, lamp: ServiceRecord)
    requires HasCharacteristic(lamp, LampWriteChar) && HasCharacteristic(lamp, LampNotifyChar)
    ensures LampTier(pre, lamp) == Some(Suggestion(LampService, LampWriteChar, LampNotifyChar, High))
  {
  }

  /** A device whose first lamp service has both of its own
      characteristics is identified with the standard ids and high
      confidence. */
  lemma StandardLampIsHigh(ss: seq<ServiceRecord>, k: nat)
    requires k == LampServiceIndex(ss) < |ss|
    requires HasCharacteristic(ss[k], LampWriteChar) && HasCharacteristic(ss[k], LampNotifyChar)
    ensures Identify(ss) == Some(Suggestion(LampService, LampWriteChar, LampNotifyChar, High))
  {
    IdentifyStops(ss);
    LampServiceDecides(ss[..k], ss[k]);
  }

  lemma {:induction false} NoVendorServices(ss: seq<ServiceRecord>)
    requires forall j {:trigger IsVendorService(ss[j])} :: 0 <= j < |ss| ==> !IsVendorService(ss[j])
    ensures VendorCharacteristics(ss) == [] && LastVendorUuid(ss) == ""
  {
    if ss != [] {
      var front := ss[..|ss| - 1];
      assert forall j :: 0 <= j < |front| ==> front[j] == ss[j];
      NoVendorServices(front);
    }
  }

  /** Services of neither kind (Generic Access, Battery, ...) give nothing. */
  lemma NoCandidateServices(ss: seq<ServiceRecord>)
    requires forall j :: 0 <= j < |ss| ==> !IsLampService(ss[j]) && !IsVendorService(ss[j])
    ensures Identify(ss) == None
  {
    IdentifyRunsThrough(ss);
    NoVendorServices(ss);
  }

  /** The vendor tier alone: the last vendor service's id with medium
      confidence, and the slots filled from all vendor characteristics. */
  lemma VendorServiceAppended(ss: seq<ServiceRecord>, v: ServiceRecord)
    requires IsVendorService(v)
    ensures LastVendorUuid(ss + [v]) == Upper(v.uuid) != ""
    ensures VendorCharacteristics(ss + [v]) == VendorCharacteristics(ss) + v.characteristics
  {
    var xs := ss + [v];
    assert xs[..|xs| - 1] == ss && xs[|xs| - 1] == v;
    assert |Upper(v.uuid)| >= |VendorPrefix|;
  }

  lemma NoLampServiceAppended(ss: seq<ServiceRecord>, v: ServiceRecord)
    requires forall j {:trigger IsLampService(ss[j])} :: 0 <= j < |ss| ==> !IsLampService(ss[j])
    requires !IsLampService(v)
    ensures forall j {:trigger IsLampService((ss + [v])[j])} :: 0 <= j < |ss + [v]| ==> !IsLampService((ss + [v])[j])
  {
    var xs := ss + [v];
    assert forall j :: 0 <= j < |ss| ==> xs[j] == ss[j];
  }

  /** Without a lamp service, the last vendor service names the suggestion:
      a vendor service appended at the end overrides the service id. */
  lemma LaterVendorServiceOverrides(ss: seq<ServiceRecord>, v: ServiceRecord)
    requires forall j {:trigger IsLampService(ss[j])} :: 0 <= j < |ss| ==> !IsLampService(ss[j])
    requires IsVendorService(v)
    ensures Identify(ss + [v]) ==
      Complete(Suggestion(Upper(v.uuid), VendorWrite(VendorCharacteristics(ss) + v.characteristics),
        VendorNotify(VendorCharacteristics(ss) + v.characteristics), Medium))
  {
    NoLampServiceAppended(ss, v);
    IdentifyRunsThrough(ss + [v]);
    VendorServiceAppended(ss, v);
  }

  /** A lone vendor service: its id, with medium confidence, and the slots
      its characteristics fill. */
  lemma LoneVendorService(v: ServiceRecord)
    requires IsVendorService(v)
    ensures Identify([v]) ==
      Complete(Suggestion(Upper(v.uuid), VendorWrite(v.characteristics), VendorNotify(v.characteristics), Medium))
  {
    LaterVendorServiceOverrides([], v);
    assert [] + [v] == [v];
    assert VendorCharacteristics([]) + v.characteristics == v.characteristics;
  }

  /** The `elif`: a characteristic that can both write and notify, coming
      while the write slot is empty, takes the write slot only. */
  lemma BothKindsFillsWriteOnly(u: string)
    requires u != ""
    ensures var both := Characteristic(u, ["WRITE_NO_RESPONSE", "NOTIFY"]);
      VendorWrite([both]) == Upper(u) && VendorNotify([both]) == ""
  {
    var both := Characteristic(u, ["WRITE_NO_RESPONSE", "NOTIFY"]);
    var cs := [both];
    assert WritesNoResponse(both) && Notifies(both);
    assert FirstWriter(cs) == 0;
    assert !NotifyCandidate(cs, 0);
    assert FirstNotifier(cs) == 1;
  }

  /** After the write slot is taken, the first writer keeps it and a later
      notify-only characteristic fills the notify slot. */
  lemma FirstWriterKeepsSlot(u1: string, u2: string, u3: string)
    requires u1 != "" && u2 != "" && u3 != ""
    ensures var both := Characteristic(u1, ["WRITE_NO_RESPONSE", "NOTIFY"]);
      var writer := Characteristic(u2, ["WRITE_NO_RESPONSE"]);
      var notifier := Characteristic(u3, ["NOTIFY"]);
      VendorWrite([both, writer, notifier]) == Upper(u1) &&
      VendorNotify([both, writer, notifier]) == Upper(u3)
  {
    var both := Characteristic(u1, ["WRITE_NO_RESPONSE", "NOTIFY"]);
    var writer := Characteristic(u2, ["WRITE_NO_RESPONSE"]);
    var notifier := Characteristic(u3, ["NOTIFY"]);
    var cs := [both, writer, notifier];
    assert WritesNoResponse(both) && Notifies(both);
    assert WritesNoResponse(writer) && !Notifies(writer);
    assert Notifies(notifier) && !WritesNoResponse(notifier) by {
      assert notifier.properties[0] != "WRITE_NO_RESPONSE";
    }
    assert FirstWriter(cs) == 0;
    assert !NotifyCandidate(cs, 0) && !NotifyCandidate(cs, 1) && NotifyCandidate(cs, 2);
    assert FirstNotifier(cs) == 2;
  }

  /** Once the write slot is taken, a characteristic that can both write
      and notify goes to the notify slot. */
  lemma BothKindsNotifiesAfterWriter(u1: string, u2: string)
    requires u1 != "" && u2 != ""
    ensures var both := Characteristic(u1, ["WRITE_NO_RESPONSE", "NOTIFY"]);
      var writer := Characteristic(u2, ["WRITE_NO_RESPONSE"]);
      VendorWrite([writer, both]) == Upper(u2) && VendorNotify([writer, both]) == Upper(u1)
  {
    var both := Characteristic(u1, ["WRITE_NO_RESPONSE", "NOTIFY"]);
    var writer := Characteristic(u2, ["WRITE_NO_RESPONSE"]);
    var cs := [writer, both];
    assert WritesNoResponse(writer) && !Notifies(writer);
    assert WritesNoResponse(both) && Notifies(both);
    assert FirstWriter(cs) == 0;
    assert !NotifyCandidate(cs, 0) && NotifyCandidate(cs, 1);
    assert FirstNotifier(cs) == 1;
  }

  /** A vendor service followed by a lamp service: the loop stops at the
      second service, with the first as the vendor tier. */
  lemma VendorThenLamp(v: ServiceRecord, lamp: ServiceRecord)
    requires !IsLampService(v) && IsLampService(lamp)
    ensures Identify([v, lamp]) == LampTier([v], lamp)
  {
    var ss := [v, lamp];
    assert LampServiceIndex(ss) == 1 by {
      assert ss[1..] == [lamp];
    }
    IdentifyStops(ss);
    assert ss[..1] == [v];
  }

  lemma LoneVendorCharacteristics(v: ServiceRecord)
    requires IsVendorService(v)
    ensures VendorCharacteristics([v]) == v.characteristics
  {
    assert [v][..0] == [];
  }

  /** A lone characteristic that only notifies fills the notify slot. */
  lemma LoneNotifier(u: string)
    requires u != ""
    ensures VendorNotify([Characteristic(u, ["NOTIFY"])]) == Upper(u)
  {
    var c := Characteristic(u, ["NOTIFY"]);
    var cs := [c];
    assert !WritesNoResponse(c) && Notifies(c);
    assert cs[1..] == [];
    assert FirstWriter(cs) == 1;
    assert NotifyCandidate(cs, 0);
    assert FirstNotifier(cs) == 0;
  }

  /** A lamp service that lacks its notify characteristic keeps the notify
      id an earlier vendor service supplied, and still reports high
      confidence. */
  lemma LampServiceBorrowsVendorNotify(v: ServiceRecord, lamp: ServiceRecord, u: string)
    requires IsVendorService(v) && v.characteristics == [Characteristic(u, ["NOTIFY"])] && u != ""
    requires IsLampService(lamp) && !HasCharacteristic(lamp, LampNotifyChar)
    requires HasCharacteristic(lamp, LampWriteChar)
    ensures Identify([v, lamp]) == Some(Suggestion(LampService, LampWriteChar, Upper(u), High))
  {
    VendorThenLamp(v, lamp);
    LoneVendorCharacteristics(v);
    LoneNotifier(u);
  }


  // Case-insensitivity: only the upper-cased ids matter.

  predicate AlikeCharacteristics(xs: seq<Characteristic>, ys: seq<Characteristic>) {
    |xs| == |ys| &&
    forall j :: 0 <= j < |xs| ==> Upper(xs[j].uuid) == Upper(ys[j].uuid) && xs[j].properties == ys[j].properties
  }

  /** Two structures that differ only in the letter case of their ids. */
  predicate AlikeServices(a: seq<ServiceRecord>, b: seq<ServiceRecord>) {
    |a| == |b| &&
    forall j :: 0 <= j < |a| ==>
      Upper(a[j].uuid) == Upper(b[j].uuid) && AlikeCharacteristics(a[j].characteristics, b[j].characteristics)
  }

  lemma UpperEmpty(s: string)
    ensures Upper(s) == "" <==> s == ""
  {
  }

  lemma AlikeFirstWriter(xs: seq<Characteristic>, ys: seq<Characteristic>)
    requires AlikeCharacteristics(xs, ys)
    ensures FirstWriter(xs) == FirstWriter(ys)
  {
    forall j | 0 <= j < |xs|
      ensures (WritesNoResponse(xs[j]) && xs[j].uuid != "") <==> (WritesNoResponse(ys[j]) && ys[j].uuid != "")
    {
      UpperEmpty(xs[j].uuid);
      UpperEmpty(ys[j].uuid);
    }
    var p, q := FirstWriter(xs), FirstWriter(ys);
    assert p < |xs| ==> WritesNoResponse(ys[p]) && ys[p].uuid != "";
    assert q < |ys| ==> WritesNoResponse(xs[q]) && xs[q].uuid != "";
  }

  lemma AlikeFirstNotifier(xs: seq<Characteristic>, ys: seq<Characteristic>)
    requires AlikeCharacteristics(xs, ys)
    ensures FirstNotifier(xs) == FirstNotifier(ys)
  {
    AlikeFirstWriter(xs, ys);
    forall j | 0 <= j < |xs|
      ensures NotifyCandidate(xs, j) <==> NotifyCandidate(ys, j)
    {
      UpperEmpty(xs[j].uuid);
      UpperEmpty(ys[j].uuid);
    }
    var p, q := FirstNotifier(xs), FirstNotifier(ys);
    assert p < |xs| ==> NotifyCandidate(ys, p);
    assert q < |ys| ==> NotifyCandidate(xs, q);
  }

  lemma {:induction false} AlikeMentions(xs: seq<Characteristic>, ys: seq<Characteristic>, id: string)
    requires AlikeCharacteristics(xs, ys)
    ensures Mentions(xs, id) == Mentions(ys, id)
  {
    if xs != [] {
      var n := |xs| - 1;
      assert AlikeCharacteristics(xs[..n], ys[..n]);
      AlikeMentions(xs[..n], ys[..n], id);
    }
  }

  lemma AlikeKinds(x: ServiceRecord, y: ServiceRecord)
    requires Upper(x.uuid) == Upper(y.uuid)
    ensures IsLampService(x) == IsLampService(y) && IsVendorService(x) == IsVendorService(y)
  {
  }

  lemma AlikeAppend(xs: seq<Characteristic>, ys: seq<Characteristic>, cx: seq<Characteristic>, cy: seq<Characteristic>)
    requires AlikeCharacteristics(xs, ys) && AlikeCharacteristics(cx, cy)
    ensures AlikeCharacteristics(xs + cx, ys + cy)
  {
    forall j | 0 <= j < |xs + cx|
      ensures Upper((xs + cx)[j].uuid) == Upper((ys + cy)[j].uuid) && (xs + cx)[j].properties == (ys + cy)[j].properties
    {
      if j < |xs| {
        assert (xs + cx)[j] == xs[j] && (ys + cy)[j] == ys[j];
      } else {
        assert (xs + cx)[j] == cx[j - |xs|] && (ys + cy)[j] == cy[j - |xs|];
      }
    }
  }

  lemma {:induction false} AlikeVendorParts(a: seq<ServiceRecord>, b: seq<ServiceRecord>)
    requires AlikeServices(a, b)
    ensures LastVendorUuid(a) == LastVendorUuid(b)
    ensures AlikeCharacteristics(VendorCharacteristics(a), VendorCharacteristics(b))
  {
    if a != [] {
      var n := |a| - 1;
      assert AlikeServices(a[..n], b[..n]);
      AlikeVendorParts(a[..n], b[..n]);
      AlikeKinds(a[n], b[n]);
      if IsVendorService(a[n]) {
        AlikeAppend(VendorCharacteristics(a[..n]), VendorCharacteristics(b[..n]), a[n].characteristics, b[n].characteristics);
      }
    }
  }

  lemma {:induction false} AlikeLampServiceIndex(a: seq<ServiceRecord>, b: seq<ServiceRecord>)
    requires AlikeServices(a, b)
    ensures LampServiceIndex(a) == LampServiceIndex(b)
  {
    if a != [] {
      AlikeKinds(a[0], b[0]);
      assert AlikeServices(a[1..], b[1..]) by {
        assert forall j :: 0 <= j < |a| - 1 ==> a[1..][j] == a[j + 1] && b[1..][j] == b[j + 1];
      }
      AlikeLampServiceIndex(a[1..], b[1..]);
    }
  }

  lemma AlikeSlots(a: seq<ServiceRecord>, b: seq<ServiceRecord>)
    requires AlikeServices(a, b)
    ensures LastVendorUuid(a) == LastVendorUuid(b)
    ensures VendorWrite(VendorCharacteristics(a)) == VendorWrite(VendorCharacteristics(b))
    ensures VendorNotify(VendorCharacteristics(a)) == VendorNotify(VendorCharacteristics(b))
  {
    AlikeVendorParts(a, b);
    var xs, ys := VendorCharacteristics(a), VendorCharacteristics(b);
    AlikeFirstWriter(xs, ys);
    AlikeFirstNotifier(xs, ys);
  }

  lemma AlikeLampTier(pa: seq<ServiceRecord>, pb: seq<ServiceRecord>, la: ServiceRecord, lb: ServiceRecord)
    requires AlikeServices(pa, pb) && AlikeCharacteristics(la.characteristics, lb.characteristics)
    ensures LampTier(pa, la) == LampTier(pb, lb)
  {
    AlikeSlots(pa, pb);
    AlikeMentions(la.characteristics, lb.characteristics, LampWriteChar);
    AlikeMentions(la.characteristics, lb.characteristics, LampNotifyChar);
  }

  /** Letter case in the reported ids never changes the outcome. */
  lemma IdentifyIgnoresCase(a: seq<ServiceRecord>, b: seq<ServiceRecord>)
    requires AlikeServices(a, b)
    ensures Identify(a) == Identify(b)
  {
    AlikeLampServiceIndex(a, b);
    var k := LampServiceIndex(a);
    if k < |a| {
      assert AlikeServices(a[..k], b[..k]);
      AlikeLampTier(a[..k], b[..k], a[k], b[k]);
      IdentifyStops(a);
      IdentifyStops(b);
    } else {
      AlikeSlots(a, b);
      IdentifyRunsThrough(a);
      IdentifyRunsThrough(b);
    }
  }

  function LowerCharacteristic(c: Characteristic): Characteristic {
    c.(uuid := Lower(c.uuid))
  }

  function LowerService(s: ServiceRecord): ServiceRecord {
    s.(uuid := Lower(s.uuid),
       characteristics := seq(|s.characteristics|, j requires 0 <= j < |s.characteristics| => LowerCharacteristic(s.characteristics[j])))
  }

  /** A device that reports its ids in lower case is identified exactly as
      one that reports them in upper case. */
  lemma LowerCaseIdsIdentifiedAlike(ss: seq<ServiceRecord>)
    ensures Identify(seq(|ss|, j requires 0 <= j < |ss| => LowerService(ss[j]))) == Identify(ss)
  {
    var ls := seq(|ss|, j requires 0 <= j < |ss| => LowerService(ss[j]));
    forall j | 0 <= j < |ss|
      ensures Upper(ls[j].uuid) == Upper(ss[j].uuid)
      ensures AlikeCharacteristics(ls[j].characteristics, ss[j].characteristics)
    {
      UpperOfLower(ss[j].uuid);
      var cs := ss[j].characteristics;
      forall m | 0 <= m < |cs|
        ensures Upper(ls[j].characteristics[m].uuid) == Upper(cs[m].uuid)
      {
        UpperOfLower(cs[m].uuid);
      }
    }
    IdentifyIgnoresCase(ls, ss);
  }
}
