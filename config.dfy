/** lotus_lamp/config.py: the per-device record, its JSON form, and the
    `ConfigManager` that keeps devices in an insertion-ordered dictionary
    keyed by name and loads/saves them as JSON documents. Files are a map
    from path to document; JSON text and its parser are not modelled. */
module Config {
  import opened Wrappers
  import opened JsonValue

  const DefaultServiceUuid: string := "0000FFF0-0000-1000-8000-00805F9B34FB"
  const DefaultWriteCharUuid: string := "0000FFF3-0000-1000-8000-00805F9B34FB"
  const DefaultNotifyCharUuid: string := "0000FFF4-0000-1000-8000-00805F9B34FB"

  /** The `DeviceConfig` dataclass. */
  datatype DeviceConfig = DeviceConfig(
    name: string,
    address: Option<string>,
    serviceUuid: string,
    writeCharUuid: string,
    notifyCharUuid: string)

  /** `DeviceConfig(name=...)`: no address, the three standard ids. */
  function NewDeviceConfig(name: string): (d: DeviceConfig)
    ensures d.name == name && d.address == None
    ensures d.serviceUuid == DefaultServiceUuid
    ensures d.writeCharUuid == DefaultWriteCharUuid
    ensures d.notifyCharUuid == DefaultNotifyCharUuid
  {
    DeviceConfig(name, None, DefaultServiceUuid, DefaultWriteCharUuid, DefaultNotifyCharUuid)
  }

  /** The five keyword arguments the dataclass accepts. */
  const FieldNames: set<string> :=
    {"name", "address", "service_uuid", "write_char_uuid", "notify_char_uuid"}

  /** `to_dict` (`dataclasses.asdict`): one key per field, `None` as null. */
  function ToDict(d: DeviceConfig): (j: Json)
    ensures j.JObj? && j.fields.Keys == FieldNames
    ensures j.fields["name"] == JStr(d.name)
    ensures d.address.None? ==> j.fields["address"] == JNull
    ensures d.address.Some? ==> j.fields["address"] == JStr(d.address.value)
    ensures j.fields["service_uuid"] == JStr(d.serviceUuid)
    ensures j.fields["write_char_uuid"] == JStr(d.writeCharUuid)
    ensures j.fields["notify_char_uuid"] == JStr(d.notifyCharUuid)
  {
    JObj(map[
      "name" := JStr(d.name),
      "address" := if d.address.Some? then JStr(d.address.value) else JNull,
      "service_uuid" := JStr(d.serviceUuid),
      "write_char_uuid" := JStr(d.writeCharUuid),
      "notify_char_uuid" := JStr(d.notifyCharUuid)])
  }

  /** Why `cls(**data)` fails for a record. */
  datatype RecordError =
    | NotAMapping        // `**` applied to something that is not an object
    | UnexpectedField    // a key that is not one of the five fields
    | MissingName        // the required `name` argument is absent
    | WrongType          // a field holds a JSON value the model does not store

  /** A string field, or its default when the key is absent. */
  function StringField(m: map<string, Json>, key: string, default: string): Option<string> {
    if key !in m then Some(default)
    else if m[key].JStr? then Some(m[key].s)
    else None
  }

  /** Every value is one the dataclass field holds: a string, or null for
      the optional `address`. */
  predicate StoredTypes(m: map<string, Json>) {
    forall k :: k in m ==> m[k].JStr? || (k == "address" && m[k] == JNull)
  }

  /** `from_dict` (`cls(**data)`): every key must be a field and `name` must
      be present; present fields are stored, absent ones take their defaults. */
  function FromDict(j: Json): (r: Result<DeviceConfig, RecordError>)
    ensures j.JObj? && j.fields.Keys <= FieldNames && "name" in j.fields && StoredTypes(j.fields) ==> r.Ok?
    ensures !j.JObj? ==> r == Err(NotAMapping)
    ensures j.JObj? && !(j.fields.Keys <= FieldNames) ==> r == Err(UnexpectedField)
    ensures j.JObj? && j.fields.Keys <= FieldNames && "name" !in j.fields ==> r == Err(MissingName)
    ensures r.Ok? ==> JStr(r.value.name) == j.fields["name"]
    ensures r.Ok? ==> (r.value.address.None? <==> "address" !in j.fields || j.fields["address"] == JNull)
    ensures r.Ok? && r.value.address.Some? ==> j.fields["address"] == JStr(r.value.address.value)
    ensures r.Ok? && "service_uuid" !in j.fields ==> r.value.serviceUuid == DefaultServiceUuid
    ensures r.Ok? && "write_char_uuid" !in j.fields ==> r.value.writeCharUuid == DefaultWriteCharUuid
    ensures r.Ok? && "notify_char_uuid" !in j.fields ==> r.value.notifyCharUuid == DefaultNotifyCharUuid
    ensures r.Ok? && "service_uuid" in j.fields ==> j.fields["service_uuid"] == JStr(r.value.serviceUuid)
    ensures r.Ok? && "write_char_uuid" in j.fields ==> j.fields["write_char_uuid"] == JStr(r.value.writeCharUuid)
    ensures r.Ok? && "notify_char_uuid" in j.fields ==> j.fields["notify_char_uuid"] == JStr(r.value.notifyCharUuid)
  {
    match j
    case JObj(m) =>
      if !(m.Keys <= FieldNames) then Err(UnexpectedField)
      else if "name" !in m then Err(MissingName)
      else
        var address :=
          if "address" !in m || m["address"] == JNull then Some(None)
          else if m["address"].JStr? then Some(Some(m["address"].s))
          else None;
        var service := StringField(m, "service_uuid", DefaultServiceUuid);
        var write := StringField(m, "write_char_uuid", DefaultWriteCharUuid);
        var notify := StringField(m, "notify_char_uuid", DefaultNotifyCharUuid);
        if !m["name"].JStr? || address.None? || service.None? || write.None? || notify.None? then
          Err(WrongType)
        else
          Ok(DeviceConfig(m["name"].s, address.value, service.value, write.value, notify.value))
    case _ => Err(NotAMapping)
  }

  /** A record written by `to_dict` reads back as the same device. */
  lemma FromDictToDict(d: DeviceConfig)
    ensures FromDict(ToDict(d)) == Ok(d)
  {
    var m := ToDict(d).fields;
    assert m.Keys <= FieldNames;
    assert "name" in m && m["name"] == JStr(d.name);
  }

  /** A record holding only a name gives the defaults of `DeviceConfig(name)`. */
  lemma FromDictNameOnly(name: string)
    ensures FromDict(JObj(map["name" := JStr(name)])) == Ok(NewDeviceConfig(name))
  {
    var m := map["name" := JStr(name)];
    assert m.Keys == {"name"};
  }

  // ---------------------------------------------------------------------
  // The insertion-ordered dictionary `devices: Dict[str, DeviceConfig]`.

  /** `order` lists the keys in insertion order; `devices` maps each to its record. */
  datatype Store = Store(order: seq<string>, devices: map<string, DeviceConfig>)

  /** No name occurs twice. */
  ghost predicate Distinct(names: seq<string>) {
    forall i, j :: 0 <= i < j < |names| ==> names[i] != names[j]
  }

  /** Keys are distinct, listed exactly once, and each record sits under its own name. */
  ghost predicate ValidStore(s: Store) {
    Distinct(s.order) &&
    (forall n :: n in s.devices <==> n in s.order) &&
    (forall n :: n in s.devices ==> s.devices[n].name == n)
  }

  const EmptyStore: Store := Store([], map[])

  /** `devices.get(name)`. */
  function Get(s: Store, name: string): Option<DeviceConfig> {
    if name in s.devices then Some(s.devices[name]) else None
  }

  /** `devices[d.name] = d`: a new name goes last, an existing one keeps its place. */
  function Put(s: Store, d: DeviceConfig): (t: Store)
    requires ValidStore(s)
    ensures ValidStore(t)
    ensures Get(t, d.name) == Some(d)
    ensures forall n :: n != d.name ==> Get(t, n) == Get(s, n)
    ensures d.name in s.devices ==> t.order == s.order
    ensures d.name !in s.devices ==> t.order == s.order + [d.name]
  {
    var order := if d.name in s.devices then s.order else s.order + [d.name];
    Store(order, s.devices[d.name := d])
  }

  /** `order` without `name`, the rest in the same order. */
  function Without(order: seq<string>, name: string): (r: seq<string>)
    ensures forall n :: n in r <==> n in order && n != name
    ensures |r| <= |order|
  {
    if order == [] then []
    else if order[0] == name then Without(order[1..], name)
    else [order[0]] + Without(order[1..], name)
  }

  /** Keeping order, dropping a name keeps the remaining names distinct. */
  lemma {:induction false} WithoutDistinct(order: seq<string>, name: string)
    requires Distinct(order)
    ensures Distinct(Without(order, name))
  {
    if order != [] {
      var rest := Without(order[1..], name);
      assert Distinct(order[1..]) by {
        forall i, j | 0 <= i < j < |order[1..]| ensures order[1..][i] != order[1..][j] {
          assert order[1..][i] == order[i + 1] && order[1..][j] == order[j + 1];
        }
      }
      WithoutDistinct(order[1..], name);
      if order[0] != name {
        assert order[0] !in order[1..] by {
          forall k | 0 <= k < |order[1..]| ensures order[1..][k] != order[0] {
            assert order[1..][k] == order[k + 1];
          }
        }
        assert order[0] !in rest;
        var r := [order[0]] + rest;
        forall i, j | 0 <= i < j < |r| ensures r[i] != r[j] {
          assert r[j] == rest[j - 1];
          if i > 0 {
            assert r[i] == rest[i - 1];
          }
        }
      }
    }
  }

  /** `del devices[name]`. */
  function Delete(s: Store, name: string): (t: Store)
    requires ValidStore(s)
    ensures ValidStore(t)
    ensures Get(t, name) == None
    ensures forall n :: n != name ==> Get(t, n) == Get(s, n)
    ensures t.order == Without(s.order, name)
  {
    WithoutDistinct(s.order, name);
    Store(Without(s.order, name), s.devices - {name})
  }

  /** `get_default_device`: the first-inserted device, `None` when empty. */
  function Default(s: Store): (r: Option<DeviceConfig>)
    requires ValidStore(s)
    ensures r == None <==> s.devices == map[]
    ensures r.Some? ==> r == Get(s, s.order[0])
  {
    if |s.order| == 0 then None
    else
      assert s.order[0] in s.devices;
      Some(s.devices[s.order[0]])
  }

  /** Overwriting or adding a device moves the default only when the store
      was empty or the default itself is overwritten. */
  lemma DefaultAfterPut(s: Store, d: DeviceConfig)
    requires ValidStore(s)
    ensures Default(Put(s, d)) ==
            if s.order == [] || s.order[0] == d.name then Some(d) else Default(s)
  {
    if s.order != [] {
      assert s.order[0] in s.devices;
    }
  }

  /** `self.devices.values()` in order. */
  function Values(s: Store): (vs: seq<DeviceConfig>)
    requires ValidStore(s)
    ensures |vs| == |s.order|
    ensures forall i :: 0 <= i < |vs| ==> vs[i] == s.devices[s.order[i]]
  {
    seq(|s.order|, i requires 0 <= i < |s.order| => s.devices[s.order[i]])
  }

  /** Insert records one after the other. */
  function PutAll(s: Store, ds: seq<DeviceConfig>): (t: Store)
    requires ValidStore(s)
    ensures ValidStore(t)
    decreases |ds|
  {
    if ds == [] then s else PutAll(Put(s, ds[0]), ds[1..])
  }

  /** The last record named `name` in `ds`, if any. */
  function LastNamed(ds: seq<DeviceConfig>, name: string): Option<DeviceConfig> {
    if ds == [] then None
    else if ds[|ds| - 1].name == name then Some(ds[|ds| - 1])
    else LastNamed(ds[..|ds| - 1], name)
  }

  /** Later records override earlier ones and the existing entries. */
  lemma {:induction false} GetPutAll(s: Store, ds: seq<DeviceConfig>, name: string)
    requires ValidStore(s)
    ensures Get(PutAll(s, ds), name) ==
            if LastNamed(ds, name).Some? then LastNamed(ds, name) else Get(s, name)
    decreases |ds|
  {
    if ds != [] {
      var front, last := ds[..|ds| - 1], ds[|ds| - 1];
      assert ds == front + [last];
      PutAllSnoc(s, front, last);
      GetPutAll(s, front, name);
      var t := PutAll(s, front);
      assert PutAll(s, ds) == Put(t, last);
      if last.name == name {
        assert Get(Put(t, last), name) == Some(last);
      } else {
        assert Get(Put(t, last), name) == Get(t, name);
        assert LastNamed(ds, name) == LastNamed(front, name);
      }
    }
  }

  /** Inserting a list and then one more record. */
  lemma {:induction false} PutAllSnoc(s: Store, ds: seq<DeviceConfig>, d: DeviceConfig)
    requires ValidStore(s)
    ensures PutAll(s, ds + [d]) == Put(PutAll(s, ds), d)
    decreases |ds|
  {
    if ds == [] {
      assert ds + [d] == [d];
    } else {
      assert (ds + [d])[1..] == ds[1..] + [d];
      PutAllSnoc(Put(s, ds[0]), ds[1..], d);
    }
  }

  /** The store holding the first `k` entries of `s`. */
  function Prefix(s: Store, k: nat): (t: Store)
    requires ValidStore(s) && k <= |s.order|
    ensures ValidStore(t)
  {
    var keys := s.order[..k];
    assert forall n :: n in keys ==> n in s.devices;
    Store(keys, map n | n in keys :: s.devices[n])
  }

  /** Re-inserting a store's values in order, starting from its first `k`
      entries, rebuilds the store. */
  lemma {:induction false} PutAllValuesFrom(s: Store, k: nat)
    requires ValidStore(s) && k <= |s.order|
    ensures PutAll(Prefix(s, k), Values(s)[k..]) == s
    decreases |s.order| - k
  {
    if k == |s.order| {
      assert Values(s)[k..] == [];
      assert s.order[..k] == s.order;
      assert Prefix(s, k).devices == s.devices;
    } else {
      var d := Values(s)[k];
      assert d == s.devices[s.order[k]] && d.name == s.order[k];
      assert d.name !in s.order[..k];
      assert s.order[..k] + [s.order[k]] == s.order[..k + 1];
      assert Put(Prefix(s, k), d).devices == Prefix(s, k + 1).devices;
      assert Put(Prefix(s, k), d) == Prefix(s, k + 1);
      assert Values(s)[k..][1..] == Values(s)[k + 1..];
      PutAllValuesFrom(s, k + 1);
    }
  }

  /** Inserting a store's values, in order, into an empty store rebuilds it. */
  lemma PutAllValues(s: Store)
    requires ValidStore(s)
    ensures PutAll(EmptyStore, Values(s)) == s
  {
    PutAllValuesFrom(s, 0);
    assert Prefix(s, 0) == EmptyStore;
    assert Values(s)[0..] == Values(s);
  }

  // ---------------------------------------------------------------------
  // Documents and files.

  type Path = string

  /** What a file holds: a JSON document, or text that is not valid JSON. */
  datatype FileContent = Document(doc: Json) | Garbled

  type FileSystem = map<Path, FileContent>

  datatype LoadError =
    | FileNotFound(path: Path)
    | InvalidJson(path: Path)
    | NotIterable                 // `devices` holds null, a boolean or a number
    | BadRecord(reason: RecordError)

  /** The values `for device_data in data['devices']` visits. A string is
      visited character by character and an object key by key; each such
      item then fails `from_dict`, so only their presence matters. */
  function DeviceItems(v: Json): Result<seq<Json>, LoadError> {
    match v
    case JArr(items) => Ok(items)
    case JStr(s) => Ok(seq(|s|, i requires 0 <= i < |s| => JStr([s[i]])))
    case JObj(m) => if |m| == 0 then Ok([]) else Err(BadRecord(NotAMapping))
    case _ => Err(NotIterable)
  }

  /** The records a document holds: the `devices` list of the current
      shape, or the whole document as one legacy record. */
  function Records(doc: Json): Result<seq<Json>, LoadError> {
    if doc.JObj? && "devices" in doc.fields then DeviceItems(doc.fields["devices"])
    else Ok([doc])
  }

  /** The store after merging, and the failure that stopped the merge. */
  datatype Merge = Merge(store: Store, failure: Option<LoadError>)

  /** Insert records one by one; the first that `from_dict` rejects stops
      the merge, and the records before it stay inserted. */
  function PutRecords(s: Store, items: seq<Json>): (m: Merge)
    requires ValidStore(s)
    ensures ValidStore(m.store)
    decreases |items|
  {
    if items == [] then Merge(s, None)
    else match FromDict(items[0])
      case Err(e) => Merge(s, Some(BadRecord(e)))
      case Ok(d) => PutRecords(Put(s, d), items[1..])
  }

  /** The devices decoded from `items` before the first record `from_dict` rejects. */
  function DecodedPrefix(items: seq<Json>): seq<DeviceConfig>
    decreases |items|
  {
    if items == [] then []
    else match FromDict(items[0])
      case Err(_) => []
      case Ok(d) => [d] + DecodedPrefix(items[1..])
  }

  /** The decoded prefix is the whole list exactly when every record decodes. */
  lemma {:induction false} DecodedPrefixFull(items: seq<Json>)
    ensures |DecodedPrefix(items)| <= |items|
    ensures |DecodedPrefix(items)| == |items| <==> forall i :: 0 <= i < |items| ==> FromDict(items[i]).Ok?
    decreases |items|
  {
    if items != [] {
      DecodedPrefixFull(items[1..]);
      assert forall i :: 0 < i < |items| ==> items[i] == items[1..][i - 1];
    }
  }

  /** Loading is not atomic: a merge inserts exactly the records before the
      first bad one, and fails precisely when some record is bad. */
  lemma {:induction false} PutRecordsIsPutAll(s: Store, items: seq<Json>)
    requires ValidStore(s)
    ensures PutRecords(s, items).store == PutAll(s, DecodedPrefix(items))
    ensures PutRecords(s, items).failure.None? <==> |DecodedPrefix(items)| == |items|
    ensures PutRecords(s, items).failure.None? <==> forall i :: 0 <= i < |items| ==> FromDict(items[i]).Ok?
    decreases |items|
  {
    DecodedPrefixFull(items);
    if items != [] {
      match FromDict(items[0])
      case Err(_) =>
      case Ok(d) =>
        PutRecordsIsPutAll(Put(s, d), items[1..]);
        assert ([d] + DecodedPrefix(items[1..]))[1..] == DecodedPrefix(items[1..]);
    }
  }

  /** What `load` does to the store with a document it has read. */
  function MergeDocument(s: Store, doc: Json): (m: Merge)
    requires ValidStore(s)
    ensures ValidStore(m.store)
  {
    match Records(doc)
    case Err(e) => Merge(s, Some(e))
    case Ok(items) => PutRecords(s, items)
  }

  /** The document `save` writes: `{"devices": [...]}` in insertion order. */
  function Serialize(s: Store): (doc: Json)
    requires ValidStore(s)
    ensures doc.JObj? && doc.fields.Keys == {"devices"}
    ensures doc.fields["devices"].JArr? && |doc.fields["devices"].items| == |s.order|
    ensures forall i :: 0 <= i < |s.order| ==>
      doc.fields["devices"].items[i] == ToDict(s.devices[s.order[i]])
  {
    var vs := Values(s);
    JObj(map["devices" := JArr(seq(|vs|, i requires 0 <= i < |vs| => ToDict(vs[i])))])
  }

  /** Records written by `to_dict` merge without failure, as `PutAll`. */
  lemma {:induction false} PutRecordsOfDicts(s: Store, ds: seq<DeviceConfig>)
    requires ValidStore(s)
    ensures PutRecords(s, seq(|ds|, i requires 0 <= i < |ds| => ToDict(ds[i]))) ==
            Merge(PutAll(s, ds), None)
    decreases |ds|
  {
    var items := seq(|ds|, i requires 0 <= i < |ds| => ToDict(ds[i]));
    if ds != [] {
      FromDictToDict(ds[0]);
      assert items[1..] == seq(|ds[1..]|, i requires 0 <= i < |ds[1..]| => ToDict(ds[1..][i]));
      PutRecordsOfDicts(Put(s, ds[0]), ds[1..]);
    }
  }

  /** Loading a saved document into a store merges every saved device, in order. */
  lemma MergeSerialized(t: Store, s: Store)
    requires ValidStore(t) && ValidStore(s)
    ensures MergeDocument(t, Serialize(s)) == Merge(PutAll(t, Values(s)), None)
  {
    var vs := Values(s);
    assert Records(Serialize(s)) == Ok(seq(|vs|, i requires 0 <= i < |vs| => ToDict(vs[i])));
    PutRecordsOfDicts(t, vs);
  }

  /** Save then load into an empty store reproduces every device, its five
      fields and the insertion order (so also the default device). */
  lemma SaveLoadRoundTrip(s: Store)
    requires ValidStore(s)
    ensures MergeDocument(EmptyStore, Serialize(s)) == Merge(s, None)
  {
    MergeSerialized(EmptyStore, s);
    PutAllValues(s);
  }

  /** A legacy single-record document gives a one-device store. */
  lemma LoadLegacyRecord(d: DeviceConfig)
    ensures MergeDocument(EmptyStore, ToDict(d)) == Merge(Store([d.name], map[d.name := d]), None)
  {
    FromDictToDict(d);
    var doc := ToDict(d);
    assert "devices" !in doc.fields;
    assert Records(doc) == Ok([doc]);
    assert [doc][1..] == [];
    assert PutRecords(EmptyStore, [doc]) == PutRecords(Put(EmptyStore, d), []);
  }

  /** A record without `name` fails the load. */
  lemma RecordWithoutNameFails(s: Store, address: string)
    requires ValidStore(s)
    ensures MergeDocument(s, JObj(map["devices" := JArr([JObj(map["address" := JStr(address)])])])) ==
            Merge(s, Some(BadRecord(MissingName)))
  {
    var rec := map["address" := JStr(address)];
    assert rec.Keys == {"address"};
  }

  // ---------------------------------------------------------------------
  // The `ConfigManager` object.

  datatype SaveError = NoConfigPath   // `ValueError("No config path specified")`

  class ConfigManager {
    var configPath: Option<Path>
    var order: seq<string>
    var devices: map<string, DeviceConfig>

    ghost predicate Valid()
      reads this
    {
      ValidStore(Store(order, devices))
    }

    /** The dictionary as a value. */
    function Model(): Store
      reads this
    {
      Store(order, devices)
    }

    /** A manager with no devices and no path, before any file is loaded. */
    constructor ()
      ensures Valid() && Model() == EmptyStore && configPath == None
    {
      configPath := None;
      order := [];
      devices := map[];
    }

    /** `add_device`: insert, or overwrite in place. */
    method AddDevice(device: DeviceConfig)
      requires Valid()
      modifies this`order, this`devices
      ensures Valid() && Model() == Put(old(Model()), device)
    {
      if device.name !in devices {
        order := order + [device.name];
      }
      devices := devices[device.name := device];
    }

    /** `remove_device`: True and deleted when present, otherwise False and unchanged. */
    method RemoveDevice(name: string) returns (removed: bool)
      requires Valid()
      modifies this`order, this`devices
      ensures Valid()
      ensures removed == (name in old(devices))
      ensures removed ==> Model() == Delete(old(Model()), name)
      ensures !removed ==> Model() == old(Model())
    {
      if name in devices {
        WithoutDistinct(order, name);
        order := Without(order, name);
        devices := devices - {name};
        removed := true;
      } else {
        removed := false;
      }
    }

    /** `get_device`. */
    function GetDevice(name: string): (r: Option<DeviceConfig>)
      reads this
      requires Valid()
      ensures r.Some? <==> name in order
      ensures r.Some? ==> r.value.name == name && r.value == devices[name]
    {
      Get(Model(), name)
    }

    /** `list_devices`: the names in insertion order. */
    function ListDevices(): (names: seq<string>)
      reads this
      requires Valid()
      ensures forall n :: n in names <==> GetDevice(n).Some?
      ensures forall i, j :: 0 <= i < j < |names| ==> names[i] != names[j]
      ensures names == Model().order
    {
      order
    }

    /** `get_default_device`. */
    function GetDefaultDevice(): (r: Option<DeviceConfig>)
      reads this
      requires Valid()
      ensures r == Default(Model())
    {
      if |order| == 0 then None else Some(devices[order[0]])
    }

    /** `load`: read the document at `path` and merge its records into the
        dictionary, recording `path` for `save` once every record is in. */
    method Load(fs: FileSystem, path: Path) returns (r: Outcome<LoadError>)
      requires Valid()
      modifies this
      ensures Valid()
      ensures path !in fs ==>
        r == Fail(FileNotFound(path)) && Model() == old(Model()) && configPath == old(configPath)
      ensures path in fs && fs[path].Garbled? ==>
        r == Fail(InvalidJson(path)) && Model() == old(Model()) && configPath == old(configPath)
      ensures path in fs && fs[path].Document? ==>
        var m := MergeDocument(old(Model()), fs[path].doc);
        Model() == m.store &&
        (m.failure.None? ==> r == Pass && configPath == Some(path)) &&
        (m.failure.Some? ==> r == Fail(m.failure.value) && configPath == old(configPath))
    {
      if path !in fs {
        return Fail(FileNotFound(path));
      }
      if fs[path].Garbled? {
        return Fail(InvalidJson(path));
      }
      var doc := fs[path].doc;
      var records := Records(doc);
      if records.Err? {
        return Fail(records.error);
      }
      var items := records.value;
      var i := 0;
      while i < |items|
        invariant 0 <= i <= |items| && Valid()
        invariant configPath == old(configPath)
        invariant PutRecords(Model(), items[i..]) == MergeDocument(old(Model()), doc)
      {
        var device := FromDict(items[i]);
        assert items[i..][0] == items[i];
        if device.Err? {
          return Fail(BadRecord(device.error));
        }
        assert items[i..][1..] == items[i + 1..];
        AddDevice(device.value);
        i := i + 1;
      }
      configPath := Some(path);
      r := Pass;
    }

    /** `save`: write `{"devices": [...]}` to the explicit path, else to the
        loaded one, and remember it; without either, fail and change nothing. */
    method Save(fs: FileSystem, path: Option<Path>) returns (fs': FileSystem, r: Outcome<SaveError>)
      requires Valid()
      modifies this`configPath
      ensures path.None? && old(configPath).None? ==>
        r == Fail(NoConfigPath) && fs' == fs && configPath == old(configPath)
      ensures path.Some? || old(configPath).Some? ==>
        var target := if path.Some? then path.value else old(configPath).value;
        r == Pass && configPath == Some(target) &&
        fs' == fs[target := Document(Serialize(Model()))]
    {
      var target := if path.Some? then path else configPath;
      if target.None? {
        return fs, Fail(NoConfigPath);
      }
      fs' := fs[target.value := Document(Serialize(Model()))];
      configPath := target;
      r := Pass;
    }
  }

  /** Saving one manager and loading the file into a new one reproduces the
      devices, their order, and the path. */
  method SaveThenLoad(source: ConfigManager, fs: FileSystem, path: Path)
    returns (target: ConfigManager, fs': FileSystem)
    requires source.Valid()
    modifies source`configPath
    ensures fresh(target) && target.Valid()
    ensures target.Model() == source.Model() && target.configPath == Some(path)
  {
    var saved;
    fs', saved := source.Save(fs, Some(path));
    target := new ConfigManager();
    SaveLoadRoundTrip(source.Model());
    var loaded := target.Load(fs', path);
  }
}
