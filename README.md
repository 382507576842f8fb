# Lotus Lamp controller — a Dafny model

This project models the core of `lotus_lamp`. That is the Python library
that drives "Lotus Lamp X" RGB LED lamps over Bluetooth Low Energy (BLE).
The library turns requests into short command packets, which it writes to
the lamp's write characteristic. It holds which lamp to use in a JSON
configuration, and it finds lamps with two scanners:
- a filter over advertisements;
- a heuristic over a connected device's GATT (attribute) structure, which
  suggests the control service and characteristic ids.

Each source file of the core is one module:

| module | file | what it holds |
|---|---|---|
| `Protocol` (protocol.dfy) | `lotus_lamp/controller.py` | the packet builders; the colour table; a `Decode` partner proving the wire format unambiguous |
| `Session` (session.dfy) | `lotus_lamp/controller.py` | the `LotusLamp` class: device choice in `__init__`, `scan`, `connect`, `disconnect`, the send guard and every command; a ghost log records the writes |
| `Config` (config.dfy) | `lotus_lamp/config.py` | `DeviceConfig` and its dictionary form; the ordered device dictionary; the `ConfigManager` class with `load`/`save` over a file system map |
| `Scanner` (scanner.dfy) | `lotus_lamp/scanner.py` | `DeviceInfo`, `scan_all`'s record building, the likely-lamp filter loop, `generate_config` |
| `AdvancedScanner` (discovery.dfy) | `lotus_lamp/advanced_scanner.py` | the `ServiceInfo` class, reading a GATT structure, `identify_lotus_lamp_uuids` (a loop method proved against a specification function) |
| `Modes` (modes.dfy) | `lotus_lamp/modes.py` | mode names, categories, the category/index lookup, and search; the catalog is a parameter with stated invariants |

Small shared modules:
- `Wrappers` holds `Option`, `Result` and `Outcome`.
- `JsonValue` is an abstract JSON document.
- `Ble` holds `BleDevice`, the peer a Bluetooth LE scan reports (name, which may be absent, and address), used by both `Session` and `Scanner`.
- `Text` holds ASCII `lower`/`upper`, substring `in`, `startswith`/`endswith` and decimal formatting.

Python conventions carried into the model:
- `None` is `Option.None`. A raised exception is an `Err`/`Fail` value naming the error.
- `""` and `None` are both falsy wherever the code tests truthiness.
- A `dict` that keeps insertion order is a `seq` of keys plus a `map`.
- Integers are unbounded, as in Python. The packet builders clamp every
  parameter into `0..255`, so each byte they emit is in range.

Three behaviours of the code that the model keeps as written:
- `search_modes("")` returns every mode, because the empty string is a
  substring of every lower-cased name (`Modes.EmptyQueryMatchesAll`).
- The advertisement filter's service test is an exact, case-sensitive list
  membership (`Scanner.ServiceMatchIsCaseSensitive`), although its name
  test ignores case.
- `examples/timer.py` calls `sync_time`, `set_timer_on`, `set_timer_off` and
  `disable_timer_on`/`disable_timer_off`, but `controller.py` defines none
  of them, so no timer packets are modelled.

## Model

| member | source | states |
|---|---|---|
| Protocol.Clamp | lotus_lamp/controller.py:242-244 | `max(lo, min(hi, x))`: the result lies in `[lo, hi]`, is `x` when `x` is in range, and is the nearer bound otherwise |
| Protocol.RgbPacket | lotus_lamp/controller.py:229-247 | the colour packet is `7E 07 05 03 r g b 10 EF`, each channel clamped to 0..255 |
| Protocol.BrightnessPacket | lotus_lamp/controller.py:274-288 | the brightness packet is `7E 07 01 level FF FF FF 00 EF`, the level clamped to 0..100 |
| Protocol.SpeedPacket | lotus_lamp/controller.py:292-308 | the speed packet is `7E 04 02 level FF FF FF 00 EF` (the one command whose length byte is 04), the level clamped to 0..100 |
| Protocol.AnimationPacket | lotus_lamp/controller.py:312-325 | the mode packet is `7E 07 03 mode FF FF FF 00 EF`, the mode clamped to 1..233 |
| Protocol.PowerPacket | lotus_lamp/controller.py:329-350 | the power packet is `7E 07 04 state 00 FF FF 00 EF`, with state 1 for on and 0 for off |
| Protocol.PowerPacketsDifferOnlyInState | lotus_lamp/controller.py:329-350 | the on and off packets differ in the state byte alone |
| Protocol.ClampExamples | lotus_lamp/controller.py:242-244 | out-of-range arguments are clamped, not refused: brightness -10 and 150 become 0 and 100, mode 0 and 500 become 1 and 233, channels -1 and 300 become 0 and 255 |
| Protocol.DecodeEncode | lotus_lamp/controller.py:229-350 | every packet the controller can send decodes back to the request it was built from, with the request's parameters clamped |
| Protocol.EncodeDecode | lotus_lamp/controller.py:229-350 | every packet that decodes is exactly the encoding of its decoded command, so the wire format has no other packets |
| Protocol.EncodeInjective | lotus_lamp/controller.py:229-350 | two requests that give the same packet agree after clamping |
| Protocol.ColorPacket | lotus_lamp/controller.py:249-270 | a colour name is accepted exactly when its lowercase form is in the eleven-entry table; accepted names give that entry's RGB packet, and refused names carry the lowercased name |
| Protocol.ColorPacketIgnoresCase | lotus_lamp/controller.py:265 | the name is lowercased before lookup, so names that differ only in case give the same outcome |
| Protocol.ColorPacketIsRgb | lotus_lamp/controller.py:266-268 | a named colour is sent exactly as `set_rgb` would send its table values |
| Session.ResolveConfig | lotus_lamp/controller.py:83-137 | an explicit config wins; otherwise a non-empty name succeeds exactly when it is stored and yields that record, and a miss lists the stored names; otherwise the result is the store's first device, or an error that depends on whether a config file was named |
| Session.ResolveExamples | lotus_lamp/controller.py:88-104 | with two stored devices: a name picks its own record, no name picks the first, an explicit config overrides both, and any other name is refused listing both names |
| Session.ResolveNothingConfigured | lotus_lamp/controller.py:105-137 | with nothing stored and no explicit config, construction is refused: "no devices configured", or "not found" when a name was given |
| Session.FirstMatch | lotus_lamp/controller.py:164-179 | the index `scan` settles on is the first match: it matches, and no earlier peer does |
| Session.FindByAddress | lotus_lamp/controller.py:165-170 | the address loop stops at the first peer whose address equals the configured one, ignoring case |
| Session.FindByName | lotus_lamp/controller.py:171-179 | the name loop stops at the first peer whose name (or "None") contains the configured name |
| Session.PulseWritesAlternate | lotus_lamp/controller.py:356-360 | `times` pulse rounds write exactly `2 * times` packets, alternating the colour and black |
| Session.LotusLamp.constructor | lotus_lamp/controller.py:72-74 | a new session has the chosen config, no device, no client, is not connected and has written nothing |
| Session.LotusLamp.SendCommand | lotus_lamp/controller.py:219-225 | a connected session appends exactly one write, with the packet and its pause, to the write characteristic; an unconnected one raises "not connected" and writes nothing |
| Session.LotusLamp.SetRgb | lotus_lamp/controller.py:229-247 | when connected, exactly the clamped RGB packet is written; otherwise "not connected" and nothing is written |
| Session.LotusLamp.SetColor | lotus_lamp/controller.py:249-270 | an unknown colour is refused before the connection is checked, writing nothing; a known colour is sent as its RGB packet when connected |
| Session.LotusLamp.SetBrightness | lotus_lamp/controller.py:274-288 | when connected, exactly the brightness packet is written; otherwise "not connected" and nothing is written |
| Session.LotusLamp.SetSpeed | lotus_lamp/controller.py:292-308 | when connected, exactly the speed packet is written; otherwise "not connected" and nothing is written |
| Session.LotusLamp.SetAnimation | lotus_lamp/controller.py:312-325 | when connected, exactly the mode packet is written; otherwise "not connected" and nothing is written |
| Session.LotusLamp.PowerOn | lotus_lamp/controller.py:329-339 | when connected, the "on" packet is written with the longer 500 ms pause; otherwise "not connected" and nothing is written |
| Session.LotusLamp.PowerOff | lotus_lamp/controller.py:341-350 | when connected, the "off" packet is written with the longer 500 ms pause; otherwise "not connected" and nothing is written |
| Session.LotusLamp.Pulse | lotus_lamp/controller.py:354-360 | when connected, the log grows by exactly the pulse writes of `max(times, 0)` rounds; unconnected, nothing is written, and the call fails exactly when `times > 0` |
| Session.LotusLamp.Scan | lotus_lamp/controller.py:159-182 | it succeeds exactly when some peer matches; the first match becomes the device, and a match by name also lends its address to the config; on failure nothing changes |
| Session.LotusLamp.Connect | lotus_lamp/controller.py:184-210 | the four paths of `connect` (direct by stored address; existing device; scan finds nothing; scan finds a peer), each with its resulting config, device, client and connected flag |
| Session.LotusLamp.Disconnect | lotus_lamp/controller.py:212-217 | afterwards the session is not connected and still consistent, whatever its state before; so calling it twice is harmless |
| Session.UnconnectedSession | lotus_lamp/controller.py:219-225 | a fresh session refuses commands, writes nothing and survives repeated disconnects |
| Config.NewDeviceConfig | lotus_lamp/config.py:14-21 | a record built from a name alone has no address and the three default uuids |
| Config.ToDict | lotus_lamp/config.py:23-25 | the dictionary form has exactly the five field names as keys, each holding that field's value, with a missing address as null |
| Config.FromDict | lotus_lamp/config.py:27-30 | non-mappings, unknown keys and a missing `name` are refused; a mapping of the five fields holding strings (or null for the address) with a `name` always loads; on success every present field is the value stored and every absent uuid takes its default |
| Config.FromDictToDict | lotus_lamp/config.py:23-30 | `from_dict(to_dict(d)) == d` for every record |
| Config.FromDictNameOnly | lotus_lamp/config.py:17-30 | `{"name": n}` loads as the record with default uuids and no address |
| Config.Put | lotus_lamp/config.py:168-170 | storing a record keeps names unique, makes it the one under its name, leaves other names alone, and appends the name only when it is new |
| Config.Delete | lotus_lamp/config.py:172-177 | deleting removes that name only and keeps the order of the rest |
| Config.Default | lotus_lamp/config.py:187-196 | the default is absent exactly when the store is empty, and otherwise is the first-inserted device |
| Config.DefaultAfterPut | lotus_lamp/config.py:187-196 | after storing a record, the default is the old first device, or the new record when the store was empty |
| Config.Values | lotus_lamp/config.py:155 | the saved list holds each stored record once, in insertion order |
| Config.GetPutAll | lotus_lamp/config.py:104-112 | after loading a list of records, each name maps to the last record in the list that carries it, or else to what was stored before |
| Config.PutAllValues | lotus_lamp/config.py:154-156 | storing a store's values in order into an empty store rebuilds the same store, order included |
| Config.DecodedPrefixFull | lotus_lamp/config.py:104-112 | the records decoded before the first bad one are all of them exactly when every record decodes |
| Config.PutRecordsIsPutAll | lotus_lamp/config.py:104-112 | loading is not atomic: the records before the first bad one stay merged, and loading reports success exactly when every record decodes |
| Config.Serialize | lotus_lamp/config.py:154-156 | the saved document is `{"devices": [...]}` whose i-th entry is `ToDict` of the i-th stored device in insertion order |
| Config.PutRecordsOfDicts | lotus_lamp/config.py:104-112 | loading the dictionary forms of records is the same as storing the records themselves, with no failure |
| Config.MergeSerialized | lotus_lamp/config.py:84-166 | loading a saved document into any store merges in every saved record, in order, and cannot fail |
| Config.SaveLoadRoundTrip | lotus_lamp/config.py:84-166 | saving a store and loading the file into an empty manager gives back the same store, order included |
| Config.LoadLegacyRecord | lotus_lamp/config.py:109-112 | a single-device document without a `devices` list loads as that one device |
| Config.RecordWithoutNameFails | lotus_lamp/config.py:104-112 | a stored record without a `name` makes loading fail with "missing name" and changes nothing |
| Config.ConfigManager.constructor | lotus_lamp/config.py:52-53 | a new manager has no devices and no path |
| Config.ConfigManager.AddDevice | lotus_lamp/config.py:168-170 | the manager's store becomes `Put` of the old store |
| Config.ConfigManager.RemoveDevice | lotus_lamp/config.py:172-177 | the result is true exactly when the name was stored; then the store becomes `Delete` of the old store, and otherwise it is unchanged |
| Config.ConfigManager.GetDevice | lotus_lamp/config.py:179-181 | a record is found exactly when the name is stored, and it carries that name |
| Config.ConfigManager.ListDevices | lotus_lamp/config.py:183-185 | the listed names are exactly those `get_device` finds, each once, in insertion order |
| Config.ConfigManager.GetDefaultDevice | lotus_lamp/config.py:187-196 | it returns the store's first device, or nothing when the store is empty |
| Config.ConfigManager.Load | lotus_lamp/config.py:84-134 | a missing file or invalid JSON changes nothing; otherwise the records are merged one by one as `MergeDocument` says, and the path is kept only when all of them loaded |
| Config.ConfigManager.Save | lotus_lamp/config.py:136-166 | it writes the serialized store to the given path, else to the loaded path, and remembers that path; with neither it fails and writes nothing |
| Config.SaveThenLoad | lotus_lamp/config.py:136-166 | saving one manager and loading the file into a new one reproduces its devices in order, and records the path |
| Scanner.ToDict | lotus_lamp/scanner.py:22-29 | the record's dictionary has exactly the keys name, address, rssi and services, holding the record's values, the services as a list of the same strings in order |
| Scanner.ToDictFromDict | lotus_lamp/scanner.py:22-29 | reading a record's dictionary back gives the same record |
| Scanner.DisplayName | lotus_lamp/scanner.py:80 | a missing or empty name shows as "Unknown"; any other name is kept |
| Scanner.PeerRecord | lotus_lamp/scanner.py:72-84 | a peer without advertisement data gets rssi 0 and no services; otherwise it gets the advertised rssi and service list |
| Scanner.ScanAll | lotus_lamp/scanner.py:69-87 | one record per peer, in order, each as `PeerRecord` says |
| Scanner.FilterLikelyLamps | lotus_lamp/scanner.py:103-116 | the loop's result is the order-preserving filter by name pattern or known service |
| Scanner.LikelyLampsMembers | lotus_lamp/scanner.py:103-116 | a record is kept exactly when it is in the input and matches by name or service |
| Scanner.LikelyLampsSubsequence | lotus_lamp/scanner.py:104-114 | the kept records are the input at strictly increasing indices, so their order is preserved |
| Scanner.NameMatchIgnoresCase | lotus_lamp/scanner.py:106-107 | the name test gives the same answer for a name and its upper- or lower-case form |
| Scanner.NameMatchIsCaseInsensitive | lotus_lamp/scanner.py:106-107 | "lotus" matches the pattern "Lotus" |
| Scanner.UnknownMatchesNoPattern | lotus_lamp/scanner.py:106-107 | the placeholder name "Unknown" matches no pattern |
| Scanner.ServiceMatchIsCaseSensitive | lotus_lamp/scanner.py:110-111 | the lamp service advertised in lower case is not recognised |
| Scanner.LowerCaseServiceNotKept | lotus_lamp/scanner.py:104-114 | an unnamed peer advertising the lamp service in lower case is filtered out |
| Scanner.OrDefault | lotus_lamp/scanner.py:136-141 | a falsy (absent or empty) uuid is replaced by the default; a truthy one is kept |
| Scanner.GenerateConfig | lotus_lamp/scanner.py:119-149 | the generated dictionary has the five config keys, the device's name and address, and each uuid or its default |
| Scanner.GeneratedConfigLoads | lotus_lamp/scanner.py:119-149 | a generated dictionary loads as a device config with those same name, address and uuids |
| Scanner.GeneratedDefaults | lotus_lamp/scanner.py:135-141 | with no uuids given, the generated config loads with the three default uuids |
| AdvancedScanner.ServiceInfo.constructor | lotus_lamp/advanced_scanner.py:16-19 | a new service has its uuid and description and no characteristics |
| AdvancedScanner.ServiceInfo.AddCharacteristic | lotus_lamp/advanced_scanner.py:21-26 | the characteristic is appended after the existing ones |
| AdvancedScanner.ServiceInfo.ToDict | lotus_lamp/advanced_scanner.py:28-34 | the record carries the service's uuid, description and characteristics in order |
| AdvancedScanner.Lookup | lotus_lamp/advanced_scanner.py:89-92 | the description is the first table entry for the uuid, or the default when there is none |
| AdvancedScanner.PropertyNames | lotus_lamp/advanced_scanner.py:96-111 | each of the five property names is listed exactly when its BLE flag is present |
| AdvancedScanner.PropertyNamesInOrder | lotus_lamp/advanced_scanner.py:97-109 | only the five property names appear, each at most once, in the order READ, WRITE, WRITE_NO_RESPONSE, NOTIFY, INDICATE |
| AdvancedScanner.DescribeCharacteristicsAt | lotus_lamp/advanced_scanner.py:96-111 | the k-th characteristic record describes the k-th GATT characteristic |
| AdvancedScanner.DescribeServicesAt | lotus_lamp/advanced_scanner.py:86-113 | the k-th service record describes the k-th GATT service |
| AdvancedScanner.ReadService | lotus_lamp/advanced_scanner.py:87-112 | the loop builds exactly the service's description record |
| AdvancedScanner.ReadStructure | lotus_lamp/advanced_scanner.py:80-116 | the structure holds the address and one record per GATT service, in order |
| AdvancedScanner.LampServiceIndex | lotus_lamp/advanced_scanner.py:166-184 | the loop breaks at the first standard lamp service, and no earlier service is one |
| AdvancedScanner.LastVendorUuid | lotus_lamp/advanced_scanner.py:187-190 | the service id is empty exactly when no `0000FFxx` vendor service was seen |
| AdvancedScanner.FirstWriter | lotus_lamp/advanced_scanner.py:196-197 | the write slot is filled by the first write-without-response characteristic with a non-empty id |
| AdvancedScanner.FirstNotifier | lotus_lamp/advanced_scanner.py:198-199 | the notify slot is filled by the first notify characteristic that is not taking the write slot at that moment |
| AdvancedScanner.Complete | lotus_lamp/advanced_scanner.py:202-207 | a suggestion is returned exactly when all three ids are set |
| AdvancedScanner.VendorOnlyTier | lotus_lamp/advanced_scanner.py:186-199 | without a lamp service, any suggestion is medium confidence and names the last vendor service |
| AdvancedScanner.LampTier | lotus_lamp/advanced_scanner.py:170-184 | a suggestion from the lamp service names the standard service with high confidence |
| AdvancedScanner.Identify | lotus_lamp/advanced_scanner.py:151-207 | a suggestion always has all three ids set |
| AdvancedScanner.FirstWriterSnoc | lotus_lamp/advanced_scanner.py:196-197 | one more characteristic changes the write slot only when the slot is still empty |
| AdvancedScanner.FirstNotifierSnoc | lotus_lamp/advanced_scanner.py:198-199 | one more characteristic changes the notify slot only when the slot is empty and the write branch did not take it |
| AdvancedScanner.VendorWriteSnoc | lotus_lamp/advanced_scanner.py:196-197 | the uppercased write slot after one more characteristic |
| AdvancedScanner.VendorNotifySnoc | lotus_lamp/advanced_scanner.py:198-199 | the uppercased notify slot after one more characteristic |
| AdvancedScanner.FillFromLampService | lotus_lamp/advanced_scanner.py:175-182 | the lamp service fills the write and notify slots with the standard ids exactly when it holds them, and otherwise keeps what was there |
| AdvancedScanner.VendorSlotsStep | lotus_lamp/advanced_scanner.py:193-199 | one step of the vendor characteristic loop, in terms of the slots so far |
| AdvancedScanner.FillFromVendorService | lotus_lamp/advanced_scanner.py:193-199 | the vendor loop leaves the slots as the specification gives them for all vendor characteristics seen so far |
| AdvancedScanner.VisitService | lotus_lamp/advanced_scanner.py:186-199 | one visit of a service before the lamp service advances the three slots to their values over one more service |
| AdvancedScanner.IdentifyLotusLampUuids | lotus_lamp/advanced_scanner.py:151-207 | the loop with its `break` returns exactly `Identify` of the service list |
| AdvancedScanner.IgnoresAfterLampService | lotus_lamp/advanced_scanner.py:184 | services after the first lamp service never change the suggestion |
| AdvancedScanner.LampServiceDecides | lotus_lamp/advanced_scanner.py:175-184 | a lamp service holding both standard characteristics yields the standard high-confidence suggestion |
| AdvancedScanner.StandardLampIsHigh | lotus_lamp/advanced_scanner.py:170-184 | whatever precedes it, a first lamp service with both standard characteristics gives the standard high suggestion |
| AdvancedScanner.NoCandidateServices | lotus_lamp/advanced_scanner.py:202-207 | with neither a lamp nor a vendor service, there is no suggestion |
| AdvancedScanner.VendorServiceAppended | lotus_lamp/advanced_scanner.py:187-190 | a vendor service becomes the service id (uppercased) and contributes its characteristics to the slot search |
| AdvancedScanner.LaterVendorServiceOverrides | lotus_lamp/advanced_scanner.py:187-199 | with no lamp service, a later vendor service replaces the service id while earlier filled slots stay |
| AdvancedScanner.LoneVendorService | lotus_lamp/advanced_scanner.py:186-207 | a single vendor service yields a medium suggestion exactly when its own characteristics fill both slots |
| AdvancedScanner.BothKindsFillsWriteOnly | lotus_lamp/advanced_scanner.py:196-199 | a characteristic that both writes and notifies fills only the write slot (the `elif`) |
| AdvancedScanner.FirstWriterKeepsSlot | lotus_lamp/advanced_scanner.py:196-199 | once a write-and-notify characteristic takes the write slot, a later writer does not replace it and a later notify-only characteristic fills the notify slot |
| AdvancedScanner.BothKindsNotifiesAfterWriter | lotus_lamp/advanced_scanner.py:196-199 | after a plain writer, a write-and-notify characteristic fills the notify slot |
| AdvancedScanner.LoneNotifier | lotus_lamp/advanced_scanner.py:198-199 | a lone notify characteristic fills the notify slot with its uppercased id |
| AdvancedScanner.LampServiceBorrowsVendorNotify | lotus_lamp/advanced_scanner.py:166-207 | a lamp service lacking the standard notify characteristic keeps the notify id an earlier vendor service supplied, still at high confidence |
| AdvancedScanner.IdentifyIgnoresCase | lotus_lamp/advanced_scanner.py:167 | service lists that differ only in the case of their ids give the same suggestion |
| AdvancedScanner.LowerCaseIdsIdentifiedAlike | lotus_lamp/advanced_scanner.py:167-199 | lowercasing every service and characteristic id does not change the suggestion |
| Modes.Find | lotus_lamp/modes.py:38 | `dict.get`, used for both the mode names and the categories: a value is found exactly when the key is listed, and then it is that key's entry |
| Modes.ModeName | lotus_lamp/modes.py:24-38 | a listed mode gets its catalog name; any other number gets "Unknown Mode n" |
| Modes.ModeNameOfEntry | lotus_lamp/modes.py:38 | with distinct keys, every listed mode's name is its own entry |
| Modes.CategoryOf | lotus_lamp/modes.py:41-58 | the category is the first one, in dictionary order, that lists the mode, and "unknown" when none does |
| Modes.GetModeCategory | lotus_lamp/modes.py:55-58 | the loop with its early return gives the first category that lists the mode, else "unknown" |
| Modes.CategoryOfOnlyHolder | lotus_lamp/modes.py:55-57 | a mode listed by exactly one category gets that category |
| Modes.EveryModeHasCategory | lotus_lamp/modes.py:41-58 | in a valid catalog, every mode 0..212 has a real category that lists it |
| Modes.OutsideModesUnknown | lotus_lamp/modes.py:58 | in a valid catalog, numbers outside 0..212 are "unknown" |
| Modes.ModeByCategoryIndex | lotus_lamp/modes.py:61-91 | an unknown category is refused first; then an index outside `1..len` is refused; otherwise the result is the `index-1`-th listed mode |
| Modes.IndexThenCategory | lotus_lamp/modes.py:79-91 | a mode found by category and index belongs to that category |
| Modes.FindEntry | lotus_lamp/modes.py:85 | with distinct keys, every entry is found under its own key, so each category's lookup returns its own list |
| Modes.EntryAtIndex | lotus_lamp/modes.py:85-91 | the `k`-th mode listed by a category is what index `k + 1` of that category returns |
| Modes.CategoryThenIndex | lotus_lamp/modes.py:61-91 | every mode 0..212 is reachable through its own category at some 1-based index |
| Modes.SortByModeSorts | lotus_lamp/modes.py:117 | the results are in ascending mode order |
| Modes.SortByModePermutes | lotus_lamp/modes.py:117 | sorting neither loses nor adds results |
| Modes.SearchModes | lotus_lamp/modes.py:94-117 | the search loop returns exactly the sorted matches |
| Modes.MatchesInMembers | lotus_lamp/modes.py:112-115 | a triple is a match exactly when its mode is listed, its lowercased name contains the lowercased query, and the category is that mode's category |
| Modes.SearchResults | lotus_lamp/modes.py:94-117 | the results are sorted by mode, and a triple is in them exactly when it matches the query case-insensitively |
| Modes.SearchIgnoresCase | lotus_lamp/modes.py:109 | an upper-cased query gives the same results |
| Modes.EmptyQueryMatchesAll | lotus_lamp/modes.py:109-115 | the empty query returns one result per listed mode, each with its category |

## Left out

- The BLE transport (`BleakScanner`, `BleakClient`) is not modelled. Scan
  results, connection outcomes and advertisement data are parameters; each
  write is an entry in a ghost log.
- Concurrency and `async` are not modelled; each coroutine is one sequential method.
- Timers and sleeps are not modelled. The 100 ms and 500 ms pauses after a
  write are recorded as numbers in the log.
- Reading and writing files, and parsing JSON text, are not modelled. A file
  system is a map from path to either a JSON document or unparsable text.
- `_load_from_defaults` and `DEFAULT_CONFIG_LOCATIONS` probe the disk, so they are not modelled. `ConfigManager()` starts empty.
- The `ConfigManager(config_path)` constructor's existence check is not
  modelled: its `FileNotFoundError` is the `FileNotFound` result of `Load`.
- `save`'s catch-all exception path (an unwritable file) is not modelled; a save to a path always succeeds.
- `create_default_config` writes a sample file; it is not modelled.
- Floating point is not modelled, so neither are `_hsv_to_rgb`, `rainbow_cycle`,
  `pulse`'s `duration` argument or `scan`'s timeout.
- Printing, the `verbose` flag and the `LOTUS_LAMP_VERBOSE` variable are not modelled.
  `print_device_structure`, `print_uuid_suggestions` and `KNOWN_CHARACTERISTICS`
  only format output, so they are not modelled either.
- The setup wizard, `__main__`, the examples and the interactive tools are outside the library core, so they are not modelled.
- The 213 mode names and the category lists are data, not logic. They are not reproduced:
  the catalog is a parameter, and `ValidCatalog` states the invariants
  the data is meant to satisfy.
- Case conversion is ASCII only. Python's Unicode `lower`/`upper` is not modelled.
- Config.FromDict: refuses a present field whose JSON value is not a string
  (or `null` for `address`), where Python's dataclass would store the
  value unchecked.
- Session.LotusLamp.Scan and Session.LotusLamp.Connect: the session's config is a value. In Python it is a `DeviceConfig` object that the caller or a `ConfigManager` may also hold. So the address that `scan` sets, or that `connect` clears, is visible to them too; that aliasing is not modelled.
- Session.LotusLamp.Connect: a failed connection attempt is an outcome parameter. The exception's message is not modelled.
