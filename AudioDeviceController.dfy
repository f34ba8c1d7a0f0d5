/** `ADCControllerManager`: the controllers of the audio-to-digital converters (Audinate AVIO
    AI2 adapters and Yamaha Tio1608 stage boxes), each holding its Dante converters. The manager
    loads them from and saves them to a JSON configuration file `{"controllers": [...]}`, and
    can replace them by a network discovery. */
module AudioDeviceController {
  import opened Wrappers
  import opened JsonValues
  import DeviceFiles

  /** The `DanteADCDevice` dataclass; its constructor checks no field types. */
  datatype DanteAdcDevice = DanteAdcDevice(name: Json, model: Json, ipv4: Json, port: Json,
                                           nbChannels: Json, multicastIp: Json, rtpPayload: Json,
                                           interface: Json, clockRate: Json)

  /** The dataclass's fields, in declaration order. */
  const Fields: seq<string> := ["name", "model", "ipv4", "port", "nb_channels", "multicast_ip",
                               "rtp_payload", "interface", "clock_rate"]

  function Values(d: DanteAdcDevice): (r: seq<Json>)
    ensures |r| == |Fields|
  {
    [d.name, d.model, d.ipv4, d.port, d.nbChannels, d.multicastIp, d.rtpPayload, d.interface, d.clockRate]
  }

  /** The converter holding the given field values. */
  function FromValues(v: seq<Json>): (d: DanteAdcDevice)
    requires |v| == |Fields|
    ensures Values(d) == v
  {
    DanteAdcDevice(v[0], v[1], v[2], v[3], v[4], v[5], v[6], v[7], v[8])
  }

  /** `DanteADCDevice(**dev)`: TypeError unless `dev` is a dict whose keys are exactly the
      nine fields. */
  function FromDict(dev: Json): (r: Result<DanteAdcDevice>)
    ensures r.Ok? <==> DeviceFiles.HasFields(dev, Fields)
    ensures r.Err? ==> r.error == TypeError
    ensures r.Ok? ==> DeviceFiles.FieldValues(dev, Fields) == Ok(Values(r.value))
  {
    match DeviceFiles.FieldValues(dev, Fields)
    case Err(e) => Err(e)
    case Ok(v) => Ok(FromValues(v))
  }

  /** `asdict(device)`. */
  function AsDict(d: DanteAdcDevice): Json
  {
    JObj(DeviceFiles.Entries(Fields, Values(d)))
  }

  /** `DanteADCDevice(**asdict(device))` is the same converter. */
  lemma FromAsDict(d: DanteAdcDevice)
    ensures FromDict(AsDict(d)) == Ok(d)
  {
    assert DeviceFiles.DistinctNames(Fields);
    DeviceFiles.FieldValuesOfEntries(Fields, Values(d));
  }

  /** The controllers: an AVIO AI2 adapter holds its converters, a Yamaha Tio1608 its IP
      address and converters; `Other` stands for any further `BaseController` subclass. */
  datatype Controller =
    | Avio(devices: seq<DanteAdcDevice>)
    | Yamaha(ip: Json, devices: seq<DanteAdcDevice>)
    | Other(devices: seq<DanteAdcDevice>)

  /** The converters of all controllers, controller by controller. */
  function AllDevices(controllers: seq<Controller>): seq<DanteAdcDevice>
  {
    if |controllers| == 0 then []
    else AllDevices(controllers[..|controllers| - 1]) + controllers[|controllers| - 1].devices
  }

  /** A converter is listed exactly when one of the controllers holds it. */
  lemma {:induction false} AllDevicesIff(controllers: seq<Controller>, d: DanteAdcDevice)
    ensures d in AllDevices(controllers) <==> exists k :: 0 <= k < |controllers| && d in controllers[k].devices
  {
    if |controllers| > 0 {
      var last := |controllers| - 1;
      AllDevicesIff(controllers[..last], d);
      if exists k :: 0 <= k < |controllers| && d in controllers[k].devices {
        var k :| 0 <= k < |controllers| && d in controllers[k].devices;
        if k < last {
          assert controllers[..last][k] == controllers[k];
        }
      }
    }
  }

  /** The number of converters is the sum over the controllers. */
  lemma {:induction false} AllDevicesCount(controllers: seq<Controller>, extra: Controller)
    ensures |AllDevices(controllers + [extra])| == |AllDevices(controllers)| + |extra.devices|
  {
    assert (controllers + [extra])[..|controllers|] == controllers;
  }

  // ---- Loading -------------------------------------------------------------------------

  /** The entries of the file's "controllers" list: FileNotFoundError without the file,
      AttributeError when the document is not a dict, ValueError when the list is missing or
      empty, TypeError when it cannot be iterated. */
  function ControllerEntries(files: map<string, Json>, path: string): (r: Result<seq<Json>>)
    ensures path !in files ==> r == Err(FileNotFoundError)
    ensures path in files && files[path].JObj? && !Present(Lookup(files[path].fields, "controllers")) ==>
      r == Err(ValueError)
    ensures r.Ok? ==> path in files && files[path].JObj?
  {
    if path !in files then Err(FileNotFoundError)
    else
      match GetOr(files[path], "controllers", JList([]))
      case Err(e) => Err(e)
      case Ok(v) => if !Truthy(v) then Err(ValueError) else Iterate(v)
  }

  /** A truthy name that is a list or a dict cannot be looked up in the controller map. */
  predicate UnhashableName(fields: seq<(string, Json)>)
  {
    var name := Lookup(fields, "name");
    Present(name) && (name.value.JList? || name.value.JObj?)
  }

  /** The steps an entry goes through before the `try`: `.get("name")` raises
      AttributeError on a non-dict, an entry without a truthy name is skipped (None), and the
      lookup in the controller map raises TypeError on an unhashable name. */
  function EntryName(item: Json): (r: Result<Option<Json>>)
    ensures !item.JObj? ==> r == Err(AttributeError)
    ensures item.JObj? ==> (r.Err? <==> UnhashableName(item.fields))
    ensures r.Err? ==> r.error == AttributeError || r.error == TypeError
    ensures r.Ok? ==> (r.value.Some? <==> Present(Lookup(item.fields, "name")))
    ensures r.Ok? && r.value.Some? ==> Lookup(item.fields, "name") == r.value
  {
    match Get(item, "name")
    case Err(e) => Err(e)
    case Ok(name) =>
      if !Present(name) then Ok(None)
      else if name.value.JList? || name.value.JObj? then Err(TypeError)
      else Ok(name)
  }

  /** `[DanteADCDevice(**dev) for dev in devices_data]` inside the `try`: any failure (a
      value that cannot be iterated, an entry with the wrong keys) is caught and the
      controller skipped (None). */
  function DeviceList(devicesData: Json): (r: Option<seq<DanteAdcDevice>>)
    ensures devicesData.JList? ==>
      (r.Some? <==> DeviceFiles.Records(devicesData.items, FromDict).Ok?)
    ensures devicesData.JList? && r.Some? ==> Ok(r.value) == DeviceFiles.Records(devicesData.items, FromDict)
  {
    match Iterate(devicesData)
    case Err(_) => None
    case Ok(items) =>
      match DeviceFiles.Records(items, FromDict)
      case Err(_) => None
      case Ok(devices) => Some(devices)
  }

  /** The AVIO AI2 branch: an empty or missing "devices" value skips the entry, as does any
      converter that fails to build; otherwise the adapter holds the converters. */
  function AvioEntry(fields: seq<(string, Json)>): (r: Option<Controller>)
    ensures r.Some? ==> r.value.Avio?
  {
    var devicesData := if Lookup(fields, "devices").Some? then Lookup(fields, "devices").value else JList([]);
    if !Truthy(devicesData) then None
    else
      match DeviceList(devicesData)
      case None => None
      case Some(devices) => Some(Avio(devices))
  }

  /** The Yamaha branch's fallback address, `devices_data[0].get("ipv4")`, for a truthy
      `devices_data`: every failure on the way (`len` of a number, indexing a dict, `.get` on
      a string) is caught inside the `try` and skips the entry (None). */
  function FallbackIp(devicesData: Json): Option<Json>
  {
    if devicesData.JList? && |devicesData.items| > 0 && devicesData.items[0].JObj? then
      var ip := Lookup(devicesData.items[0].fields, "ipv4");
      if Present(ip) then ip else None
    else None
  }

  /** The Yamaha branch as it is evidently meant to run: the address is the entry's "ip", or
      else the first converter's "ipv4"; without one the entry is skipped. Building the
      controller connects to the unit (`reachable` says whether that succeeds; a failure is
      caught and skips the entry); converters listed in the entry replace the controller's
      own, and a failure building them skips the entry. */
  function YamahaEntry(fields: seq<(string, Json)>, reachable: Json -> bool): (r: Option<Controller>)
    ensures r.Some? ==> r.value.Yamaha? && Truthy(r.value.ip) && reachable(r.value.ip)
  {
    var devicesData := if Lookup(fields, "devices").Some? then Lookup(fields, "devices").value else JList([]);
    var ip := if Present(Lookup(fields, "ip")) then Lookup(fields, "ip")
              else if Truthy(devicesData) then FallbackIp(devicesData)
              else None;
    if ip.None? || !reachable(ip.value) then None
    else if !Truthy(devicesData) then Some(Yamaha(ip.value, []))
    else
      match DeviceList(devicesData)
      case None => None
      case Some(devices) => Some(Yamaha(ip.value, devices))
  }

  /** One entry of the loop as written: the Yamaha branch calls
      `YamahaTio1608Controller(ip, auto_discovery=False)`, whose constructor takes no
      `auto_discovery` argument, so it always raises TypeError inside the `try` and the entry
      is skipped. */
  function AsWrittenEntry(item: Json): (r: Result<Option<Controller>>)
    ensures r.Ok? && r.value.Some? ==> r.value.value.Avio?
  {
    match EntryName(item)
    case Err(e) => Err(e)
    case Ok(name) =>
      if name.None? then Ok(None)
      else if name.value == JStr("AVIOAI2") then Ok(AvioEntry(item.fields))
      else Ok(None)
  }

  /** One entry of the loop with the Yamaha branch building its controller. */
  function Entry(item: Json, reachable: Json -> bool): (r: Result<Option<Controller>>)
    ensures r.Err? <==> AsWrittenEntry(item).Err?
    ensures r.Err? ==> r.error == AsWrittenEntry(item).error && (r.error == AttributeError || r.error == TypeError)
    ensures r.Ok? && r.value.Some? ==> !r.value.value.Other?
  {
    match EntryName(item)
    case Err(e) => Err(e)
    case Ok(name) =>
      if name.None? then Ok(None)
      else if name.value == JStr("AVIOAI2") then Ok(AvioEntry(item.fields))
      else if name.value == JStr("YamahaTio1608") then Ok(YamahaEntry(item.fields, reachable))
      else Ok(None)
  }

  /** The two differ on Yamaha entries only. */
  lemma EntriesAgree(item: Json, reachable: Json -> bool)
    requires !(item.JObj? && Lookup(item.fields, "name") == Some(JStr("YamahaTio1608")))
    ensures Entry(item, reachable) == AsWrittenEntry(item)
  {
  }

  /** The controllers the loop collects from the entries, in order; the first entry that
      raises outside the `try` stops the load with its exception. */
  function Collect(items: seq<Json>, reachable: Json -> bool): (r: Result<seq<Controller>>)
    ensures r.Ok? ==> |r.value| <= |items|
    ensures r.Ok? ==> forall k :: 0 <= k < |r.value| ==> !r.value[k].Other?
  {
    if |items| == 0 then Ok([])
    else
      match Collect(items[..|items| - 1], reachable)
      case Err(e) => Err(e)
      case Ok(acc) =>
        match Entry(items[|items| - 1], reachable)
        case Err(e) => Err(e)
        case Ok(c) => Ok(acc + (if c.Some? then [c.value] else []))
  }

  /** One more entry of the loop. */
  lemma CollectStep(items: seq<Json>, i: nat, reachable: Json -> bool)
    requires i < |items| && Collect(items[..i], reachable).Ok?
    ensures Entry(items[i], reachable).Err? ==>
      Collect(items[..i + 1], reachable) == Err(Entry(items[i], reachable).error)
    ensures Entry(items[i], reachable) == Ok(None) ==> Collect(items[..i + 1], reachable) == Collect(items[..i], reachable)
    ensures Entry(items[i], reachable).Ok? && Entry(items[i], reachable).value.Some? ==>
      Collect(items[..i + 1], reachable) == Ok(Collect(items[..i], reachable).value + [Entry(items[i], reachable).value.value])
  {
    var acc := Collect(items[..i], reachable).value;
    assert acc + [] == acc;
    assert items[..i + 1][..i] == items[..i];
    assert items[..i + 1][i] == items[i];
  }

  /** Once a prefix of the entries raises, the whole loop raises the same. */
  lemma {:induction false} CollectStops(items: seq<Json>, i: nat, reachable: Json -> bool)
    requires i <= |items| && Collect(items[..i], reachable).Err?
    ensures Collect(items, reachable) == Collect(items[..i], reachable)
    decreases |items|
  {
    if i < |items| {
      var prefix := items[..|items| - 1];
      assert prefix[..i] == items[..i];
      CollectStops(prefix, i, reachable);
    } else {
      assert items[..i] == items;
    }
  }

  /** `load_devices_from_files`, corrected: the controllers the file describes, a saved
      stage box included (`Entry`, where the code as written has `AsWrittenEntry`). */
  function Loaded(files: map<string, Json>, path: string, reachable: Json -> bool): Result<seq<Controller>>
  {
    match ControllerEntries(files, path)
    case Err(e) => Err(e)
    case Ok(items) => Collect(items, reachable)
  }

  // ---- Saving --------------------------------------------------------------------------

  /** The dict `save_devices_to_files` writes for a controller; other controller types are
      skipped. */
  function ControllerDict(c: Controller): (r: Option<Json>)
    ensures r.None? <==> c.Other?
  {
    match c
    case Avio(devices) =>
      Some(JObj([("name", JStr("AVIOAI2")), ("devices", JList(DeviceFiles.Dicts(devices, AsDict)))]))
    case Yamaha(ip, devices) =>
      Some(JObj([("name", JStr("YamahaTio1608")), ("ip", ip),
                 ("devices", JList(DeviceFiles.Dicts(devices, AsDict)))]))
    case Other(_) => None
  }

  /** The entries written for the controllers, in order. */
  function SavedEntries(controllers: seq<Controller>): (r: seq<Json>)
    ensures |r| <= |controllers|
  {
    if |controllers| == 0 then []
    else
      var d := ControllerDict(controllers[|controllers| - 1]);
      SavedEntries(controllers[..|controllers| - 1]) + (if d.Some? then [d.value] else [])
  }

  function SaveDocument(controllers: seq<Controller>): Json
  {
    JObj([("controllers", JList(SavedEntries(controllers)))])
  }

  /** A controller that comes back from its saved entry: an adapter with converters, or a
      stage box with a truthy address that answers. */
  predicate Restorable(c: Controller, reachable: Json -> bool)
  {
    (c.Avio? && |c.devices| > 0) || (c.Yamaha? && Truthy(c.ip) && reachable(c.ip))
  }

  /** Each restorable controller's saved entry loads back as the same controller. */
  lemma EntryOfSaved(c: Controller, reachable: Json -> bool)
    requires Restorable(c, reachable)
    ensures Entry(ControllerDict(c).value, reachable) == Ok(Some(c))
  {
    forall x ensures FromDict(AsDict(x)) == Ok(x) {
      FromAsDict(x);
    }
    DeviceFiles.RecordsOfDicts(c.devices, FromDict, AsDict);
    var items := DeviceFiles.Dicts(c.devices, AsDict);
    if c.Avio? {
      AvioDictFields(items);
      AvioOfSaved(ControllerDict(c).value, items, c.devices, reachable);
    } else {
      YamahaDictFields(c.ip, items);
      YamahaOfSaved(ControllerDict(c).value, c.ip, items, c.devices, reachable);
    }
  }

  /** An entry named "AVIOAI2" whose converters all build gives the adapter holding them. */
  lemma AvioOfSaved(item: Json, items: seq<Json>, devices: seq<DanteAdcDevice>, reachable: Json -> bool)
    requires item.JObj? && Lookup(item.fields, "name") == Some(JStr("AVIOAI2"))
    requires Lookup(item.fields, "devices") == Some(JList(items)) && |items| > 0
    requires DeviceFiles.Records(items, FromDict) == Ok(devices)
    ensures Entry(item, reachable) == Ok(Some(Avio(devices)))
  {
    AvioEntryOf(item.fields, items, devices);
    EntryAvio(item, reachable);
  }

  /** An entry named "YamahaTio1608" with a truthy, reachable "ip" whose converters all
      build gives the stage box holding them. */
  lemma YamahaOfSaved(item: Json, ip: Json, items: seq<Json>, devices: seq<DanteAdcDevice>, reachable: Json -> bool)
    requires item.JObj? && Lookup(item.fields, "name") == Some(JStr("YamahaTio1608"))
    requires Lookup(item.fields, "ip") == Some(ip) && Truthy(ip) && reachable(ip)
    requires Lookup(item.fields, "devices") == Some(JList(items))
    requires DeviceFiles.Records(items, FromDict) == Ok(devices)
    ensures Entry(item, reachable) == Ok(Some(Yamaha(ip, devices)))
  {
    YamahaEntryOf(item.fields, ip, items, devices, reachable);
    EntryYamaha(item, reachable);
  }

  lemma AvioDictFields(items: seq<Json>)
    ensures var fields := [("name", JStr("AVIOAI2")), ("devices", JList(items))];
      Lookup(fields, "name") == Some(JStr("AVIOAI2")) && Lookup(fields, "devices") == Some(JList(items))
  {
  }

  lemma YamahaDictFields(ip: Json, items: seq<Json>)
    ensures var fields := [("name", JStr("YamahaTio1608")), ("ip", ip), ("devices", JList(items))];
      && Lookup(fields, "name") == Some(JStr("YamahaTio1608")) && Lookup(fields, "ip") == Some(ip)
      && Lookup(fields, "devices") == Some(JList(items))
  {
    var fields := [("name", JStr("YamahaTio1608")), ("ip", ip), ("devices", JList(items))];
    LookupDistinct(fields, 0);
    LookupDistinct(fields, 1);
    LookupDistinct(fields, 2);
  }

  lemma AvioEntryOf(fields: seq<(string, Json)>, items: seq<Json>, devices: seq<DanteAdcDevice>)
    requires Lookup(fields, "devices") == Some(JList(items)) && |items| > 0
    requires DeviceFiles.Records(items, FromDict) == Ok(devices)
    ensures AvioEntry(fields) == Some(Avio(devices))
  {
    assert DeviceList(JList(items)) == Some(devices);
  }

  /** A dict entry named "AVIOAI2" takes the AVIO AI2 branch. */
  lemma EntryAvio(item: Json, reachable: Json -> bool)
    requires item.JObj? && Lookup(item.fields, "name") == Some(JStr("AVIOAI2"))
    ensures Entry(item, reachable) == Ok(AvioEntry(item.fields))
  {
    assert EntryName(item) == Ok(Some(JStr("AVIOAI2")));
  }

  /** A dict entry named "YamahaTio1608" takes the Yamaha branch. */
  lemma EntryYamaha(item: Json, reachable: Json -> bool)
    requires item.JObj? && Lookup(item.fields, "name") == Some(JStr("YamahaTio1608"))
    ensures Entry(item, reachable) == Ok(YamahaEntry(item.fields, reachable))
  {
    assert EntryName(item) == Ok(Some(JStr("YamahaTio1608")));
  }

  lemma YamahaEntryOf(fields: seq<(string, Json)>, ip: Json, items: seq<Json>, devices: seq<DanteAdcDevice>,
                      reachable: Json -> bool)
    requires Lookup(fields, "ip") == Some(ip) && Truthy(ip) && reachable(ip)
    requires Lookup(fields, "devices") == Some(JList(items))
    requires DeviceFiles.Records(items, FromDict) == Ok(devices)
    ensures YamahaEntry(fields, reachable) == Some(Yamaha(ip, devices))
  {
    assert Present(Lookup(fields, "ip"));
    if |items| > 0 {
      assert Truthy(JList(items));
      assert DeviceList(JList(items)) == Some(devices);
    } else {
      assert !Truthy(JList(items));
      assert devices == [];
    }
  }

  /** Saving one more controller that is not skipped appends its dict. */
  lemma SavedSnoc(prefix: seq<Controller>, c: Controller)
    requires !c.Other?
    ensures SavedEntries(prefix + [c]) == SavedEntries(prefix) + [ControllerDict(c).value]
  {
    assert (prefix + [c])[..|prefix|] == prefix;
  }

  /** Loading one more entry that yields a controller appends that controller. */
  lemma CollectSnoc(entries: seq<Json>, e: Json, c: Controller, reachable: Json -> bool)
    requires Collect(entries, reachable).Ok? && Entry(e, reachable) == Ok(Some(c))
    ensures Collect(entries + [e], reachable) == Ok(Collect(entries, reachable).value + [c])
  {
    assert (entries + [e])[..|entries|] == entries;
  }

  /** The saved entries of restorable controllers load back as those controllers. */
  lemma {:induction false} CollectSaved(controllers: seq<Controller>, reachable: Json -> bool)
    requires forall k :: 0 <= k < |controllers| ==> Restorable(controllers[k], reachable)
    ensures |SavedEntries(controllers)| == |controllers|
    ensures Collect(SavedEntries(controllers), reachable) == Ok(controllers)
  {
    if |controllers| > 0 {
      var last := |controllers| - 1;
      var prefix := controllers[..last];
      var c := controllers[last];
      assert prefix + [c] == controllers;
      CollectSaved(prefix, reachable);
      EntryOfSaved(c, reachable);
      SavedSnoc(prefix, c);
      CollectSnoc(SavedEntries(prefix), ControllerDict(c).value, c, reachable);
    }
  }

  /** Saving restorable controllers and loading the file gives back the same controllers,
      in the same order. */
  lemma LoadSaved(files: map<string, Json>, path: string, controllers: seq<Controller>, reachable: Json -> bool)
    requires |controllers| > 0
    requires forall k :: 0 <= k < |controllers| ==> Restorable(controllers[k], reachable)
    ensures Loaded(files[path := SaveDocument(controllers)], path, reachable) == Ok(controllers)
  {
    CollectSaved(controllers, reachable);
    SavedDocumentEntries(files, path, controllers);
  }

  /** The saved document's "controllers" list is read back entry for entry. */
  lemma SavedDocumentEntries(files: map<string, Json>, path: string, controllers: seq<Controller>)
    requires |SavedEntries(controllers)| > 0
    ensures ControllerEntries(files[path := SaveDocument(controllers)], path) == Ok(SavedEntries(controllers))
  {
    var entries := SavedEntries(controllers);
    assert GetOr(SaveDocument(controllers), "controllers", JList([])) == Ok(JList(entries));
  }

  /** As written, a saved stage box is lost on reload: its entry is skipped, while the
      intended loop restores it. */
  lemma YamahaNeverLoads(ip: Json, devices: seq<DanteAdcDevice>, reachable: Json -> bool)
    requires Truthy(ip) && reachable(ip)
    ensures AsWrittenEntry(ControllerDict(Yamaha(ip, devices)).value) == Ok(None)
    ensures Entry(ControllerDict(Yamaha(ip, devices)).value, reachable) == Ok(Some(Yamaha(ip, devices)))
  {
    YamahaDictFields(ip, DeviceFiles.Dicts(devices, AsDict));
    EntryOfSaved(Yamaha(ip, devices), reachable);
  }

  // ---- Discovery -----------------------------------------------------------------------

  /** What the Yamaha scan adds to the discovered list as written: the scan returns one
      controller (or None), which `list.extend` cannot iterate, so the TypeError is caught
      and nothing is added. */
  function AsWrittenYamahaFound(yamahaScan: Result<Option<Controller>>): (r: Result<seq<Controller>>)
    ensures r.Err?
  {
    Err(if yamahaScan.Err? then yamahaScan.error else TypeError)
  }

  /** What the Yamaha scan evidently should add: the stage box it found, if any. */
  function YamahaFound(yamahaScan: Result<Option<Controller>>): (r: Result<seq<Controller>>)
    ensures yamahaScan.Ok? && yamahaScan.value.Some? ==> r == Ok([yamahaScan.value.value])
    ensures yamahaScan.Ok? && yamahaScan.value.None? ==> r == Ok([])
  {
    match yamahaScan
    case Err(e) => Err(e)
    case Ok(found) => Ok(if found.Some? then [found.value] else [])
  }

  /** `auto_discover` as written: the registered scans in order, Yamaha's first. */
  function AsWrittenDiscovered(yamahaScan: Result<Option<Controller>>, avioScan: Result<seq<Controller>>)
    : seq<Controller>
  {
    DeviceFiles.Found([AsWrittenYamahaFound(yamahaScan), avioScan])
  }

  /** `auto_discover` with the Yamaha scan's stage box kept. */
  function Discovered(yamahaScan: Result<Option<Controller>>, avioScan: Result<seq<Controller>>)
    : seq<Controller>
  {
    DeviceFiles.Found([YamahaFound(yamahaScan), avioScan])
  }

  /** As written only the AVIO AI2 adapters are ever discovered; as intended the stage box
      the Yamaha scan finds is kept as well. */
  lemma YamahaScanLost(yamahaScan: Result<Option<Controller>>, avioScan: Result<seq<Controller>>, x: Controller)
    ensures x in AsWrittenDiscovered(yamahaScan, avioScan) <==> avioScan.Ok? && x in avioScan.value
    ensures yamahaScan == Ok(Some(x)) ==> x in Discovered(yamahaScan, avioScan)
  {
    var lost := [AsWrittenYamahaFound(yamahaScan), avioScan];
    DeviceFiles.FoundIff(lost, x);
    if avioScan.Ok? && x in avioScan.value {
      assert lost[1].Ok? && x in lost[1].value;
    }
    var kept := [YamahaFound(yamahaScan), avioScan];
    DeviceFiles.FoundIff(kept, x);
    if yamahaScan == Ok(Some(x)) {
      assert kept[0].Ok? && x in kept[0].value;
    }
  }

  // ---- The manager ---------------------------------------------------------------------

  /** The loop of `load_devices_from_files` over the entries. */
  method CollectEntries(items: seq<Json>, reachable: Json -> bool) returns (r: Result<seq<Controller>>)
    ensures r == Collect(items, reachable)
  {
    var loaded := [];
    for i := 0 to |items|
      invariant Collect(items[..i], reachable) == Ok(loaded)
    {
      CollectStep(items, i, reachable);
      var e := Entry(items[i], reachable);
      if e.Err? {
        CollectStops(items, i + 1, reachable);
        return Err(e.error);
      }
      if e.value.Some? {
        loaded := loaded + [e.value.value];
      }
    }
    assert items[..|items|] == items;
    return Ok(loaded);
  }

  class ControllerManager {
    var controllers: seq<Controller>

    constructor ()
      ensures controllers == []
    {
      controllers := [];
    }

    /** The `adc_devices` property. */
    method AdcDevices() returns (devices: seq<DanteAdcDevice>)
      ensures devices == AllDevices(controllers)
      ensures forall d :: d in devices <==> exists k :: 0 <= k < |controllers| && d in controllers[k].devices
    {
      devices := [];
      for i := 0 to |controllers|
        invariant devices == AllDevices(controllers[..i])
      {
        assert controllers[..i + 1][..i] == controllers[..i];
        devices := devices + controllers[i].devices;
      }
      assert controllers[..|controllers|] == controllers;
      forall d ensures d in devices <==> exists k :: 0 <= k < |controllers| && d in controllers[k].devices {
        AllDevicesIff(controllers, d);
      }
    }

    /** `load_devices_from_files`, corrected: a saved stage box is restored, where the code
        as written skips it (YamahaNeverLoads). On success the manager holds the loaded
        controllers; an exception leaves them as they were. */
    method LoadDevicesFromFiles(files: map<string, Json>, path: string, reachable: Json -> bool)
      returns (r: Result<()>)
      modifies this
      ensures r.Ok? <==> Loaded(files, path, reachable).Ok?
      ensures r.Ok? ==> controllers == Loaded(files, path, reachable).value
      ensures r.Err? ==> r.error == Loaded(files, path, reachable).error && controllers == old(controllers)
    {
      var entries := ControllerEntries(files, path);
      if entries.Err? {
        return Err(entries.error);
      }
      var loaded := CollectEntries(entries.value, reachable);
      if loaded.Err? {
        return Err(loaded.error);
      }
      controllers := loaded.value;
      return Ok(());
    }

    /** `save_devices_to_files`: the file is written only when some controller has an
        entry. */
    method SaveDevicesToFiles(store: FileStore, path: string)
      modifies store
      ensures SavedEntries(controllers) == [] ==> store.files == old(store.files)
      ensures SavedEntries(controllers) != [] ==> store.files == old(store.files)[path := SaveDocument(controllers)]
    {
      if |controllers| == 0 {
        return;
      }
      var data := [];
      for i := 0 to |controllers|
        invariant data == SavedEntries(controllers[..i])
      {
        assert controllers[..i + 1][..i] == controllers[..i];
        var d := ControllerDict(controllers[i]);
        if d.Some? {
          data := data + [d.value];
        }
      }
      assert controllers[..|controllers|] == controllers;
      if |data| == 0 {
        return;
      }
      store.Write(path, JObj([("controllers", JList(data))]));
    }

    /** `auto_discover`, corrected: the manager's controllers become the discovered ones,
        the stage box the Yamaha scan found included, where the code as written loses it
        (YamahaScanLost). */
    method AutoDiscover(yamahaScan: Result<Option<Controller>>, avioScan: Result<seq<Controller>>)
      modifies this
      ensures controllers == Discovered(yamahaScan, avioScan)
    {
      controllers := DeviceFiles.Discover([YamahaFound(yamahaScan), avioScan]);
    }
  }
}
