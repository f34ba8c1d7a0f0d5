/** `Devices`: the stream devices of the configuration file, validated by the static
    checkup and turned into `Device` records. */
module Devices {
  import opened Wrappers
  import opened JsonValues
  import opened StaticCheckup
  import opened Strings
  import DeviceFiles

  /** The `Device` dataclass. Its constructor takes exactly the seven fields as keywords and
      checks no types, so each field holds whatever value the file had. */
  datatype Device = Device(name: Json, model: Json, ip: Json, port: Json, multicastIp: Json,
                           rtp: Json, interface: Json)

  /** The dataclass's fields, in declaration order. */
  const Fields: seq<string> := ["name", "model", "ip", "port", "multicast_ip", "rtp", "interface"]

  function Values(d: Device): (r: seq<Json>)
    ensures |r| == |Fields|
  {
    [d.name, d.model, d.ip, d.port, d.multicastIp, d.rtp, d.interface]
  }

  /** The device holding the given field values. */
  function FromValues(v: seq<Json>): (d: Device)
    requires |v| == |Fields|
    ensures Values(d) == v
  {
    Device(v[0], v[1], v[2], v[3], v[4], v[5], v[6])
  }

  /** `Device(**dev)`: TypeError unless `dev` is a dict whose keys are exactly the seven
      fields; each field takes the value stored under its name. */
  function FromDict(dev: Json): (r: Result<Device>)
    ensures r.Ok? <==> DeviceFiles.HasFields(dev, Fields)
    ensures r.Err? ==> r.error == TypeError
    ensures r.Ok? ==> DeviceFiles.FieldValues(dev, Fields) == Ok(Values(r.value))
  {
    match DeviceFiles.FieldValues(dev, Fields)
    case Err(e) => Err(e)
    case Ok(v) => Ok(FromValues(v))
  }

  /** `asdict(device)`. */
  function AsDict(d: Device): Json
  {
    JObj(DeviceFiles.Entries(Fields, Values(d)))
  }

  /** `Device(**asdict(device))` is the same device. */
  lemma FromAsDict(d: Device)
    ensures FromDict(AsDict(d)) == Ok(d)
  {
    assert DeviceFiles.DistinctNames(Fields);
    DeviceFiles.FieldValuesOfEntries(Fields, Values(d));
  }

  /** `Devices.load_devices`. */
  function LoadDevices(files: map<string, Json>, path: string): Result<seq<Device>>
  {
    DeviceFiles.Load(files, path, Checkup, FromDict)
  }

  /** A missing file raises FileNotFoundError; a missing or empty "devices" list ValueError. */
  lemma LoadDevicesErrors(files: map<string, Json>, path: string)
    ensures path !in files ==> LoadDevices(files, path) == Err(FileNotFoundError)
    ensures path in files && files[path].JObj? && !Present(Lookup(files[path].fields, "devices")) ==>
      LoadDevices(files, path) == Err(ValueError)
  {
  }

  /** A successful load gives one device per entry of the file's "devices" list, in order,
      and every entry is valid. */
  lemma LoadDevicesOk(files: map<string, Json>, path: string)
    requires LoadDevices(files, path).Ok?
    ensures path in files && files[path].JObj?
    ensures var v := Lookup(files[path].fields, "devices");
      && v.Some? && v.value.JList?
      && ValidList(v.value.items)
      && |LoadDevices(files, path).value| == |v.value.items|
      && forall k :: 0 <= k < |v.value.items| ==> Ok(LoadDevices(files, path).value[k]) == FromDict(v.value.items[k])
  {
    DeviceFiles.LoadOk(files, path, Checkup, FromDict);
    var v := Lookup(files[path].fields, "devices").value;
    var items := Iterate(v).value;
    CheckupIff(items);
  }

  /** An entry that passes the checkup but has no "interface" key stops the load with
      TypeError: the checkup does not require the field, the dataclass does. */
  lemma MissingInterface(files: map<string, Json>, path: string, items: seq<Json>, k: nat)
    requires path in files && files[path].JObj?
    requires Lookup(files[path].fields, "devices") == Some(JList(items))
    requires Checkup(items) == Ok(true)
    requires k < |items| && items[k].JObj? && "interface" !in Keys(items[k].fields)
    ensures LoadDevices(files, path) == Err(TypeError)
  {
    assert GetOr(files[path], "devices", JList([])) == Ok(JList(items));
    assert Truthy(JList(items));
    assert Fields[6] == "interface" && !DeviceFiles.HasFields(items[k], Fields);
    var loaded := DeviceFiles.Records(items, FromDict);
    var j :| 0 <= j < |items| && FromDict(items[j]) == Err(loaded.error);
  }

  /** `Devices.add_device`. */
  method AddDevice(store: FileStore, path: string, device: Device, devices: ListRef?<Device>)
    returns (r: Result<ListRef<Device>>)
    modifies store, devices
    ensures var reuse := devices != null && |old(devices.items)| > 0;
      var base := if reuse then Ok(old(devices.items))
                  else if path in old(store.files) then LoadDevices(old(store.files), path)
                  else Ok([]);
      && (base.Err? ==> r == Err(base.error) && store.files == old(store.files))
      && (devices != null && (base.Err? || !reuse) ==> devices.items == old(devices.items))
      && (base.Ok? ==>
            var all := base.value + [device];
            var verdict := Checkup(DeviceFiles.Dicts(all, AsDict));
            && (reuse ==> devices.items == all)
            && (verdict != Ok(true) ==>
                  && r == Err(if verdict.Err? then verdict.error else ValueError)
                  && store.files == old(store.files))
            && (verdict == Ok(true) ==>
                  && r.Ok? && r.value.items == all
                  && (reuse ==> r.value == devices) && (!reuse ==> fresh(r.value))
                  && store.files == old(store.files)[path := DeviceFiles.Document(all, AsDict)]))
  {
    r := DeviceFiles.AddRecord(store, path, device, devices, Checkup, FromDict, AsDict);
  }

  /** A list written by a successful `add_device` loads back as the same devices. */
  lemma AddedReloads(files: map<string, Json>, path: string, all: seq<Device>)
    requires |all| > 0 && Checkup(DeviceFiles.Dicts(all, AsDict)) == Ok(true)
    ensures LoadDevices(files[path := DeviceFiles.Document(all, AsDict)], path) == Ok(all)
  {
    forall d ensures FromDict(AsDict(d)) == Ok(d) {
      FromAsDict(d);
    }
    DeviceFiles.SavedReloads(files, path, all, Checkup, FromDict, AsDict);
  }

  /** `Devices.to_string`. */
  function ToString(d: Device): string
  {
    DeviceFiles.Summary(Values(d))
  }

  /** A summary whose field texts hold no comma splits back into its labelled fields. */
  lemma ToStringFields(d: Device)
    requires ',' !in Str(d.name) && ',' !in Str(d.model) && ',' !in Str(d.ip) && ',' !in Str(d.port)
    requires ',' !in Str(d.multicastIp) && ',' !in Str(d.rtp) && ',' !in Str(d.interface)
    ensures Split(ToString(d), ',') == ["Device: " + Str(d.name), " Model: " + Str(d.model),
      " IP: " + Str(d.ip), " Port: " + Str(d.port), " Multicast IP: " + Str(d.multicastIp),
      " RTP: " + Str(d.rtp), " Interface: " + Str(d.interface)]
  {
    DeviceFiles.SummaryFields(Values(d));
  }
}
