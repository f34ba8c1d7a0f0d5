/** `ADCDeviceManager`: the audio-to-digital converters of the configuration file. Loading
    and adding follow the same file pattern as the stream devices; the validator the manager
    imports is not part of this model, so it is a parameter, as are the vendor scans that
    auto-discovery runs. */
module AdcDeviceManager {
  import opened Wrappers
  import opened JsonValues
  import opened Strings
  import DeviceFiles

  /** The `ADCDevice` dataclass; as with `Device`, the constructor checks no field types. */
  datatype AdcDevice = AdcDevice(name: Json, model: Json, ipv4: Json, port: Json, multicastIp: Json,
                                 rtpPayload: Json, interface: Json)

  /** The dataclass's fields, in declaration order. */
  const Fields: seq<string> := ["name", "model", "ipv4", "port", "multicast_ip", "rtp_payload", "interface"]

  function Values(d: AdcDevice): (r: seq<Json>)
    ensures |r| == |Fields|
  {
    [d.name, d.model, d.ipv4, d.port, d.multicastIp, d.rtpPayload, d.interface]
  }

  /** The converter holding the given field values. */
  function FromValues(v: seq<Json>): (d: AdcDevice)
    requires |v| == |Fields|
    ensures Values(d) == v
  {
    AdcDevice(v[0], v[1], v[2], v[3], v[4], v[5], v[6])
  }

  /** `ADCDevice(**dev)`: TypeError unless `dev` is a dict whose keys are exactly the seven
      fields. */
  function FromDict(dev: Json): (r: Result<AdcDevice>)
    ensures r.Ok? <==> DeviceFiles.HasFields(dev, Fields)
    ensures r.Err? ==> r.error == TypeError
    ensures r.Ok? ==> DeviceFiles.FieldValues(dev, Fields) == Ok(Values(r.value))
  {
    match DeviceFiles.FieldValues(dev, Fields)
    case Err(e) => Err(e)
    case Ok(v) => Ok(FromValues(v))
  }

  /** `asdict(device)`. */
  function AsDict(d: AdcDevice): Json
  {
    JObj(DeviceFiles.Entries(Fields, Values(d)))
  }

  /** `ADCDevice(**asdict(device))` is the same converter. */
  lemma FromAsDict(d: AdcDevice)
    ensures FromDict(AsDict(d)) == Ok(d)
  {
    assert DeviceFiles.DistinctNames(Fields);
    DeviceFiles.FieldValuesOfEntries(Fields, Values(d));
  }

  /** `ADCDeviceManager.load_devices_from_files`, with `check` for the manager's validator. */
  function LoadDevicesFromFiles(files: map<string, Json>, path: string, check: seq<Json> -> Result<bool>)
    : Result<seq<AdcDevice>>
  {
    DeviceFiles.Load(files, path, check, FromDict)
  }

  /** FileNotFoundError without the file, ValueError without a "devices" list. */
  lemma LoadMissing(files: map<string, Json>, path: string, check: seq<Json> -> Result<bool>)
    ensures path !in files ==> LoadDevicesFromFiles(files, path, check) == Err(FileNotFoundError)
    ensures path in files && files[path].JObj? && !Present(Lookup(files[path].fields, "devices")) ==>
      LoadDevicesFromFiles(files, path, check) == Err(ValueError)
  {
  }

  /** With a non-empty "devices" list, the validator decides: False gives ValueError, True
      one converter per entry in file order. */
  lemma LoadValidated(files: map<string, Json>, path: string, check: seq<Json> -> Result<bool>, items: seq<Json>)
    requires path in files && files[path].JObj? && |items| > 0
    requires Lookup(files[path].fields, "devices") == Some(JList(items))
    ensures check(items) == Ok(false) ==> LoadDevicesFromFiles(files, path, check) == Err(ValueError)
    ensures check(items) == Ok(true) ==> LoadDevicesFromFiles(files, path, check) == DeviceFiles.Records(items, FromDict)
  {
    assert GetOr(files[path], "devices", JList([])) == Ok(JList(items));
    assert Truthy(JList(items));
  }

  /** `ADCDeviceManager.add_device`. */
  method AddDevice(store: FileStore, path: string, device: AdcDevice, devices: ListRef?<AdcDevice>,
                   check: seq<Json> -> Result<bool>)
    returns (r: Result<ListRef<AdcDevice>>)
    modifies store, devices
    ensures var reuse := devices != null && |old(devices.items)| > 0;
      var base := if reuse then Ok(old(devices.items))
                  else if path in old(store.files) then LoadDevicesFromFiles(old(store.files), path, check)
                  else Ok([]);
      && (base.Err? ==> r == Err(base.error) && store.files == old(store.files))
      && (devices != null && (base.Err? || !reuse) ==> devices.items == old(devices.items))
      && (base.Ok? ==>
            var all := base.value + [device];
            var verdict := check(DeviceFiles.Dicts(all, AsDict));
            && (reuse ==> devices.items == all)
            && (verdict != Ok(true) ==>
                  && r == Err(if verdict.Err? then verdict.error else ValueError)
                  && store.files == old(store.files))
            && (verdict == Ok(true) ==>
                  && r.Ok? && r.value.items == all
                  && (reuse ==> r.value == devices) && (!reuse ==> fresh(r.value))
                  && store.files == old(store.files)[path := DeviceFiles.Document(all, AsDict)]))
  {
    r := DeviceFiles.AddRecord(store, path, device, devices, check, FromDict, AsDict);
  }

  /** A list written by a successful `add_device` loads back as the same converters. */
  lemma AddedReloads(files: map<string, Json>, path: string, all: seq<AdcDevice>, check: seq<Json> -> Result<bool>)
    requires |all| > 0 && check(DeviceFiles.Dicts(all, AsDict)) == Ok(true)
    ensures LoadDevicesFromFiles(files[path := DeviceFiles.Document(all, AsDict)], path, check) == Ok(all)
  {
    forall d ensures FromDict(AsDict(d)) == Ok(d) {
      FromAsDict(d);
    }
    DeviceFiles.SavedReloads(files, path, all, check, FromDict, AsDict);
  }

  /** `ADCDeviceManager.auto_discover` over the registered managers' scan outcomes. */
  method AutoDiscover(scans: seq<Result<seq<AdcDevice>>>) returns (discovered: seq<AdcDevice>)
    ensures discovered == DeviceFiles.Found(scans)
    ensures forall x :: x in discovered <==> exists k :: 0 <= k < |scans| && scans[k].Ok? && x in scans[k].value
  {
    discovered := DeviceFiles.Discover(scans);
    forall x ensures x in discovered <==> exists k :: 0 <= k < |scans| && scans[k].Ok? && x in scans[k].value {
      DeviceFiles.FoundIff(scans, x);
    }
  }

  /** `ADCDeviceManager.to_string`. */
  function ToString(d: AdcDevice): string
  {
    DeviceFiles.Summary(Values(d))
  }

  /** A summary whose field texts hold no comma splits back into its labelled fields. */
  lemma ToStringFields(d: AdcDevice)
    requires ',' !in Str(d.name) && ',' !in Str(d.model) && ',' !in Str(d.ipv4) && ',' !in Str(d.port)
    requires ',' !in Str(d.multicastIp) && ',' !in Str(d.rtpPayload) && ',' !in Str(d.interface)
    ensures Split(ToString(d), ',') == ["Device: " + Str(d.name), " Model: " + Str(d.model),
      " IP: " + Str(d.ipv4), " Port: " + Str(d.port), " Multicast IP: " + Str(d.multicastIp),
      " RTP: " + Str(d.rtpPayload), " Interface: " + Str(d.interface)]
  {
    DeviceFiles.SummaryFields(Values(d));
  }
}
