/** The load / add-and-save pattern both device managers follow over a JSON configuration
    file `{"devices": [...]}`: loading validates the list and builds one record per entry;
    adding appends to the caller's list (or to the file's, or to a new one), validates, and
    writes the whole list back. The record type, its dict conversions and the validator are
    parameters. */
module DeviceFiles {
  import opened Wrappers
  import opened JsonValues
  import opened Strings

  /** The entries of the dict `asdict` builds: each field name with its value, in order. */
  function Entries(names: seq<string>, values: seq<Json>): (r: seq<(string, Json)>)
    requires |names| == |values|
    ensures |r| == |names| && forall k :: 0 <= k < |names| ==> r[k] == (names[k], values[k])
  {
    seq(|names|, k requires 0 <= k < |names| => (names[k], values[k]))
  }

  predicate DistinctNames(names: seq<string>)
  {
    forall i, j :: 0 <= i < j < |names| ==> names[i] != names[j]
  }

  /** The dict holds every field name among as many entries as there are fields, so (the
      names being distinct) its keys are exactly the fields. */
  predicate HasFields(dev: Json, names: seq<string>)
  {
    dev.JObj? && |dev.fields| == |names| && forall k :: 0 <= k < |names| ==> names[k] in Keys(dev.fields)
  }

  /** The keyword arguments `Record(**dev)` receives: TypeError when the dict misses a field
      or has one the record does not declare; otherwise each field's value, in field order. */
  function FieldValues(dev: Json, names: seq<string>): (r: Result<seq<Json>>)
    ensures r.Ok? <==> HasFields(dev, names)
    ensures r.Err? ==> r.error == TypeError
    ensures r.Ok? ==> |r.value| == |names|
    ensures r.Ok? ==> forall k :: 0 <= k < |names| ==> Lookup(dev.fields, names[k]) == Some(r.value[k])
  {
    if HasFields(dev, names) then
      Ok(seq(|names|, k requires 0 <= k < |names| => Lookup(dev.fields, names[k]).value))
    else Err(TypeError)
  }

  /** `Record(**asdict(record))` gives back the record's values. */
  lemma FieldValuesOfEntries(names: seq<string>, values: seq<Json>)
    requires |names| == |values| && DistinctNames(names)
    ensures FieldValues(JObj(Entries(names, values)), names) == Ok(values)
  {
    var entries := Entries(names, values);
    forall k | 0 <= k < |names|
      ensures Lookup(entries, names[k]) == Some(values[k]) && names[k] in Keys(entries)
    {
      LookupDistinct(entries, k);
      assert Keys(entries)[k] == names[k];
    }
    var r := FieldValues(JObj(entries), names);
    assert r.Ok?;
    assert r.value == values;
  }

  /** The labels of `to_string`, each followed by one field's `str()`; the pieces are
      joined with commas. */
  const Labels: seq<string> := ["Device: ", " Model: ", " IP: ", " Port: ", " Multicast IP: ", " RTP: ", " Interface: "]

  function Labelled(values: seq<Json>): (r: seq<string>)
    requires |values| == |Labels|
    ensures |r| == |Labels| && forall k :: 0 <= k < |Labels| ==> r[k] == Labels[k] + Str(values[k])
  {
    seq(|Labels|, k requires 0 <= k < |Labels| => Labels[k] + Str(values[k]))
  }

  /** `to_string(device)`: "Device: <name>, Model: <model>, ..., Interface: <interface>". */
  function Summary(values: seq<Json>): string
    requires |values| == |Labels|
  {
    Join(Labelled(values), ",")
  }

  /** When no field's text holds a comma, splitting the summary at its commas gives back
      each labelled field. */
  lemma SummaryFields(values: seq<Json>)
    requires |values| == |Labels|
    requires forall k :: 0 <= k < |values| ==> ',' !in Str(values[k])
    ensures Split(Summary(values), ',') == Labelled(values)
  {
    var parts := Labelled(values);
    assert forall k :: 0 <= k < |Labels| ==> ',' !in Labels[k];
    forall k | 0 <= k < |parts| ensures ',' !in parts[k] {
      assert ',' !in Labels[k] && ',' !in Str(values[k]);
    }
    SplitJoin(parts, ',');
  }

  /** `[Record(**dev) for dev in items]`: one record per entry, in order, up to the first
      entry the constructor rejects. */
  function Records<R>(items: seq<Json>, fromDict: Json -> Result<R>): (r: Result<seq<R>>)
    ensures r.Ok? <==> forall k :: 0 <= k < |items| ==> fromDict(items[k]).Ok?
    ensures r.Ok? ==> |r.value| == |items|
    ensures r.Ok? ==> forall k :: 0 <= k < |items| ==> Ok(r.value[k]) == fromDict(items[k])
    ensures r.Err? ==> exists k :: 0 <= k < |items| && fromDict(items[k]) == Err(r.error)
  {
    if |items| == 0 then Ok([])
    else
      match fromDict(items[0])
      case Err(e) => Err(e)
      case Ok(first) =>
        assert forall k :: 1 <= k < |items| ==> items[k] == items[1..][k - 1];
        match Records(items[1..], fromDict)
        case Err(e) => Err(e)
        case Ok(rest) => Ok([first] + rest)
  }

  /** `[asdict(dev) for dev in records]`. */
  function Dicts<R>(records: seq<R>, asDict: R -> Json): (r: seq<Json>)
    ensures |r| == |records| && forall k :: 0 <= k < |records| ==> r[k] == asDict(records[k])
  {
    seq(|records|, k requires 0 <= k < |records| => asDict(records[k]))
  }

  /** The document `add_device` writes. */
  function Document<R>(records: seq<R>, asDict: R -> Json): Json
  {
    JObj([("devices", JList(Dicts(records, asDict)))])
  }

  /** `load_devices`: FileNotFoundError without the file; the document's "devices" value
      (default []) must be truthy and pass the validator, which may raise or answer False
      (ValueError); then one record per entry. */
  function Load<R>(files: map<string, Json>, path: string, check: seq<Json> -> Result<bool>,
                   fromDict: Json -> Result<R>): (r: Result<seq<R>>)
    ensures path !in files ==> r == Err(FileNotFoundError)
  {
    if path !in files then Err(FileNotFoundError)
    else
      match GetOr(files[path], "devices", JList([]))
      case Err(e) => Err(e)
      case Ok(devices) =>
        if !Truthy(devices) then Err(ValueError)
        else
          match Iterate(devices)
          case Err(e) => Err(e)
          case Ok(items) =>
            match check(items)
            case Err(e) => Err(e)
            case Ok(ok) => if !ok then Err(ValueError) else Records(items, fromDict)
  }

  /** What a successful load returns: the entries of a truthy "devices" value the validator
      accepts, each turned into its record, in file order. */
  lemma LoadOk<R>(files: map<string, Json>, path: string, check: seq<Json> -> Result<bool>,
                  fromDict: Json -> Result<R>)
    requires Load(files, path, check, fromDict).Ok?
    ensures path in files && files[path].JObj?
    ensures var v := Lookup(files[path].fields, "devices");
      && v.Some? && Truthy(v.value) && Iterate(v.value).Ok?
      && check(Iterate(v.value).value) == Ok(true)
      && Records(Iterate(v.value).value, fromDict) == Load(files, path, check, fromDict)
  {
  }

  /** A list the validator accepts, once written, loads back as the same records. */
  lemma SavedReloads<R>(files: map<string, Json>, path: string, records: seq<R>,
                        check: seq<Json> -> Result<bool>, fromDict: Json -> Result<R>, asDict: R -> Json)
    requires |records| > 0 && check(Dicts(records, asDict)) == Ok(true)
    requires forall x :: fromDict(asDict(x)) == Ok(x)
    ensures Load(files[path := Document(records, asDict)], path, check, fromDict) == Ok(records)
  {
    RecordsOfDicts(records, fromDict, asDict);
  }

  /** Rebuilding records from their dicts gives the records back. */
  lemma RecordsOfDicts<R>(records: seq<R>, fromDict: Json -> Result<R>, asDict: R -> Json)
    requires forall x :: fromDict(asDict(x)) == Ok(x)
    ensures Records(Dicts(records, asDict), fromDict) == Ok(records)
  {
    var loaded := Records(Dicts(records, asDict), fromDict);
    assert loaded.Ok?;
    assert loaded.value == records;
  }

  /** `add_device(json_path, new_device, devices)`. A truthy `devices` list is used and
      appended to in place; otherwise the file's list is loaded when the file exists, else a
      new list is started, and the caller's (empty) list is left alone. The list is extended
      before validation, so a rejected addition still shows in a reused list, while the file
      is written only once the validator accepts. */
  method AddRecord<R>(store: FileStore, path: string, record: R, devices: ListRef?<R>,
                      check: seq<Json> -> Result<bool>, fromDict: Json -> Result<R>, asDict: R -> Json)
    returns (r: Result<ListRef<R>>)
    modifies store, devices
    ensures var reuse := devices != null && |old(devices.items)| > 0;
      var base := if reuse then Ok(old(devices.items))
                  else if path in old(store.files) then Load(old(store.files), path, check, fromDict)
                  else Ok([]);
      && (base.Err? ==> r == Err(base.error) && store.files == old(store.files))
      && (devices != null && (base.Err? || !reuse) ==> devices.items == old(devices.items))
      && (base.Ok? ==>
            var all := base.value + [record];
            var verdict := check(Dicts(all, asDict));
            && (reuse ==> devices.items == all)
            && (verdict != Ok(true) ==>
                  && r == Err(if verdict.Err? then verdict.error else ValueError)
                  && store.files == old(store.files))
            && (verdict == Ok(true) ==>
                  && r.Ok? && r.value.items == all
                  && (reuse ==> r.value == devices) && (!reuse ==> fresh(r.value))
                  && store.files == old(store.files)[path := Document(all, asDict)]))
  {
    var list: ListRef<R>;
    if devices != null && |devices.items| > 0 {
      list := devices;
    } else if path in store.files {
      var loaded := Load(store.files, path, check, fromDict);
      if loaded.Err? {
        return Err(loaded.error);
      }
      list := new ListRef(loaded.value);
    } else {
      list := new ListRef([]);
    }
    list.Append(record);
    var verdict := check(Dicts(list.items, asDict));
    if verdict.Err? {
      return Err(verdict.error);
    }
    if !verdict.value {
      return Err(ValueError);
    }
    store.Write(path, Document(list.items, asDict));
    return Ok(list);
  }

  /** `auto_discover`: the managers' scans in registration order; a scan that raises
      contributes nothing and the others still run. */
  method Discover<R>(scans: seq<Result<seq<R>>>) returns (discovered: seq<R>)
    ensures discovered == Found(scans)
  {
    discovered := [];
    for i := 0 to |scans|
      invariant discovered == Found(scans[..i])
    {
      if scans[i].Ok? {
        discovered := discovered + scans[i].value;
      }
      assert scans[..i + 1][..i] == scans[..i];
    }
    assert scans[..|scans|] == scans;
  }

  /** The records of the scans that succeeded, concatenated in order. */
  function Found<R>(scans: seq<Result<seq<R>>>): seq<R>
  {
    if |scans| == 0 then []
    else Found(scans[..|scans| - 1]) + (if scans[|scans| - 1].Ok? then scans[|scans| - 1].value else [])
  }

  /** A record is discovered exactly when some successful scan found it. */
  lemma {:induction false} FoundIff<R>(scans: seq<Result<seq<R>>>, x: R)
    ensures x in Found(scans) <==> exists k :: 0 <= k < |scans| && scans[k].Ok? && x in scans[k].value
  {
    if |scans| > 0 {
      var last := |scans| - 1;
      FoundIff(scans[..last], x);
      if x in Found(scans) && !(x in Found(scans[..last])) {
        assert scans[last].Ok? && x in scans[last].value;
      }
      if exists k :: 0 <= k < |scans| && scans[k].Ok? && x in scans[k].value {
        var k :| 0 <= k < |scans| && scans[k].Ok? && x in scans[k].value;
        if k < last {
          assert scans[..last][k] == scans[k];
        }
      }
    }
  }
}
