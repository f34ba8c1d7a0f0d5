/** `static_checkup`: the validation of a device list read from the configuration file.
    Names and ports must be unique across devices; each device must carry the six required
    fields, a port in 1..65535 and an RTP payload type in the dynamic range 96..127 of
    section 6 of RFC 3551. A failing check raises; the whole checkup otherwise returns True. */
module StaticCheckup {
  import opened Wrappers
  import opened JsonValues

  /** A hashable value under Python equality: a missing key and null are both None, and
      True == 1, False == 0. */
  datatype Key = KNone | KInt(i: int) | KStr(s: string)

  predicate Hashable(v: Option<Json>)
  {
    v.None? || !(v.value.JList? || v.value.JObj?)
  }

  /** The hash-set key of a value; lists and dicts are unhashable. */
  function HashKey(v: Option<Json>): (r: Result<Key>)
    ensures r.Ok? <==> Hashable(v)
    ensures r.Err? ==> r.error == TypeError
  {
    match v
    case None => Ok(KNone)
    case Some(j) =>
      match j
      case JNull => Ok(KNone)
      case JBool(b) => Ok(KInt(if b then 1 else 0))
      case JInt(i) => Ok(KInt(i))
      case JStr(s) => Ok(KStr(s))
      case _ => Err(TypeError)
  }

  /** The value of `field` in every device: `[item.get(field) for item in devices]`. */
  function FieldValues(devices: seq<Json>, field: string): (r: Result<seq<Option<Json>>>)
    ensures r.Ok? <==> forall k :: 0 <= k < |devices| ==> devices[k].JObj?
    ensures r.Err? ==> r.error == AttributeError
    ensures r.Ok? ==> |r.value| == |devices|
    ensures r.Ok? ==> forall k :: 0 <= k < |devices| ==> r.value[k] == Lookup(devices[k].fields, field)
  {
    if |devices| == 0 then Ok([])
    else if !devices[0].JObj? then Err(AttributeError)
    else
      match FieldValues(devices[1..], field)
      case Err(e) => Err(e)
      case Ok(rest) =>
        assert forall k :: 1 <= k < |devices| ==> devices[k] == devices[1..][k - 1];
        Ok([Lookup(devices[0].fields, field)] + rest)
  }

  /** The keys `set(values)` hashes, in order; TypeError at an unhashable value. */
  function HashAll(values: seq<Option<Json>>): (r: Result<seq<Key>>)
    ensures r.Ok? <==> forall k :: 0 <= k < |values| ==> Hashable(values[k])
    ensures r.Err? ==> r.error == TypeError
    ensures r.Ok? ==> |r.value| == |values|
    ensures r.Ok? ==> forall k :: 0 <= k < |values| ==> Ok(r.value[k]) == HashKey(values[k])
  {
    if |values| == 0 then Ok([])
    else
      match HashKey(values[0])
      case Err(e) => Err(e)
      case Ok(key) =>
        match HashAll(values[1..])
        case Err(e) =>
          assert forall k :: 1 <= k < |values| ==> values[k] == values[1..][k - 1];
          Err(e)
        case Ok(rest) =>
          assert forall k :: 1 <= k < |values| ==> values[k] == values[1..][k - 1];
          Ok([key] + rest)
  }

  function Elements(keys: seq<Key>): set<Key>
  {
    set x | x in keys
  }

  predicate Distinct(keys: seq<Key>)
  {
    forall i, j :: 0 <= i < j < |keys| ==> keys[i] != keys[j]
  }

  /** A sequence is as long as the set of its elements exactly when it repeats nothing. */
  lemma {:induction false} ElementsCount(keys: seq<Key>)
    ensures |Elements(keys)| <= |keys|
    ensures |Elements(keys)| == |keys| <==> Distinct(keys)
    decreases |keys|
  {
    if |keys| > 0 {
      var rest := keys[1..];
      ElementsCount(rest);
      ElementsCons(keys);
      DistinctCons(keys);
      if keys[0] in rest {
        assert Elements(keys) == Elements(rest);
      } else {
        assert |Elements(keys)| == |Elements(rest)| + 1;
      }
    }
  }

  /** The elements of a non-empty sequence: its first and those of the rest. */
  lemma ElementsCons(keys: seq<Key>)
    requires |keys| > 0
    ensures Elements(keys) == {keys[0]} + Elements(keys[1..])
  {
    assert forall x :: x in keys <==> x == keys[0] || x in keys[1..] by {
      assert keys == [keys[0]] + keys[1..];
    }
  }

  /** A non-empty sequence repeats nothing exactly when its first is not in the rest and
      the rest repeats nothing. */
  lemma DistinctCons(keys: seq<Key>)
    requires |keys| > 0
    ensures Distinct(keys) <==> keys[0] !in keys[1..] && Distinct(keys[1..])
  {
    var rest := keys[1..];
    if keys[0] in rest {
      var j :| 0 <= j < |rest| && rest[j] == keys[0];
      assert keys[1 + j] == keys[0];
    } else if Distinct(rest) {
      forall i, j | 0 <= i < j < |keys| ensures keys[i] != keys[j] {
        if i == 0 {
          assert keys[j] == rest[j - 1];
        } else {
          assert keys[i] == rest[i - 1] && keys[j] == rest[j - 1];
        }
      }
    } else {
      var i, j :| 0 <= i < j < |rest| && rest[i] == rest[j];
      assert keys[i + 1] == keys[j + 1];
    }
  }

  /** `len(values) == len(set(values))` over one field of every device. */
  function Unique(devices: seq<Json>, field: string): (r: Result<bool>)
    ensures r.Err? ==> r.error == AttributeError || r.error == TypeError
  {
    match FieldValues(devices, field)
    case Err(e) => Err(e)
    case Ok(values) =>
      match HashAll(values)
      case Err(e) => Err(e)
      case Ok(keys) => Ok(|keys| == |Elements(keys)|)
  }

  /** `check_names`. */
  function CheckNames(devices: seq<Json>): Result<bool>
  {
    Unique(devices, "name")
  }

  /** `check_ports`. */
  function CheckPorts(devices: seq<Json>): Result<bool>
  {
    Unique(devices, "port")
  }

  /** Every device is a dict whose `field` value is hashable. */
  predicate FieldHashable(devices: seq<Json>, field: string)
  {
    forall k :: 0 <= k < |devices| ==> devices[k].JObj? && Hashable(Lookup(devices[k].fields, field))
  }

  /** Devices i and j hold equal values (under Python equality) for `field`. */
  predicate SameValue(devices: seq<Json>, field: string, i: nat, j: nat)
    requires i < |devices| && j < |devices| && devices[i].JObj? && devices[j].JObj?
  {
    HashKey(Lookup(devices[i].fields, field)) == HashKey(Lookup(devices[j].fields, field))
  }

  /** The uniqueness checks answer True exactly when no two devices share the field's value,
      and raise exactly when a device is not a dict or its value is unhashable. */
  lemma UniqueIff(devices: seq<Json>, field: string)
    ensures Unique(devices, field).Ok? <==> FieldHashable(devices, field)
    ensures FieldHashable(devices, field) ==>
      (Unique(devices, field) == Ok(true) <==>
        forall i, j :: 0 <= i < j < |devices| ==> !SameValue(devices, field, i, j))
  {
    var values := FieldValues(devices, field);
    if values.Ok? {
      if HashAll(values.value).Ok? {
        UniqueTrue(devices, field, values.value, HashAll(values.value).value);
      } else {
        var k :| 0 <= k < |values.value| && !Hashable(values.value[k]);
        assert !Hashable(Lookup(devices[k].fields, field));
      }
    } else {
      var k :| 0 <= k < |devices| && !devices[k].JObj?;
    }
  }

  lemma UniqueTrue(devices: seq<Json>, field: string, values: seq<Option<Json>>, keys: seq<Key>)
    requires FieldValues(devices, field) == Ok(values) && HashAll(values) == Ok(keys)
    ensures FieldHashable(devices, field)
    ensures Unique(devices, field) == Ok(true) <==>
      forall i, j :: 0 <= i < j < |devices| ==> !SameValue(devices, field, i, j)
  {
    ElementsCount(keys);
    assert Unique(devices, field) == Ok(|keys| == |Elements(keys)|);
    assert FieldHashable(devices, field) by {
      forall k | 0 <= k < |devices| ensures devices[k].JObj? && Hashable(Lookup(devices[k].fields, field)) {
        assert Hashable(values[k]);
      }
    }
    forall i, j | 0 <= i < j < |devices|
      ensures SameValue(devices, field, i, j) <==> keys[i] == keys[j]
    {
      assert Ok(keys[i]) == HashKey(values[i]);
      assert Ok(keys[j]) == HashKey(values[j]);
    }
    if !Distinct(keys) {
      var i, j :| 0 <= i < j < |keys| && keys[i] == keys[j];
      assert SameValue(devices, field, i, j);
    }
  }

  /** Two devices without a name both have None as name, so they fail the name check. */
  lemma TwoUnnamed(a: seq<(string, Json)>, b: seq<(string, Json)>)
    requires "name" !in Keys(a) && "name" !in Keys(b)
    ensures CheckNames([JObj(a), JObj(b)]) == Ok(false)
  {
    var devices := [JObj(a), JObj(b)];
    UniqueIff(devices, "name");
    assert SameValue(devices, "name", 0, 1);
  }

  const RequiredFields: set<string> := {"name", "model", "ip", "port", "multicast_ip", "rtp"}

  function KeySet(fields: seq<(string, Json)>): set<string>
  {
    set k | k in Keys(fields)
  }

  /** `check_required_fields`: ValueError when a required key is missing; extra keys are fine. */
  function CheckRequiredFields(dev: Json): (r: Result<()>)
    ensures r.Ok? <==> dev.JObj? && RequiredFields <= KeySet(dev.fields)
    ensures !dev.JObj? ==> r == Err(AttributeError)
    ensures dev.JObj? && r.Err? ==> r.error == ValueError
  {
    if !dev.JObj? then Err(AttributeError)
    else
      MissingNone(RequiredFields, KeySet(dev.fields));
      if RequiredFields - KeySet(dev.fields) != {} then Err(ValueError)
      else Ok(())
  }

  /** No key is missing exactly when the required keys are all present. */
  lemma MissingNone(required: set<string>, present: set<string>)
    ensures required - present == {} <==> required <= present
  {
    if required - present != {} {
      var k :| k in required - present;
      assert k in required && k !in present;
      assert !(required <= present);
    } else {
      forall k | k in required ensures k in present {
        assert k !in required - present;
      }
    }
  }

  /** A value in an integer comparison: booleans compare as 0 and 1; anything else but an
      int raises TypeError. */
  function Numeric(v: Json): (r: Result<int>)
    ensures r.Ok? <==> v.JInt? || v.JBool?
    ensures r.Err? ==> r.error == TypeError
  {
    match v
    case JInt(i) => Ok(i)
    case JBool(b) => Ok(if b then 1 else 0)
    case _ => Err(TypeError)
  }

  /** `if not (lo <= dev[field] <= hi): raise ValueError(f"... {dev['name']}")`: the message
      itself reads the name, so a device without one raises KeyError instead. */
  function CheckInRange(dev: Json, field: string, lo: int, hi: int): (r: Result<()>)
    ensures r.Ok? <==>
      dev.JObj? && Lookup(dev.fields, field).Some? && Numeric(Lookup(dev.fields, field).value).Ok?
      && lo <= Numeric(Lookup(dev.fields, field).value).value <= hi
  {
    if !dev.JObj? then Err(TypeError)
    else
      match Lookup(dev.fields, field)
      case None => Err(KeyError)
      case Some(v) =>
        match Numeric(v)
        case Err(e) => Err(e)
        case Ok(n) =>
          if lo <= n <= hi then Ok(())
          else if Lookup(dev.fields, "name").None? then Err(KeyError)
          else Err(ValueError)
  }

  /** `check_port_range`. */
  function CheckPortRange(dev: Json): Result<()>
  {
    CheckInRange(dev, "port", 1, 65535)
  }

  /** `check_rtp_payload`. */
  function CheckRtpPayload(dev: Json): Result<()>
  {
    CheckInRange(dev, "rtp", 96, 127)
  }

  /** On a named device with an integer value, the range check raises ValueError exactly
      outside the bounds. */
  lemma InRange(dev: seq<(string, Json)>, field: string, lo: int, hi: int, n: int)
    requires Lookup(dev, field) == Some(JInt(n)) && Lookup(dev, "name").Some?
    ensures CheckInRange(JObj(dev), field, lo, hi) == if lo <= n <= hi then Ok(()) else Err(ValueError)
  {
  }

  /** A port value is accepted exactly in 1..65535, an RTP payload type exactly in 96..127. */
  lemma RangeBounds(dev: seq<(string, Json)>, port: int, rtp: int)
    requires Lookup(dev, "port") == Some(JInt(port)) && Lookup(dev, "rtp") == Some(JInt(rtp))
    requires Lookup(dev, "name").Some?
    ensures CheckPortRange(JObj(dev)) == if 1 <= port <= 65535 then Ok(()) else Err(ValueError)
    ensures CheckRtpPayload(JObj(dev)) == if 96 <= rtp <= 127 then Ok(()) else Err(ValueError)
  {
    InRange(dev, "port", 1, 65535, port);
    InRange(dev, "rtp", 96, 127, rtp);
  }

  /** `check_device`: required fields, then port, then RTP payload. */
  function CheckDevice(dev: Json): Result<()>
  {
    match CheckRequiredFields(dev)
    case Err(e) => Err(e)
    case Ok(_) =>
      match CheckPortRange(dev)
      case Err(e) => Err(e)
      case Ok(_) => CheckRtpPayload(dev)
  }

  /** `for dev in devices: check_device(dev)`: the first failure in list order. */
  function CheckEach(devices: seq<Json>): Result<()>
  {
    if |devices| == 0 then Ok(())
    else
      match CheckDevice(devices[0])
      case Err(e) => Err(e)
      case Ok(_) => CheckEach(devices[1..])
  }

  /** The loop passes exactly when every device passes `check_device`. */
  lemma {:induction false} CheckEachAll(devices: seq<Json>)
    ensures CheckEach(devices).Ok? <==> forall k :: 0 <= k < |devices| ==> CheckDevice(devices[k]).Ok?
    decreases |devices|
  {
    if |devices| > 0 && CheckDevice(devices[0]).Ok? {
      CheckEachAll(devices[1..]);
      assert forall k :: 1 <= k < |devices| ==> devices[k] == devices[1..][k - 1];
    }
  }

  /** When the loop raises, it raises what the first failing device raises. */
  lemma {:induction false} CheckEachFirst(devices: seq<Json>)
    requires CheckEach(devices).Err?
    ensures exists k :: FirstFailure(devices, k) && CheckDevice(devices[k]) == CheckEach(devices)
    decreases |devices|
  {
    if CheckDevice(devices[0]).Ok? {
      var rest := devices[1..];
      CheckEachFirst(rest);
      var k :| FirstFailure(rest, k) && CheckDevice(rest[k]) == CheckEach(rest);
      assert devices[k + 1] == rest[k];
      assert forall j :: 1 <= j <= k ==> devices[j] == rest[j - 1];
      assert FirstFailure(devices, k + 1);
    } else {
      assert FirstFailure(devices, 0);
    }
  }

  /** Device k is the first whose check raises. */
  predicate FirstFailure(devices: seq<Json>, k: int)
  {
    0 <= k < |devices| && CheckDevice(devices[k]).Err? && forall j :: 0 <= j < k ==> CheckDevice(devices[j]).Ok?
  }

  /** `static_checkup`: names, then ports, then every device in order. */
  function Checkup(devices: seq<Json>): (r: Result<bool>)
    ensures r.Ok? ==> r.value
  {
    match CheckNames(devices)
    case Err(e) => Err(e)
    case Ok(okNames) =>
      if !okNames then Err(ValueError)
      else
        match CheckPorts(devices)
        case Err(e) => Err(e)
        case Ok(okPorts) =>
          if !okPorts then Err(ValueError)
          else
            match CheckEach(devices)
            case Err(e) => Err(e)
            case Ok(_) => Ok(true)
  }

  /** What a valid device list is, stated on its own. */
  predicate ValidDevice(dev: Json)
  {
    && dev.JObj? && RequiredFields <= KeySet(dev.fields)
    && Lookup(dev.fields, "port").Some? && Numeric(Lookup(dev.fields, "port").value).Ok?
    && 1 <= Numeric(Lookup(dev.fields, "port").value).value <= 65535
    && Lookup(dev.fields, "rtp").Some? && Numeric(Lookup(dev.fields, "rtp").value).Ok?
    && 96 <= Numeric(Lookup(dev.fields, "rtp").value).value <= 127
  }

  predicate ValidList(devices: seq<Json>)
  {
    && FieldHashable(devices, "name") && FieldHashable(devices, "port")
    && (forall i, j :: 0 <= i < j < |devices| ==> !SameValue(devices, "name", i, j))
    && (forall i, j :: 0 <= i < j < |devices| ==> !SameValue(devices, "port", i, j))
    && (forall k :: 0 <= k < |devices| ==> ValidDevice(devices[k]))
  }

  /** The checkup accepts exactly the valid lists, and returns True whenever it returns. */
  lemma CheckupIff(devices: seq<Json>)
    ensures Checkup(devices).Ok? <==> ValidList(devices)
    ensures Checkup(devices).Ok? ==> Checkup(devices) == Ok(true)
  {
    UniqueIff(devices, "name");
    UniqueIff(devices, "port");
    CheckupSteps(devices);
    CheckEachAll(devices);
    assert CheckEach(devices).Ok? <==> forall k :: 0 <= k < |devices| ==> ValidDevice(devices[k]) by {
      forall k | 0 <= k < |devices| ensures CheckDevice(devices[k]).Ok? <==> ValidDevice(devices[k]) {
        DeviceIff(devices[k]);
      }
    }
  }

  /** The checkup passes exactly when both uniqueness checks answer True and every device
      passes its own check. */
  lemma CheckupSteps(devices: seq<Json>)
    ensures Checkup(devices).Ok? <==>
      CheckNames(devices) == Ok(true) && CheckPorts(devices) == Ok(true) && CheckEach(devices).Ok?
  {
  }

  /** One device passes `check_device` exactly when it is valid. */
  lemma DeviceIff(dev: Json)
    ensures CheckDevice(dev).Ok? <==> ValidDevice(dev)
  {
    if dev.JObj? {
      MissingNone(RequiredFields, KeySet(dev.fields));
    }
  }

  /** Duplicate names are reported before anything else is looked at. */
  lemma NamesFirst(devices: seq<Json>, i: nat, j: nat)
    requires FieldHashable(devices, "name") && i < j < |devices| && SameValue(devices, "name", i, j)
    ensures Checkup(devices) == Err(ValueError)
  {
    UniqueIff(devices, "name");
  }

  /** The empty list passes. */
  lemma EmptyPasses()
    ensures Checkup([]) == Ok(true)
  {
    assert Elements([]) == {};
  }
}
