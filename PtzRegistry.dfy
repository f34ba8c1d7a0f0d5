/** What the two `PTZController` registries share: the vendor instances they hold, the
    class-level `_instances` dict (its keys in insertion order and the instance under each),
    and the lookup, registration and deletion steps on it. */
module PtzRegistry {
  import opened Wrappers

  /** A vendor class as the registry sees it: its name and whether its instances have a
      `release_stream` method. */
  datatype VendorClass = VendorClass(name: string, hasReleaseStream: bool)

  /** A vendor instance: its class, the camera name when the constructor receives it as first
      argument, and the other positional arguments. */
  datatype Camera<A> = Camera(vendor: VendorClass, cameraName: Option<string>, args: seq<A>)

  /** A call the registry makes on a registered instance. */
  datatype Action<A> = StopContinuous(camera: Camera<A>) | ReleaseStream(camera: Camera<A>)

  /** `_instances`: the registered names in insertion order, and the instance of each. */
  datatype Registry<A> = Registry(names: seq<string>, instances: map<string, Camera<A>>)

  /** No name occurs twice. */
  predicate Distinct(names: seq<string>)
  {
    |names| == 0 || (names[0] !in names[1..] && Distinct(names[1..]))
  }

  /** Distinct names stay distinct when a new one is added at the end. */
  lemma {:induction false} DistinctAppend(names: seq<string>, name: string)
    requires Distinct(names) && name !in names
    ensures Distinct(names + [name])
  {
    if |names| > 0 {
      DistinctAppend(names[1..], name);
      assert (names + [name])[1..] == names[1..] + [name];
    }
  }

  /** A dict's keys: each once, and exactly the names that have an instance. */
  ghost predicate Valid<A>(reg: Registry<A>)
  {
    Distinct(reg.names) && forall n :: n in reg.instances <==> n in reg.names
  }

  function Empty<A>(): Registry<A> { Registry([], map[]) }

  /** `_instances[name]` guarded by `name in _instances`: KeyError for an unregistered name. */
  function Get<A>(reg: Registry<A>, name: string): (r: Result<Camera<A>>)
    ensures r.Err? <==> name !in reg.instances
    ensures r.Err? ==> r.error == KeyError
    ensures Valid(reg) ==> (r.Ok? <==> name in reg.names)
  {
    if name in reg.instances then Ok(reg.instances[name]) else Err(KeyError)
  }

  /** `PTZController(name, vendor_class, *args)`: an existing instance is returned whatever
      the other arguments; an unregistered name needs a vendor class (ValueError otherwise);
      a new instance of it, built from `nameArg` and `args`, is registered last. */
  function Register<A>(reg: Registry<A>, name: string, vendor: Option<VendorClass>,
                       nameArg: Option<string>, args: seq<A>): (Result<Camera<A>>, Registry<A>)
  {
    if name in reg.instances then (Ok(reg.instances[name]), reg)
    else if vendor.None? then (Err(ValueError), reg)
    else
      var cam := Camera(vendor.value, nameArg, args);
      (Ok(cam), Registry(reg.names + [name], reg.instances[name := cam]))
  }

  /** The names without `name`, the others kept in order. */
  function Without(names: seq<string>, name: string): (r: seq<string>)
    ensures forall n :: n in r <==> n in names && n != name
    ensures |r| <= |names|
  {
    if |names| == 0 then []
    else (if names[0] == name then [] else [names[0]]) + Without(names[1..], name)
  }

  /** Deleting `name` from the dict. */
  function Drop<A>(reg: Registry<A>, name: string): Registry<A>
  {
    Registry(Without(reg.names, name), reg.instances - {name})
  }

  /** Registration keeps the dict well formed. */
  lemma RegisterValid<A>(reg: Registry<A>, name: string, vendor: Option<VendorClass>, nameArg: Option<string>, args: seq<A>)
    requires Valid(reg)
    ensures Valid(Register(reg, name, vendor, nameArg, args).1)
  {
    if name !in reg.instances && vendor.Some? {
      DistinctAppend(reg.names, name);
    }
  }

  /** Registration fails exactly for an unregistered name without a vendor class, and then
      changes nothing; on success the name is looked up to the returned instance, and every
      other name to what it was before. */
  lemma RegisterOutcome<A>(reg: Registry<A>, name: string, vendor: Option<VendorClass>, nameArg: Option<string>, args: seq<A>)
    ensures var (r, after) := Register(reg, name, vendor, nameArg, args);
      && (r.Err? <==> name !in reg.instances && vendor.None?)
      && (r.Err? ==> r.error == ValueError && after == reg)
      && (r.Ok? ==> Get(after, name) == r)
      && forall n :: n != name ==> Get(after, n) == Get(reg, n)
  {
  }

  /** Once a name is registered, calling again with any vendor class and arguments returns
      the same instance and leaves the dict as it is. */
  lemma RegisterOnce<A>(reg: Registry<A>, name: string, vendor: Option<VendorClass>, nameArg: Option<string>, args: seq<A>,
                        vendor2: Option<VendorClass>, nameArg2: Option<string>, args2: seq<A>)
    requires Register(reg, name, vendor, nameArg, args).0.Ok?
    ensures var first := Register(reg, name, vendor, nameArg, args);
      Register(first.1, name, vendor2, nameArg2, args2) == first
  {
  }

  /** Removing a name from distinct names removes exactly its one position. */
  lemma {:induction false} WithoutAt(names: seq<string>, k: nat)
    requires Distinct(names) && k < |names|
    ensures Without(names, names[k]) == names[..k] + names[k + 1..]
  {
    if k == 0 {
      WithoutAbsent(names[1..], names[0]);
      assert names[..0] + names[1..] == names[1..];
    } else {
      var name := names[k];
      var rest := names[1..];
      assert rest[k - 1] == name;
      assert names[0] != name;
      WithoutAt(rest, k - 1);
      assert Without(names, name) == [names[0]] + Without(rest, name);
      assert rest[..k - 1] == names[1..k] && rest[k..] == names[k + 1..];
      assert names[..k] == [names[0]] + names[1..k];
    }
  }

  /** Removing an absent name changes nothing. */
  lemma {:induction false} WithoutAbsent(names: seq<string>, name: string)
    requires name !in names
    ensures Without(names, name) == names
  {
    if |names| > 0 {
      WithoutAbsent(names[1..], name);
    }
  }

  /** Removing a name from distinct names leaves them distinct. */
  lemma {:induction false} WithoutDistinct(names: seq<string>, name: string)
    requires Distinct(names)
    ensures Distinct(Without(names, name))
  {
    if |names| > 0 {
      WithoutDistinct(names[1..], name);
      var rest := Without(names[1..], name);
      if names[0] != name {
        assert Without(names, name) == [names[0]] + rest;
        assert names[0] !in rest;
        assert ([names[0]] + rest)[1..] == rest;
      } else {
        assert Without(names, name) == rest;
      }
    }
  }

  /** Deleting keeps the dict well formed, makes the name unregistered and leaves every other
      name's instance alone; deleting an unregistered name changes nothing. */
  lemma DropOnly<A>(reg: Registry<A>, name: string)
    requires Valid(reg)
    ensures Valid(Drop(reg, name))
    ensures Get(Drop(reg, name), name) == Err(KeyError)
    ensures forall n :: n != name ==> Get(Drop(reg, name), n) == Get(reg, n)
    ensures name !in reg.instances ==> Drop(reg, name) == reg
  {
    WithoutDistinct(reg.names, name);
    if name !in reg.instances {
      WithoutAbsent(reg.names, name);
    }
  }

  /** Deleting a registered name keeps the others in their registration order. */
  lemma DropOrder<A>(reg: Registry<A>, name: string, k: nat)
    requires Valid(reg) && k < |reg.names| && reg.names[k] == name
    ensures Drop(reg, name).names == reg.names[..k] + reg.names[k + 1..]
  {
    WithoutAt(reg.names, k);
  }

  /** Deleting the first of the names still pending keeps the rest pending and leaves
      every remaining entry as it was at the start. */
  lemma DropFirst<A>(reg: Registry<A>, start: Registry<A>, pending: seq<string>, i: nat)
    requires Valid(reg) && i < |pending| && reg.names == pending[i..]
    requires forall n :: n in reg.instances ==> n in start.instances && reg.instances[n] == start.instances[n]
    ensures Drop(reg, pending[i]).names == pending[i + 1..]
    ensures forall n :: n in Drop(reg, pending[i]).instances ==>
      n in start.instances && Drop(reg, pending[i]).instances[n] == start.instances[n]
  {
    DropOrder(reg, pending[i], 0);
    assert pending[i..][1..] == pending[i + 1..];
  }

  /** Registering a new name and deleting it again gives back the dict it started from. */
  lemma RegisterThenDrop<A>(reg: Registry<A>, name: string, vendor: VendorClass, nameArg: Option<string>, args: seq<A>)
    requires Valid(reg) && name !in reg.instances
    ensures Drop(Register(reg, name, Some(vendor), nameArg, args).1, name) == reg
  {
    var after := Register(reg, name, Some(vendor), nameArg, args).1;
    RegisterValid(reg, name, Some(vendor), nameArg, args);
    WithoutAt(after.names, |reg.names|);
    assert after.names[..|reg.names|] == reg.names;
    assert after.names[|reg.names| + 1..] == [];
    assert after.instances - {name} == reg.instances;
  }
}

/** `src/devices/camera/ptz_controller.py`: the registry whose vendor constructors receive the
    camera name, and whose `remove` stops each camera before releasing it. */
module CameraPtzController {
  import opened Wrappers
  import opened PtzRegistry

  /** The calls `remove` makes on the instances registered under `names`, in order: stop the
      continuous move, then release the stream when the class has `release_stream`. */
  function Teardown<A>(reg: Registry<A>, names: seq<string>): seq<Action<A>>
  {
    if |names| == 0 then []
    else (if names[0] in reg.instances then TearOne(reg.instances[names[0]]) else []) + Teardown(reg, names[1..])
  }

  /** The calls for one camera. */
  function TearOne<A>(cam: Camera<A>): seq<Action<A>>
  {
    [StopContinuous(cam)] + (if cam.vendor.hasReleaseStream then [ReleaseStream(cam)] else [])
  }

  lemma {:induction false} TeardownAppend<A>(reg: Registry<A>, names: seq<string>, name: string)
    requires name in reg.instances
    ensures Teardown(reg, names + [name]) == Teardown(reg, names) + TearOne(reg.instances[name])
  {
    if |names| > 0 {
      assert (names + [name])[1..] == names[1..] + [name];
      TeardownAppend(reg, names[1..], name);
    }
  }

  /** One more camera torn down, after the calls already made. */
  lemma TeardownStep<A>(initial: seq<Action<A>>, reg: Registry<A>, names: seq<string>, i: nat)
    requires i < |names| && names[i] in reg.instances
    ensures initial + Teardown(reg, names[..i]) + TearOne(reg.instances[names[i]])
      == initial + Teardown(reg, names[..i + 1])
  {
    assert names[..i + 1] == names[..i] + [names[i]];
    TeardownAppend(reg, names[..i], names[i]);
  }

  /** Every camera torn down is stopped, and released exactly when its class can release. */
  lemma {:induction false} TeardownStopsEach<A>(reg: Registry<A>, names: seq<string>)
    requires forall k :: 0 <= k < |names| ==> names[k] in reg.instances
    ensures forall k :: 0 <= k < |names| ==> StopContinuous(reg.instances[names[k]]) in Teardown(reg, names)
    ensures forall k :: 0 <= k < |names| && reg.instances[names[k]].vendor.hasReleaseStream ==>
      ReleaseStream(reg.instances[names[k]]) in Teardown(reg, names)
    ensures forall a :: a in Teardown(reg, names) ==> exists k :: 0 <= k < |names| && a.camera == reg.instances[names[k]]
  {
    if |names| > 0 {
      TeardownStopsEach(reg, names[1..]);
      forall k | 1 <= k < |names| ensures names[k] == names[1..][k - 1] { }
      var head := Teardown(reg, names[..1]);
      forall a | a in Teardown(reg, names)
        ensures exists k :: 0 <= k < |names| && a.camera == reg.instances[names[k]]
      {
        if a !in Teardown(reg, names[1..]) {
          assert a.camera == reg.instances[names[0]];
        } else {
          var k :| 0 <= k < |names[1..]| && a.camera == reg.instances[names[1..][k]];
          assert a.camera == reg.instances[names[k + 1]];
        }
      }
    }
  }

  /** The dict after `remove(name)`: everything goes for None; a registered name goes alone;
      an unregistered name raises ValueError from the `PTZController(name)` lookup. */
  function Removed<A>(reg: Registry<A>, name: Option<string>): Result<Registry<A>>
  {
    if name.None? then Ok(Empty())
    else if name.value in reg.instances then Ok(Drop(reg, name.value))
    else Err(ValueError)
  }

  /** `remove` fails only on an unregistered name, keeps the dict well formed, and removes the
      named camera alone. */
  lemma RemovedOnly<A>(reg: Registry<A>, name: Option<string>)
    requires Valid(reg)
    ensures Removed(reg, name).Err? <==> name.Some? && name.value !in reg.instances
    ensures Removed(reg, name).Ok? ==> Valid(Removed(reg, name).value)
    ensures name.None? ==> Removed(reg, name).value.names == []
    ensures name.Some? && Removed(reg, name).Ok? ==>
      Get(Removed(reg, name).value, name.value) == Err(KeyError)
      && forall n :: n != name.value ==> Get(Removed(reg, name).value, n) == Get(reg, n)
  {
    if name.Some? {
      DropOnly(reg, name.value);
    }
  }

  /** The class `PTZController`, its class-level `_instances` dict and the calls it has made
      on the instances. */
  class PTZController<A> {
    var names: seq<string>
    var instances: map<string, Camera<A>>
    var actions: seq<Action<A>>

    function State(): Registry<A>
      reads this
    {
      Registry(names, instances)
    }

    constructor ()
      ensures State() == Empty() && actions == []
    {
      names := [];
      instances := map[];
      actions := [];
    }

    /** `PTZController(name, vendor_class, *args)`: the instance is built as
        `vendor_class(name, *args)`. */
    method New(name: string, vendorClass: Option<VendorClass>, args: seq<A>) returns (r: Result<Camera<A>>)
      modifies this
      ensures (r, State()) == Register(old(State()), name, vendorClass, Some(name), args)
      ensures actions == old(actions)
    {
      if name in instances {
        return Ok(instances[name]);
      }
      if vendorClass.None? {
        return Err(ValueError);
      }
      var cam := Camera(vendorClass.value, Some(name), args);
      instances := instances[name := cam];
      names := names + [name];
      r := Ok(cam);
    }

    /** `PTZController.get(name)`. */
    method GetCamera(name: string) returns (r: Result<Camera<A>>)
      ensures r == Get(State(), name)
    {
      if name !in instances {
        return Err(KeyError);
      }
      r := Ok(instances[name]);
    }

    /** `list_cameras()`: the registered names, in registration order. */
    method ListCameras() returns (r: seq<string>)
      requires Valid(State())
      ensures Distinct(r) && forall n :: n in r <==> Get(State(), n).Ok?
      ensures r == State().names
    {
      r := names;
    }

    /** `_release(camera_name)`: pop the entry and release its stream when the class can;
        `found` is false (the "not found" warning) when nothing was registered. */
    method Release(name: string) returns (found: bool)
      requires Valid(State())
      modifies this
      ensures found <==> name in old(instances)
      ensures Valid(State()) && State() == Drop(old(State()), name)
      ensures found ==>
        actions == old(actions) +
          (if old(instances)[name].vendor.hasReleaseStream then [ReleaseStream(old(instances)[name])] else [])
      ensures !found ==> actions == old(actions)
    {
      DropOnly(State(), name);
      found := name in instances;
      if found {
        var cam := instances[name];
        instances := instances - {name};
        names := Without(names, name);
        if cam.vendor.hasReleaseStream {
          actions := actions + [ReleaseStream(cam)];
        }
      } else {
        WithoutAbsent(names, name);
      }
    }

    /** One step of `remove`: `stop_continuous()` on the instance `PTZController(name)`
        returned for a registered name, then `_release(name)`, which finds it. */
    method StopAndRelease(name: string, cam: Camera<A>)
      requires Valid(State()) && name in instances && cam == instances[name]
      modifies this
      ensures Valid(State()) && State() == Drop(old(State()), name)
      ensures actions == old(actions) + TearOne(cam)
    {
      actions := actions + [StopContinuous(cam)];
      var found := Release(name);
      assert found;
    }

    /** `remove(None)`: every registered camera, in registration order, is looked up again,
        stopped and released; the dict ends empty. */
    method RemoveAll()
      requires Valid(State())
      modifies this
      ensures State() == Empty()
      ensures actions == old(actions) + Teardown(old(State()), old(names))
    {
      var pending := names;
      ghost var start := State();
      ghost var initial := actions;
      for i := 0 to |pending|
        invariant Valid(State())
        invariant names == pending[i..]
        invariant forall n :: n in instances ==> n in start.instances && instances[n] == start.instances[n]
        invariant actions == initial + Teardown(start, pending[..i])
      {
        RemoveNext(pending, i, start, initial);
      }
      assert pending[..|pending|] == pending;
      assert forall n :: n !in instances;
      assert instances == map[];
    }

    /** One turn of the `remove(None)` loop: the next name still registered is looked up,
        stopped and released. */
    method RemoveNext(pending: seq<string>, i: nat, ghost start: Registry<A>, ghost initial: seq<Action<A>>)
      requires i < |pending| && Valid(State()) && names == pending[i..]
      requires forall n :: n in instances ==> n in start.instances && instances[n] == start.instances[n]
      requires actions == initial + Teardown(start, pending[..i])
      modifies this
      ensures Valid(State()) && names == pending[i + 1..]
      ensures forall n :: n in instances ==> n in start.instances && instances[n] == start.instances[n]
      ensures actions == initial + Teardown(start, pending[..i + 1])
    {
      ghost var before := State();
      var cam := New(pending[i], None, []);
      assert cam.value == start.instances[pending[i]];
      StopAndRelease(pending[i], cam.value);
      DropFirst(before, start, pending, i);
      TeardownStep(initial, start, pending, i);
    }

    /** `remove(name)`: None removes every camera; a registered name is stopped and released
        alone; an unregistered name raises ValueError before anything changes, so the "not
        found" branch of the release is never taken. */
    method Remove(name: Option<string>) returns (r: Result<()>)
      requires Valid(State())
      modifies this
      ensures r.Err? <==> Removed(old(State()), name).Err?
      ensures r.Err? ==> r.error == ValueError && State() == old(State()) && actions == old(actions)
      ensures r.Ok? ==> State() == Removed(old(State()), name).value
      ensures r.Ok? ==> actions == old(actions) + Teardown(old(State()), if name.None? then old(names) else [name.value])
    {
      if name.None? {
        RemoveAll();
        return Ok(());
      }
      var cam := New(name.value, None, []);
      if cam.Err? {
        return Err(ValueError);
      }
      StopAndRelease(name.value, cam.value);
      r := Ok(());
    }
  }
}

/** `src/ptz_devices/ptz_controller.py`: the registry whose vendor constructors receive only
    the extra arguments, and whose `remove` ignores unregistered names. */
module DevicesPtzController {
  import opened Wrappers
  import opened PtzRegistry

  /** `remove(name)` twice is `remove(name)` once, and it leaves an unregistered name's dict
      alone. */
  lemma RemoveTwice<A>(reg: Registry<A>, name: string)
    requires Valid(reg)
    ensures Drop(Drop(reg, name), name) == Drop(reg, name)
    ensures name !in reg.instances ==> Drop(reg, name) == reg
  {
    DropOnly(reg, name);
    DropOnly(Drop(reg, name), name);
  }

  /** The class `PTZController`, its class-level `_instances` dict and the calls it has made
      on the instances. */
  class PTZController<A> {
    var names: seq<string>
    var instances: map<string, Camera<A>>
    var actions: seq<Action<A>>

    function State(): Registry<A>
      reads this
    {
      Registry(names, instances)
    }

    constructor ()
      ensures State() == Empty() && actions == []
    {
      names := [];
      instances := map[];
      actions := [];
    }

    /** `PTZController(name, vendor_class, *args)`: the instance is built as
        `vendor_class(*args)`, without the name. */
    method New(name: string, vendorClass: Option<VendorClass>, args: seq<A>) returns (r: Result<Camera<A>>)
      modifies this
      ensures (r, State()) == Register(old(State()), name, vendorClass, None, args)
      ensures actions == old(actions)
    {
      if name in instances {
        return Ok(instances[name]);
      }
      if vendorClass.None? {
        return Err(ValueError);
      }
      var cam := Camera(vendorClass.value, None, args);
      instances := instances[name := cam];
      names := names + [name];
      r := Ok(cam);
    }

    /** `PTZController.get(name)`. */
    method GetCamera(name: string) returns (r: Result<Camera<A>>)
      ensures r == Get(State(), name)
    {
      if name !in instances {
        return Err(KeyError);
      }
      r := Ok(instances[name]);
    }

    /** `list_cameras()`: the registered names, in registration order. */
    method ListCameras() returns (r: seq<string>)
      requires Valid(State())
      ensures Distinct(r) && forall n :: n in r <==> Get(State(), n).Ok?
      ensures r == State().names
    {
      r := names;
    }

    /** `remove(name)`: nothing happens for an unregistered name; a registered one has its
        stream released when the class can, then its entry deleted. */
    method Remove(name: string)
      requires Valid(State())
      modifies this
      ensures Valid(State()) && State() == Drop(old(State()), name)
      ensures actions == old(actions) +
        (if name in old(instances) && old(instances)[name].vendor.hasReleaseStream
         then [ReleaseStream(old(instances)[name])] else [])
    {
      DropOnly(State(), name);
      if name in instances {
        var cam := instances[name];
        if cam.vendor.hasReleaseStream {
          actions := actions + [ReleaseStream(cam)];
        }
        instances := instances - {name};
        names := Without(names, name);
      }
    }
  }
}
