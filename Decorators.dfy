/** The helpers of `src/helpers/decorators.py`: the `@singleton` decorator, which rebuilds
    a class with the SingletonMeta metaclass, the per-class instance cache behind it, and
    the immutable `Range` pair. */
module Decorators {

  /** The cache after calling class `cls` when `built` is what its constructor would return:
      the first call for a class stores the new instance, later calls leave the cache alone. */
  function Cached<C, I>(instances: map<C, I>, cls: C, built: I): (r: map<C, I>)
    ensures cls in r
    ensures cls in instances ==> r == instances
    ensures cls !in instances ==> r[cls] == built
    ensures r.Keys == instances.Keys + {cls}
    ensures forall c :: c in instances ==> c in r && r[c] == instances[c]
  {
    if cls in instances then instances else instances[cls := built]
  }

  /** A second call for the same class returns the first call's instance, whatever the
      constructor would have built this time. */
  lemma CachedOnce<C, I>(instances: map<C, I>, cls: C, first: I, second: I)
    ensures Cached(Cached(instances, cls, first), cls, second) == Cached(instances, cls, first)
    ensures Cached(Cached(instances, cls, first), cls, second)[cls] == Cached(instances, cls, first)[cls]
  {
  }

  /** The cache is keyed by class: calls for two different classes do not affect each other,
      in either order. */
  lemma CachedIndependent<C, I>(instances: map<C, I>, c1: C, b1: I, c2: C, b2: I)
    requires c1 != c2
    ensures Cached(Cached(instances, c1, b1), c2, b2) == Cached(Cached(instances, c2, b2), c1, b1)
    ensures Cached(Cached(instances, c1, b1), c2, b2)[c1] == Cached(instances, c1, b1)[c1]
  {
  }

  /** `SingletonMeta`: the metaclass whose `_instances` dict, shared by every class built
      with it, maps each class to its one instance. */
  class SingletonMeta<C(==), A, I> {
    var instances: map<C, I>

    constructor ()
      ensures instances == map[]
    {
      instances := map[];
    }

    /** `cls(*args)`: the constructor `construct` runs on `args` only when the class has no
        instance yet; the cached instance is returned in every case. */
    method Call(cls: C, args: A, construct: A -> I) returns (inst: I)
      modifies this
      ensures instances == Cached(old(instances), cls, construct(args))
      ensures inst == instances[cls]
      ensures cls in old(instances) ==> inst == old(instances)[cls]
      ensures cls !in old(instances) ==> inst == construct(args)
    {
      if cls !in instances {
        instances := instances[cls := construct(args)];
      }
      inst := instances[cls];
    }
  }

  /** The metaclass a class is built with, which decides what calling the class does. */
  datatype Metaclass = TypeMeta | SingletonMetaclass

  /** A class object as `singleton` reads it: its identity, `__name__`, `__bases__` (by
      identity), `__dict__` and metaclass. */
  datatype ClassObject<V> =
    ClassObject(id: nat, name: string, bases: seq<nat>, namespace: map<string, V>, meta: Metaclass)

  /** `singleton(cls)`: a new class object, with identity `newId`, built by SingletonMeta
      from the name, the bases and a copy of the namespace of `cls`. */
  function Singleton<V>(cls: ClassObject<V>, newId: nat): (r: ClassObject<V>)
    requires newId != cls.id
    ensures r.id == newId && r.id != cls.id
    ensures r.meta == SingletonMetaclass
    ensures r.name == cls.name && r.bases == cls.bases && r.namespace == cls.namespace
  {
    ClassObject(newId, cls.name, cls.bases, cls.namespace, SingletonMetaclass)
  }

  /** `cls(*args)`, given what the constructor would build and the shared instance dict:
      through `type` every call gives what it builds and leaves the dict alone; through
      SingletonMeta the dict, keyed by the class's identity, decides. */
  function Instantiate<V, I>(cls: ClassObject<V>, instances: map<nat, I>, built: I): (r: (I, map<nat, I>))
    ensures cls.meta == TypeMeta ==> r == (built, instances)
    ensures cls.meta == SingletonMetaclass ==>
      r.1 == Cached(instances, cls.id, built) && cls.id in r.1 && r.0 == r.1[cls.id]
  {
    if cls.meta == TypeMeta then (built, instances)
    else
      var after := Cached(instances, cls.id, built);
      (after[cls.id], after)
  }

  /** After `@singleton`, every call of the class returns the instance the first call
      returned, whatever later calls would build; a plain class gives each call its own. */
  lemma DecoratedSharesInstance<V, I>(cls: ClassObject<V>, newId: nat, instances: map<nat, I>, first: I, second: I)
    requires newId != cls.id
    ensures var d := Singleton(cls, newId);
      var (a, after) := Instantiate(d, instances, first);
      Instantiate(d, after, second).0 == a
        && (newId !in instances ==> a == first)
        && (forall k :: k in instances && k != newId ==> k in after && after[k] == instances[k])
    ensures cls.meta == TypeMeta ==>
      Instantiate(cls, instances, first).0 == first && Instantiate(cls, instances, second).0 == second
  {
    var d := Singleton(cls, newId);
    var (a, after) := Instantiate(d, instances, first);
    CachedOnce(instances, newId, first, second);
  }

  /** `Range(min, max)`: a frozen pair of integer bounds. */
  datatype Range = Range(min: int, max: int)
}
