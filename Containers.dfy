/** The dependency registry (BasicContainer): instances keyed by their type and,
    separately, by a caller-chosen name. A stored instance is a tagged value, the
    tag standing for the concrete type behind `Box<dyn Any>`. */
module Containers {
  import opened Wrappers

  /** Stands for `std::any::TypeId`. */
  type TypeId = string

  /** A boxed value together with its concrete type. */
  datatype Instance<V> = Instance(typeId: TypeId, value: V)

  /** A provider of type `typeId`; `instantiate` stands for Provider::instantiate,
      which yields a boxed copy of the provider itself (so of the same type). */
  datatype Provider<V> = Provider(typeId: TypeId, instantiate: () -> V)

  /** Downcast of a stored instance to the requested type. */
  function Downcast<V>(i: Instance<V>, t: TypeId): (r: Option<V>)
    ensures r.Some? <==> i.typeId == t
    ensures r.Some? ==> r.value == i.value
  {
    if i.typeId == t then Some(i.value) else None
  }

  /** Lookup in a table of instances followed by the downcast. */
  function Find<K, V>(m: map<K, Instance<V>>, key: K, t: TypeId): (r: Option<V>)
    ensures r.Some? <==> key in m && m[key].typeId == t
    ensures r.Some? ==> r.value == m[key].value
  {
    if key in m then Downcast(m[key], t) else None
  }

  class BasicContainer<V> {
    var byType: map<TypeId, Instance<V>>
    var byName: map<string, Instance<V>>

    /** Every entry of `byType` sits under its own type. */
    ghost predicate Valid()
      reads this
    {
      forall t :: t in byType ==> byType[t].typeId == t
    }

    /** BasicContainer::new: both tables empty. */
    constructor ()
      ensures Valid() && byType == map[] && byName == map[]
    {
      byType := map[];
      byName := map[];
    }

    /** BasicContainer::default is BasicContainer::new. */
    static method Default() returns (c: BasicContainer<V>)
      ensures fresh(c) && c.Valid() && c.byType == map[] && c.byName == map[]
    {
      c := new BasicContainer();
    }

    /** Container::resolve: a copy of the instance registered for type `t`. */
    method Resolve(t: TypeId) returns (r: Option<V>)
      requires Valid()
      ensures r.Some? <==> t in byType
      ensures r.Some? ==> r.value == byType[t].value && byType[t].typeId == t
    {
      r := Find(byType, t, t);
    }

    /** Container::resolve_by_name: a copy of the instance registered under `name`,
        provided it has the requested type. */
    method ResolveByName(name: string, t: TypeId) returns (r: Option<V>)
      ensures r.Some? <==> name in byName && byName[name].typeId == t
      ensures r.Some? ==> r.value == byName[name].value
    {
      r := Find(byName, name, t);
    }

    /** Container::register: the provider's instance under its own type,
        replacing any earlier one; the named table is untouched. */
    method Register(p: Provider<V>)
      requires Valid()
      modifies this
      ensures Valid()
      ensures byType == old(byType)[p.typeId := Instance(p.typeId, p.instantiate())]
      ensures byName == old(byName)
    {
      var instance := Instance(p.typeId, p.instantiate());
      byType := byType[instance.typeId := instance];
    }

    /** Container::register_by_name: the provider's instance under `name`,
        replacing any earlier one; the type table is untouched. */
    method RegisterByName(name: string, p: Provider<V>)
      requires Valid()
      modifies this
      ensures Valid()
      ensures byName == old(byName)[name := Instance(p.typeId, p.instantiate())]
      ensures byType == old(byType)
    {
      var instance := Instance(p.typeId, p.instantiate());
      byName := byName[name := instance];
    }
  }

  /** Nothing resolves in an empty table, by type or by name. */
  lemma EmptyResolvesNothing<K, V>(key: K, t: TypeId)
    ensures Find<K, V>(map[], key, t) == None
  {
  }

  /** After registering a provider, resolving its type yields the new instance,
      and any other type resolves as before. */
  lemma RegisterThenResolve<V>(m: map<TypeId, Instance<V>>, p: Provider<V>, t: TypeId)
    ensures var m' := m[p.typeId := Instance(p.typeId, p.instantiate())];
      && Find(m', p.typeId, p.typeId) == Some(p.instantiate())
      && (t != p.typeId ==> Find(m', t, t) == Find(m, t, t))
  {
  }

  /** The test scenario: before registration nothing resolves; afterwards the
      provider's instance resolves under its own type and under its name, and
      not under another type. */
  method RegistryScenario(p: Provider<string>, other: TypeId)
    returns (before: Option<string>, byItsType: Option<string>, byOtherType: Option<string>,
             byItsName: Option<string>, byNameOtherType: Option<string>)
    requires other != p.typeId
    ensures before == None && byOtherType == None && byNameOtherType == None
    ensures byItsType == Some(p.instantiate()) && byItsName == Some(p.instantiate())
  {
    var c := new BasicContainer<string>();
    before := c.Resolve(p.typeId);
    c.Register(p);
    byItsType := c.Resolve(p.typeId);
    byOtherType := c.Resolve(other);
    c.RegisterByName("config", p);
    byNameOtherType := c.ResolveByName("config", other);
    byItsName := c.ResolveByName("config", p.typeId);
  }
}
