/** The stateful parts of the container: the `Injector` object whose
    `_providers` dictionary `provide` and `provide_instance` update in place,
    construction of an `@inject`-decorated class, which fills in keyword
    arguments in a loop, and the single-slot cache of an `@singleton`
    class.  Each is proved against the value-level definitions of the
    Registry and Injection modules. */
module Diy {
  import opened Wrappers
  import opened Registry
  import opened Injection

  /** Calling a provider with no arguments: an instance provider returns its
      object, a class provider runs the class's constructor with no
      arguments. */
  method CallProvider(prov: Provider) returns (o: Obj)
    ensures Yields(prov, o)
    ensures prov.ClassProv? ==> fresh(o)
  {
    if prov.InstanceProv? {
      o := prov.obj;
    } else {
      o := new Obj.Construct(prov.cls, [], map[]);
    }
  }

  class Injector {
    var providers: Providers

    ghost predicate Valid()
      reads this
    {
      HasDefaultBucket(providers)
    }

    /** `Injector()`: only the default bucket, and it is empty. */
    constructor ()
      ensures Valid()
      ensures providers == map[None := map[]]
    {
      providers := map[None := map[]];
    }

    /** `provide(iface, cls, name)`: binds `iface` to the class `cls` under
        `name` when `cls` is a subclass of `iface`, and otherwise raises
        before touching the registry. */
    method Provide(iface: TypeId, cls: TypeId, name: Option<Name>, isSubclass: (TypeId, TypeId) -> bool)
      returns (r: Outcome<Error>)
      requires Valid()
      modifies this
      ensures Valid()
      ensures r == if isSubclass(cls, iface) then Pass else Fail(NotSubclass(cls, iface))
      ensures providers == Register(old(providers), ProvideClass(iface, cls, name), isSubclass)
    {
      if !isSubclass(cls, iface) {
        return Fail(NotSubclass(cls, iface));
      }
      providers := providers[name := BucketOf(providers, name)];          // setdefault(name, {})
      providers := providers[name := providers[name][iface := ClassProv(cls)]];
      r := Pass;
    }

    /** `provide_instance(iface, obj, name)`: binds `iface` to the constant
        provider of `obj` under `name`, with no subclass check. */
    method ProvideInstance(iface: TypeId, obj: Obj, name: Option<Name>)
      requires Valid()
      modifies this
      ensures Valid()
      ensures providers == Bind(old(providers), name, iface, InstanceProv(obj))
    {
      providers := providers[name := BucketOf(providers, name)];          // setdefault(name, {})
      providers := providers[name := providers[name][iface := InstanceProv(obj)]];
    }

    /** `get_instance(iface_or_cls, name)`: finds the provider as `Lookup`
        does and calls it. */
    method GetInstance(iface: TypeId, name: Option<Name>) returns (r: Result<Obj, Error>)
      ensures r.Failure? <==> Lookup(providers, iface, name).Failure?
      ensures r.Failure? ==> r.error == Lookup(providers, iface, name).error
      ensures r.Success? ==> Yields(Lookup(providers, iface, name).value, r.value)
      ensures r.Success? && Lookup(providers, iface, name).value.ClassProv? ==> fresh(r.value)
    {
      if name !in providers {
        return Failure(UnknownQualifier(name));
      }
      var provider := if iface in providers[name] then providers[name][iface] else ClassProv(iface);
      var o := CallProvider(provider);
      r := Success(o);
    }

    /** `injector.get_instance(req)` as injection calls it.  A `Named`
        requirement is looked up in the default bucket, falls back to
        itself, and its `__call__` is `get_instance(iface, name=name)`. */
    method Require(req: Requirement) returns (r: Result<Obj, Error>)
      ensures r.Failure? <==> Resolve(providers, req).Failure?
      ensures r.Failure? ==> r.error == Resolve(providers, req).error
      ensures r.Success? ==> Yields(Resolve(providers, req).value, r.value)
      ensures r.Success? && Resolve(providers, req).value.ClassProv? ==> fresh(r.value)
    {
      match req
      case Plain(t) =>
        r := GetInstance(t, None);
      case Named(n, t) =>
        if None !in providers {
          return Failure(UnknownQualifier(None));
        }
        r := GetInstance(t, Some(n));
    }
  }

  /** The keyword loop of `Injectable.__call__`: for each declared parameter
      the caller did not pass, resolve its requirement against `inj` and add
      the result; the first failing lookup aborts the call. */
  method InjectDependencies(inj: Injector, deps: Dependencies, kwargs: Kwargs) returns (r: Result<Kwargs, Error>)
    ensures r.Failure? <==> InjectionFails(inj.providers, deps, kwargs)
    ensures r.Failure? ==> exists k :: k in deps && k !in kwargs && Resolve(inj.providers, deps[k]) == Failure(r.error)
    ensures r.Success? ==> Augmented(inj.providers, deps, kwargs, r.value)
    ensures r.Success? ==> forall k :: k in deps && k !in kwargs && Resolve(inj.providers, deps[k]).value.ClassProv? ==>
                             fresh(r.value[k])
  {
    var out := kwargs;
    var todo := deps.Keys;
    while todo != {}
      invariant todo <= deps.Keys
      invariant out.Keys == kwargs.Keys + (deps.Keys - todo)
      invariant forall k :: k in kwargs ==> out[k] == kwargs[k]
      invariant forall k :: k in deps && k !in todo && k !in kwargs ==>
                  Resolve(inj.providers, deps[k]).Success? && Yields(Resolve(inj.providers, deps[k]).value, out[k])
      invariant forall k :: k in deps && k !in todo && k !in kwargs && Resolve(inj.providers, deps[k]).value.ClassProv? ==>
                  fresh(out[k])
      decreases todo
    {
      var k :| k in todo;
      if k !in out {
        var v := inj.Require(deps[k]);
        if v.Failure? {
          return Failure(v.error);
        }
        out := out[k := v.value];
      }
      todo := todo - {k};
    }
    r := Success(out);
  }

  /** A class decorated with `@inject(**deps)`; `_inject` attaches `deps` to
      it as `__dependencies__`. */
  datatype InjectableClass = InjectableClass(ty: TypeId, deps: Dependencies)

  /** `Injectable.__call__(cls, *args, **kwargs)` with `inj` as the injector:
      injection, then the real constructor with the positional arguments as
      given; when a lookup fails the constructor is not reached. */
  method Instantiate(inj: Injector, cls: InjectableClass, args: seq<Obj>, kwargs: Kwargs)
    returns (r: Result<Obj, Error>)
    ensures r.Failure? <==> InjectionFails(inj.providers, cls.deps, kwargs)
    ensures r.Failure? ==>
              exists k :: k in cls.deps && k !in kwargs && Resolve(inj.providers, cls.deps[k]) == Failure(r.error)
    ensures r.Success? ==> fresh(r.value) && r.value.ty == cls.ty && r.value.args == args
    ensures r.Success? ==> Augmented(inj.providers, cls.deps, kwargs, r.value.kwargs)
    ensures r.Success? ==>
              forall k :: k in cls.deps && k !in kwargs && Resolve(inj.providers, cls.deps[k]).value.ClassProv? ==>
                fresh(r.value.kwargs[k])
  {
    var full := InjectDependencies(inj, cls.deps, kwargs);
    if full.Failure? {
      return Failure(full.error);
    }
    var o := new Obj.Construct(cls.ty, args, full.value);
    r := Success(o);
  }

  /** A class decorated with `@singleton(**deps)`.  The table is stored as
      `__dependencies__`, but `Singleton.__call__` never reads it. */
  class Singleton {
    const ty: TypeId
    const deps: Dependencies
    var instance: Option<Obj>

    constructor (ty: TypeId, deps: Dependencies)
      ensures this.ty == ty && this.deps == deps && instance == None
    {
      this.ty := ty;
      this.deps := deps;
      instance := None;
    }

    /** `Singleton.__call__(cls, *args, **kwargs)`: the first call builds the
        object from exactly the caller's arguments (nothing is injected) and
        stores it; every later call returns the stored object, whatever its
        arguments. */
    method Call(args: seq<Obj>, kwargs: Kwargs) returns (r: Obj)
      modifies this
      ensures instance == Some(r)
      ensures old(instance).Some? ==> r == old(instance).value
      ensures old(instance).None? ==> fresh(r) && r.ty == ty && r.args == args && r.kwargs == kwargs
    {
      if instance.Some? {
        return instance.value;
      }
      r := new Obj.Construct(ty, args, kwargs);
      instance := Some(r);
    }
  }

  /** A new injector on which `Implementation` provides `Interface`, as at
      the head of the module. */
  method WalkthroughInjector() returns (inj: Injector)
    ensures fresh(inj) && inj.Valid()
    ensures inj.providers == map[None := map["Interface" := ClassProv("Implementation")]]
  {
    inj := new Injector();
    var isSubclass := (c: TypeId, i: TypeId) => c == i || (c == "Implementation" && i == "Interface");
    var provided := inj.Provide("Interface", "Implementation", None, isSubclass);
  }

  /** `Dependent` declares `interface=Interface`: called without it, the
      parameter is an object built by `Implementation`; called with
      `interface=parameter`, it is exactly `parameter`. */
  method Walkthrough(parameter: Obj) returns (injected: Obj, overridden: Obj)
    ensures injected.ty == "Implementation" && injected.args == [] && injected.kwargs == map[]
    ensures overridden == parameter
  {
    var inj := WalkthroughInjector();
    var dependent := InjectableClass("Dependent", map["interface" := Plain("Interface")]);
    assert Resolve(inj.providers, Plain("Interface")) == Success(ClassProv("Implementation"));
    assert !InjectionFails(inj.providers, dependent.deps, map[]) by {
      FailsOnlyOnUnknownQualifier(inj.providers, dependent.deps, map[]);
    }
    var d1 := Instantiate(inj, dependent, [], map[]);
    injected := d1.value.kwargs["interface"];

    var d2 := Instantiate(inj, dependent, [], map["interface" := parameter]);
    overridden := d2.value.kwargs["interface"];
  }

  /** The named instance registered under `'name'`: `NamedDependent`, which
      declares `interface=named('name', Interface)`, receives exactly that
      instance, while the default binding still gives `Implementation`. */
  method NamedWalkthrough(instance: Obj) returns (named: Obj, unnamed: Obj)
    ensures named == instance
    ensures unnamed.ty == "Implementation"
  {
    var inj := WalkthroughInjector();
    inj.ProvideInstance("Interface", instance, Some("name"));
    var namedDependent := InjectableClass("NamedDependent", map["interface" := Named("name", "Interface")]);
    assert Resolve(inj.providers, Named("name", "Interface")) == Success(InstanceProv(instance));
    assert !InjectionFails(inj.providers, namedDependent.deps, map[]) by {
      FailsOnlyOnUnknownQualifier(inj.providers, namedDependent.deps, map[]);
    }
    var d := Instantiate(inj, namedDependent, [], map[]);
    named := d.value.kwargs["interface"];

    var u := inj.GetInstance("Interface", None);
    unnamed := u.value;
  }

  /** `Derived('extra')`: a subclass given `Dependent`'s table keeps its
      positional argument and still gets `interface` injected. */
  method DerivedWalkthrough(extra: Obj) returns (derived: Obj)
    ensures derived.ty == "Derived" && derived.args == [extra]
    ensures derived.kwargs.Keys == {"interface"} && derived.kwargs["interface"].ty == "Implementation"
  {
    var inj := WalkthroughInjector();
    var derivedClass := InjectableClass("Derived", map["interface" := Plain("Interface")]);
    assert Resolve(inj.providers, Plain("Interface")) == Success(ClassProv("Implementation"));
    assert !InjectionFails(inj.providers, derivedClass.deps, map[]) by {
      FailsOnlyOnUnknownQualifier(inj.providers, derivedClass.deps, map[]);
    }
    var d := Instantiate(inj, derivedClass, [extra], map[]);
    derived := d.value;
  }

  /** `SomeSingleton() is SomeSingleton()`: two calls, with any arguments,
      give the identical object. */
  method SingletonIdentity(args1: seq<Obj>, kwargs1: Kwargs, args2: seq<Obj>, kwargs2: Kwargs)
    returns (first: Obj, second: Obj)
    ensures first == second
    ensures first.ty == "SomeSingleton" && first.args == args1 && first.kwargs == kwargs1
  {
    var someSingleton := new Singleton("SomeSingleton", map[]);
    first := someSingleton.Call(args1, kwargs1);
    second := someSingleton.Call(args2, kwargs2);
  }
}
