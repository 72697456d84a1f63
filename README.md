# diy — a do-it-yourself dependency injector, modelled in Dafny

`diy.py` is a small dependency-injection container. An `Injector` keeps a
two-level registry: a qualifier name (or `None`, the default) maps to a
bucket, and a bucket maps an interface to a provider. A provider is either a
class, which `provide` registers after checking that it subclasses the
interface, or a constant `lambda: obj`, which `provide_instance` registers
without any check. `get_instance(iface, name)` indexes the bucket `name`,
which raises `KeyError` when that bucket was never created. Inside the
bucket it uses the bound provider, or the requested type itself when nothing
is bound, and calls it with no arguments.

Classes decorated with `@inject(**deps)` get a dependency table. When such a
class is called, every declared parameter the caller did not pass by keyword
is filled in with `injector.get_instance(requirement)`. Positional arguments
pass through untouched. A requirement built by `named(name, iface)` is a class
that the default bucket does not bind. The lookup therefore falls back to
calling it, and its call does the qualified lookup `get_instance(iface, name)`.
Classes decorated with `@singleton(**deps)` build their instance on the first
call and return that same instance on every later call.

The model has four modules:

- `Wrappers` (`wrappers.dfy`): `Option`, `Result` and `Outcome`.
- `Registry` (`registry.dfy`): the registry as a value. It holds `Bind`
  (`setdefault(name, {})[iface] = …`), `Lookup` (the provider `get_instance`
  calls) and `Resolve` (a dependency-table entry). `Register` and `Replay`
  give the effect of one registration call and of a sequence of them.
  `LastBound` is an independent reference view of a sequence of calls. The
  lemmas relate all of these.
- `Injection` (`injection.dfy`): the keyword set the real constructor
  receives (`Augmented`) and the condition under which injection raises
  (`InjectionFails`), with lemmas about both.
- `Diy` (`diy.dfy`): the stateful parts. It has the `Injector` class, whose
  `providers` field `Provide` and `ProvideInstance` update in place, and the
  injection loop `InjectDependencies`. `Instantiate` models
  `Injectable.__call__`. The `Singleton` class has its single `instance` slot.
  Client methods replay the usage walkthrough in the module docstring.

Objects are instances of the class `Obj`. An object that a constructor builds
records its class and the positional and keyword arguments that constructor
received, so "the constructor received these keywords" is a statement about
the object. Classes are identified by name (`TypeId = string`). `issubclass`
is passed in as a relation `isSubclass`. The global `injector` is an explicit
`Injector` argument.

The decorators `inject(**deps)` and `singleton(**deps)` only attach the table.
They are modelled by building `InjectableClass(ty, deps)` and by
`new Singleton(ty, deps)`. `named(name, iface)` is the value
`Named(name, iface)`.

As written, `Singleton.__call__` never reads the table that `singleton(**deps)`
stores. The model follows the code, so a singleton's first construction
receives exactly the caller's arguments. `Singleton.Call` states this.

## Model

| member | source | states |
|---|---|---|
| `Registry.Bind` | diy.py:124-128 | the new registry has the bucket `name` and binds `iface` to the provider there; every other bucket and every other key of that bucket is unchanged |
| `Registry.NewInjectorLookup` | diy.py:118-133 | on a new injector every type resolves to itself under the default name, and every other name fails with an unknown-qualifier error |
| `Registry.DefaultAndNamedResolution` | diy.py:130-200 | while the default bucket exists, default-name lookups never fail; a plain requirement resolves as `get_instance(iface)` and `named(name, iface)` exactly as `get_instance(iface, name)` |
| `Registry.SelfFallback` | diy.py:132-133 | inside an existing bucket an unbound type resolves to a class provider for itself |
| `Registry.LookupAfterBind` | diy.py:124-133 | after binding `(name, iface)` the lookup of that key gives exactly the bound provider |
| `Registry.LookupUnaffected` | diy.py:124-132 | binding one key leaves the lookup of every other key unchanged, apart from a newly created bucket starting to answer |
| `Registry.LastWriteWins` | diy.py:124-128 | binding the same key twice equals binding it only the second time |
| `Registry.BindCommutes` | diy.py:124-128 | bindings of two different keys commute |
| `Registry.RefusedProvideChangesNothing` | diy.py:121-128 | a `provide` whose class is not a subclass of the interface leaves the registry unchanged; `provide_instance` always binds, with no check |
| `Registry.ReplayKeepsDefaultBucket` | diy.py:118-128 | no sequence of registrations removes the default bucket |
| `Registry.ReplayLookup` | diy.py:118-133 | after any sequence of registrations, a lookup fails exactly when its bucket neither existed nor was created by an effective call. Otherwise it gives the provider of the last effective call on that key, or the earlier binding or self-fallback when no call bound it |
| `Registry.NamedBindingsAreIsolated` | diy.py:50-65 | after `provide(iface, impl)` and `provide_instance(iface, obj, name=n)`, the default name resolves `iface` to the class `impl` and `n` resolves it to exactly `obj` |
| `Injection.FailsOnlyOnUnknownQualifier` | diy.py:143-146 | with the default bucket present, injection fails exactly when an omitted declared parameter names a qualifier whose bucket does not exist |
| `Injection.SuppliedKwargsPassThrough` | diy.py:144-146 | when the caller passes every declared parameter by keyword, injection cannot fail and the constructor receives exactly the caller's keywords |
| `Injection.UndeclaredKwargsPassThrough` | diy.py:143-147 | a keyword the class does not declare reaches the constructor only from the caller, unchanged |
| `Diy.CallProvider` | diy.py:128-133 | calling an instance provider gives its object; calling a class provider gives a new object built by that class with no arguments |
| `Diy.Injector.constructor` | diy.py:118-119 | a new injector holds only the default bucket, and it is empty |
| `Diy.Injector.Provide` | diy.py:121-124 | raises the subclass assertion error exactly when `cls` is not a subclass of `iface`; the new registry is `Register` of the old one, so it is unchanged on refusal and bound otherwise; the default bucket is kept |
| `Diy.Injector.ProvideInstance` | diy.py:126-128 | the new registry is the old one with `(name, iface)` bound to the constant provider of `obj`, with no check |
| `Diy.Injector.GetInstance` | diy.py:130-133 | fails with `KeyError` exactly when the bucket is missing; otherwise returns what the provider found by `Lookup` yields, and a new object when that provider is a class |
| `Diy.Injector.Require` | diy.py:192-200 | resolving a dependency-table entry fails or succeeds as `Resolve` says, with its error, and yields what its provider gives, a new object when that provider is a class; a `named` entry goes to the qualified lookup |
| `Diy.InjectDependencies` | diy.py:143-146 | fails exactly when some omitted declared parameter's lookup fails, with that lookup's error. On success the keyword set keeps the caller's values, adds every omitted declared parameter with what its requirement yields (a new object when the provider is a class), and adds nothing else |
| `Diy.Instantiate` | diy.py:143-148 | fails exactly when injection fails, with the failing lookup's error, and then no object is returned. Otherwise it returns a new object of the class whose constructor received the positional arguments unchanged and the augmented keywords, in which every class-provided value is a new object |
| `Diy.Singleton.constructor` | diy.py:174-189 | the decorated class keeps its table and starts with an empty instance slot |
| `Diy.Singleton.Call` | diy.py:154-159 | with an empty slot, builds a new object from exactly the caller's arguments (nothing injected) and stores it. With a full slot, returns the stored object whatever the arguments. The slot then holds the returned object |
| `Diy.WalkthroughInjector` | diy.py:16-29 | a new injector on which `provide(Interface, Implementation)` succeeds holds exactly that one binding in the default bucket |
| `Diy.Walkthrough` | diy.py:29-48 | `Dependent().interface` is an object built by `Implementation` with no arguments, and `Dependent(interface=x).interface` is exactly `x` |
| `Diy.NamedWalkthrough` | diy.py:50-65 | after `provide_instance(Interface, instance, name='name')`, `NamedDependent().interface` is exactly `instance`, while `get_instance(Interface)` still builds an `Implementation` |
| `Diy.DerivedWalkthrough` | diy.py:104-112 | `Derived('extra')` keeps its positional argument and receives exactly the keyword `interface`, built by `Implementation` |
| `Diy.SingletonIdentity` | diy.py:67-75 | two calls of a singleton class, with any arguments, return the identical object, built from the first call's arguments |

## Left out

- `_with_meta` rebuilds a class under a synthesised metaclass. It is Python object-model machinery and is not modelled. This includes its use of `meta.__bases__` in place of `meta`, which drops a class's own custom metaclass (such as the walkthrough's `Meta`) from the new metaclass.
- Stacking `@singleton` and `@inject` on one class is not modelled. Both metaclasses survive, so the singleton's first construction goes through `Injectable.__call__`, and it injects from whichever table was attached last, because the second decorator's `setattr` replaces `__dependencies__`.
- Method resolution through `super(..., type(cls)).__call__` and the MRO behind `issubclass` are not modelled. Construction is the abstract step `Obj.Construct`, and subclassing is the relation `isSubclass` given by the caller.
- `Diy.Injector.Provide`: it does not model running under `python -O`, where the `assert` is removed and `provide` never refuses. It also does not model the `TypeError` that `issubclass` raises for a non-class argument.
- Inheritance of `__dependencies__` and `__instance__` through attribute lookup is not modelled. Each decorated class has one table and one slot. The walkthrough's `Derived` is given `Dependent`'s table explicitly, and a subclass of a singleton class sharing its parent's instance is not modelled.
- `Diy.Injector.GetInstance`: like `Diy.CallProvider`, it promises a new object from a class provider (and so do `Diy.Injector.Require`, `Diy.InjectDependencies` and `Diy.Instantiate` for injected values), which does not hold for a `@singleton` class reached by self-fallback (its cached instance is returned); see the next line.
- `Diy.CallProvider`: a class provider, and the self-fallback onto an unbound class, build the class with no arguments. When that class is itself `@inject`- or `@singleton`-decorated, its own `__call__` (nested injection, or its cached instance) is not followed. Auto-wiring is modelled one level deep only, so the walkthrough step `SingletonDependent().singleton is SomeSingleton()` is not modelled.
- `named(name, iface)` creates a new class on each call. The model treats that class as a requirement value, never as a registry key, so a binding keyed by a `named` class itself is not modelled.
- The dependency table is iterated in an unspecified order, not Python's insertion order. When several lookups fail, which error is reported, and the order in which injected objects are built, are therefore not fixed by the model.
- Exceptions raised by user constructors, and the constructor bodies themselves, are not modelled. An object records only what its constructor received.
- The module-level `injector` global is an explicit `Injector` argument. The display name that `named` gives its class, `__all__` and the doctest prose are not modelled.
