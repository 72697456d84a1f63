/** The binding registry of `Injector` as values.

    `Injector._providers` is a two-level dictionary: a qualifier name (or
    `None`, the default bucket) maps to a bucket, and a bucket maps an
    interface to a provider.  A provider is called with no arguments: a class
    provider builds a new object of its class, an instance provider returns
    the object it was given.  This module holds that map, the pure part of
    `provide`, `provide_instance` and `get_instance`, and what a sequence of
    registrations leaves behind. */
module Registry {
  import opened Wrappers

  /** A class, identified by name (`diy.py` compares classes by identity). */
  type TypeId = string

  /** A qualifier given as `name=` to `provide`, `provide_instance` and `named`. */
  type Name = string

  /** An object of the program using the container.  An object built by a
      constructor records its class and the arguments that constructor received;
      the constructor body itself (user code) is not modelled. */
  class Obj {
    const ty: TypeId
    const args: seq<Obj>
    const kwargs: map<string, Obj>

    /** The real construction step `type.__call__(cls, *args, **kwargs)`. */
    constructor Construct(ty: TypeId, args: seq<Obj>, kwargs: map<string, Obj>)
      ensures this.ty == ty && this.args == args && this.kwargs == kwargs
    {
      this.ty := ty;
      this.args := args;
      this.kwargs := kwargs;
    }
  }

  /** What `_providers` stores: the class itself (`provide`) or `lambda: obj`
      (`provide_instance`). */
  datatype Provider = ClassProv(cls: TypeId) | InstanceProv(obj: Obj)

  /** A value in a dependency table: a type, or the class that `named(name, iface)` builds. */
  datatype Requirement = Plain(iface: TypeId) | Named(name: Name, iface: TypeId)

  datatype Error =
    | UnknownQualifier(name: Option<Name>)      // KeyError from `self._providers[name]`
    | NotSubclass(cls: TypeId, iface: TypeId)   // AssertionError from `assert issubclass(cls, iface)`

  type Bucket = map<TypeId, Provider>

  type Providers = map<Option<Name>, Bucket>

  /** The default bucket that `Injector.__init__` creates; nothing removes it. */
  predicate HasDefaultBucket(p: Providers)
  {
    None in p
  }

  /** `self._providers.setdefault(name, {})`, as the bucket it returns. */
  function BucketOf(p: Providers, name: Option<Name>): Bucket
  {
    if name in p then p[name] else map[]
  }

  /** The registry after `self._providers.setdefault(name, {})[iface] = prov`:
      the bucket `name` exists, `iface` is bound to `prov` in it, and no other
      bucket and no other entry of that bucket changes. */
  function Bind(p: Providers, name: Option<Name>, iface: TypeId, prov: Provider): (q: Providers)
    ensures q.Keys == p.Keys + {name}
    ensures q[name].Keys == BucketOf(p, name).Keys + {iface}
    ensures q[name][iface] == prov
    ensures forall t :: t in BucketOf(p, name) && t != iface ==> q[name][t] == p[name][t]
    ensures forall n :: n in p && n != name ==> q[n] == p[n]
  {
    p[name := BucketOf(p, name)[iface := prov]]
  }

  /** The provider `get_instance(iface, name)` calls: indexing the bucket fails
      when it does not exist; inside it an unbound type stands for itself. */
  function Lookup(p: Providers, iface: TypeId, name: Option<Name>): Result<Provider, Error>
  {
    if name !in p then Failure(UnknownQualifier(name))
    else if iface in p[name] then Success(p[name][iface])
    else Success(ClassProv(iface))
  }

  /** The provider behind `injector.get_instance(req)` for a dependency table
      entry.  A `Named` requirement is a fresh class that no bucket binds, so
      the default-bucket lookup falls back to calling it, and its `__call__`
      then does the qualified lookup. */
  function Resolve(p: Providers, req: Requirement): Result<Provider, Error>
  {
    match req
    case Plain(t) => Lookup(p, t, None)
    case Named(n, t) =>
      if None !in p then Failure(UnknownQualifier(None)) else Lookup(p, t, Some(n))
  }

  /** `o` is what calling `prov` gives: the bound instance itself, or an object
      that the class's constructor built from no arguments. */
  predicate Yields(prov: Provider, o: Obj)
  {
    match prov
    case InstanceProv(x) => o == x
    case ClassProv(t) => o.ty == t && o.args == [] && o.kwargs == map[]
  }

  // ---------------------------------------------------------------------------
  // Registration calls and their cumulative effect

  /** One call of `provide(iface, cls, name)` or `provide_instance(iface, obj, name)`. */
  datatype Registration =
    | ProvideClass(iface: TypeId, cls: TypeId, name: Option<Name>)
    | ProvideInstance(iface: TypeId, obj: Obj, name: Option<Name>)

  /** Whether the call changes the registry: `provide` only when its subclass
      assertion holds, `provide_instance` always. */
  predicate Takes(op: Registration, isSubclass: (TypeId, TypeId) -> bool)
  {
    op.ProvideInstance? || isSubclass(op.cls, op.iface)
  }

  function Bound(op: Registration): Provider
  {
    match op
    case ProvideClass(_, cls, _) => ClassProv(cls)
    case ProvideInstance(_, obj, _) => InstanceProv(obj)
  }

  /** The registry after one registration call; a `provide` whose assertion
      fails raises before `setdefault`, so it leaves the registry as it was. */
  function Register(p: Providers, op: Registration, isSubclass: (TypeId, TypeId) -> bool): Providers
  {
    if Takes(op, isSubclass) then Bind(p, op.name, op.iface, Bound(op)) else p
  }

  /** The registry after the calls `ops`, in order. */
  function Replay(p: Providers, ops: seq<Registration>, isSubclass: (TypeId, TypeId) -> bool): Providers
    decreases |ops|
  {
    if ops == [] then p
    else Register(Replay(p, ops[..|ops| - 1], isSubclass), ops[|ops| - 1], isSubclass)
  }

  /** Reference view of the log: the provider of the last call in `ops` that
      took effect on the key `(name, iface)`, if any. */
  function LastBound(ops: seq<Registration>, name: Option<Name>, iface: TypeId,
                     isSubclass: (TypeId, TypeId) -> bool): Option<Provider>
    decreases |ops|
  {
    if ops == [] then None
    else
      var op := ops[|ops| - 1];
      if Takes(op, isSubclass) && op.name == name && op.iface == iface then Some(Bound(op))
      else LastBound(ops[..|ops| - 1], name, iface, isSubclass)
  }

  /** Whether some call in `ops` took effect under `name` (and so created its bucket). */
  predicate Opens(ops: seq<Registration>, name: Option<Name>, isSubclass: (TypeId, TypeId) -> bool)
    decreases |ops|
  {
    if ops == [] then false
    else
      var op := ops[|ops| - 1];
      (Takes(op, isSubclass) && op.name == name) || Opens(ops[..|ops| - 1], name, isSubclass)
  }

  /** What `(name, iface)` resolves to in `p` when no later call binds it. */
  function Before(p: Providers, name: Option<Name>, iface: TypeId): Provider
  {
    if iface in BucketOf(p, name) then BucketOf(p, name)[iface] else ClassProv(iface)
  }

  // ---------------------------------------------------------------------------
  // Properties

  /** A new injector resolves every type to itself under the default name, and
      fails on every other name. */
  lemma NewInjectorLookup(iface: TypeId, n: Name)
    ensures Lookup(map[None := map[]], iface, None) == Success(ClassProv(iface))
    ensures Lookup(map[None := map[]], iface, Some(n)) == Failure(UnknownQualifier(Some(n)))
  {
  }

  /** Default-name lookups never fail on the bucket; dependency-table
      entries resolve as `get_instance(iface)` or, for `named(name, iface)`,
      exactly as `get_instance(iface, name=name)`. */
  lemma DefaultAndNamedResolution(p: Providers, iface: TypeId, n: Name)
    requires HasDefaultBucket(p)
    ensures Lookup(p, iface, None).Success?
    ensures Resolve(p, Plain(iface)) == Lookup(p, iface, None)
    ensures Resolve(p, Named(n, iface)) == Lookup(p, iface, Some(n))
  {
  }

  /** Within an existing bucket, a type with no binding resolves to itself. */
  lemma SelfFallback(p: Providers, iface: TypeId, name: Option<Name>)
    requires name in p && iface !in p[name]
    ensures Lookup(p, iface, name) == Success(ClassProv(iface))
  {
  }

  /** Once bound, a key resolves to what it was bound to. */
  lemma LookupAfterBind(p: Providers, name: Option<Name>, iface: TypeId, prov: Provider)
    ensures Lookup(Bind(p, name, iface, prov), iface, name) == Success(prov)
  {
  }

  /** Binding one key does not change the lookup of any other key, except
      that a newly created bucket starts answering by self-fallback. */
  lemma LookupUnaffected(p: Providers, name: Option<Name>, iface: TypeId, prov: Provider,
                         name': Option<Name>, iface': TypeId)
    requires name' != name || (name in p && iface' != iface)
    ensures Lookup(Bind(p, name, iface, prov), iface', name') == Lookup(p, iface', name')
  {
  }

  /** Rebinding a key overwrites it: the first binding leaves no trace. */
  lemma LastWriteWins(p: Providers, name: Option<Name>, iface: TypeId, first: Provider, second: Provider)
    ensures Bind(Bind(p, name, iface, first), name, iface, second) == Bind(p, name, iface, second)
  {
    var lhs := Bind(Bind(p, name, iface, first), name, iface, second);
    var rhs := Bind(p, name, iface, second);
    assert lhs[name] == rhs[name];
  }

  /** Bindings of two different keys do not interfere: their order does not matter. */
  lemma BindCommutes(p: Providers, n1: Option<Name>, i1: TypeId, v1: Provider,
                     n2: Option<Name>, i2: TypeId, v2: Provider)
    requires (n1, i1) != (n2, i2)
    ensures Bind(Bind(p, n1, i1, v1), n2, i2, v2) == Bind(Bind(p, n2, i2, v2), n1, i1, v1)
  {
    if n1 != n2 {
      BindCommutesAcrossBuckets(p, n1, i1, v1, n2, i2, v2);
    } else {
      BindCommutesInBucket(p, n1, i1, v1, i2, v2);
    }
  }

  lemma BindCommutesAcrossBuckets(p: Providers, n1: Option<Name>, i1: TypeId, v1: Provider,
                                  n2: Option<Name>, i2: TypeId, v2: Provider)
    requires n1 != n2
    ensures Bind(Bind(p, n1, i1, v1), n2, i2, v2) == Bind(Bind(p, n2, i2, v2), n1, i1, v1)
  {
    var b1 := BucketOf(p, n1)[i1 := v1];
    var b2 := BucketOf(p, n2)[i2 := v2];
    assert p[n1 := b1][n2 := b2] == p[n2 := b2][n1 := b1];
  }

  lemma BindCommutesInBucket(p: Providers, n: Option<Name>, i1: TypeId, v1: Provider, i2: TypeId, v2: Provider)
    requires i1 != i2
    ensures Bind(Bind(p, n, i1, v1), n, i2, v2) == Bind(Bind(p, n, i2, v2), n, i1, v1)
  {
    var b := BucketOf(p, n);
    assert b[i1 := v1][i2 := v2] == b[i2 := v2][i1 := v1];
  }

  /** A `provide` whose class is not a subclass of the interface leaves the
      registry unchanged; `provide_instance` is never refused. */
  lemma RefusedProvideChangesNothing(p: Providers, iface: TypeId, cls: TypeId, name: Option<Name>,
                                     obj: Obj, isSubclass: (TypeId, TypeId) -> bool)
    ensures !isSubclass(cls, iface) ==> Register(p, ProvideClass(iface, cls, name), isSubclass) == p
    ensures Register(p, ProvideInstance(iface, obj, name), isSubclass) == Bind(p, name, iface, InstanceProv(obj))
  {
  }

  /** The default bucket survives every sequence of registrations. */
  lemma {:induction false} ReplayKeepsDefaultBucket(p: Providers, ops: seq<Registration>,
                                                    isSubclass: (TypeId, TypeId) -> bool)
    requires HasDefaultBucket(p)
    ensures HasDefaultBucket(Replay(p, ops, isSubclass))
    decreases |ops|
  {
    if ops != [] {
      ReplayKeepsDefaultBucket(p, ops[..|ops| - 1], isSubclass);
    }
  }

  /** After any sequence of registrations, `get_instance(iface, name)` fails
      exactly when the bucket `name` neither existed nor was created by a
      call that took effect; otherwise it uses the provider of the last call
      that bound `(name, iface)`, and without one, what `p` had (its own
      binding or self-fallback). */
  lemma {:induction false} ReplayLookup(p: Providers, ops: seq<Registration>, name: Option<Name>,
                                        iface: TypeId, isSubclass: (TypeId, TypeId) -> bool)
    ensures Lookup(Replay(p, ops, isSubclass), iface, name).Failure?
            <==> name !in p && !Opens(ops, name, isSubclass)
    ensures Lookup(Replay(p, ops, isSubclass), iface, name).Failure? ==>
            Lookup(Replay(p, ops, isSubclass), iface, name).error == UnknownQualifier(name)
    ensures Lookup(Replay(p, ops, isSubclass), iface, name).Success? ==>
            Lookup(Replay(p, ops, isSubclass), iface, name).value ==
              match LastBound(ops, name, iface, isSubclass)
              case Some(prov) => prov
              case None => Before(p, name, iface)
    decreases |ops|
  {
    if ops != [] {
      var init := ops[..|ops| - 1];
      ReplayLookup(p, init, name, iface, isSubclass);
      var op := ops[|ops| - 1];
      var q := Replay(p, init, isSubclass);
      assert Replay(p, ops, isSubclass) == Register(q, op, isSubclass);
      if Takes(op, isSubclass) && op.name == name && op.iface == iface {
        LookupAfterBind(q, name, iface, Bound(op));
      } else if Takes(op, isSubclass) && op.name == name {
        if name !in q {
          assert LastBound(init, name, iface, isSubclass) == None by {
            NoBindingWithoutBucket(init, name, iface, isSubclass);
          }
          assert name !in p;
        } else {
          LookupUnaffected(q, op.name, op.iface, Bound(op), name, iface);
        }
      } else if Takes(op, isSubclass) {
        LookupUnaffected(q, op.name, op.iface, Bound(op), name, iface);
      }
    }
  }

  /** A key can only have been bound under a name some call opened. */
  lemma {:induction false} NoBindingWithoutBucket(ops: seq<Registration>, name: Option<Name>,
                                                  iface: TypeId, isSubclass: (TypeId, TypeId) -> bool)
    ensures LastBound(ops, name, iface, isSubclass).Some? ==> Opens(ops, name, isSubclass)
    decreases |ops|
  {
    if ops != [] {
      NoBindingWithoutBucket(ops[..|ops| - 1], name, iface, isSubclass);
    }
  }

  /** The named-bindings walkthrough: `provide(iface, impl)` then
      `provide_instance(iface, obj, name=n)` on a new injector.  The default
      name resolves `iface` to the class `impl`, the name `n` to exactly
      `obj`. */
  lemma NamedBindingsAreIsolated(iface: TypeId, impl: TypeId, obj: Obj, n: Name,
                                 isSubclass: (TypeId, TypeId) -> bool)
    requires isSubclass(impl, iface)
    ensures var q := Replay(map[None := map[]],
                            [ProvideClass(iface, impl, None), ProvideInstance(iface, obj, Some(n))],
                            isSubclass);
            Lookup(q, iface, None) == Success(ClassProv(impl))
            && Lookup(q, iface, Some(n)) == Success(InstanceProv(obj))
  {
  }
}
