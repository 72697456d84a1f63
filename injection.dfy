/** What injection on construction (`Injectable.__call__`) does to the keyword
    arguments of a call, stated over values.  A declared parameter that the
    caller passed by keyword keeps the caller's value; every other declared
    parameter is added with what its requirement resolves to; nothing else
    is added or changed. */
module Injection {
  import opened Wrappers
  import opened Registry

  type Kwargs = map<string, Obj>

  /** A class's `__dependencies__`: parameter name to requirement. */
  type Dependencies = map<string, Requirement>

  /** Some declared parameter that the caller did not pass has a requirement
      whose lookup fails, so construction raises. */
  predicate InjectionFails(p: Providers, deps: Dependencies, kwargs: Kwargs)
  {
    exists k :: k in deps && k !in kwargs && Resolve(p, deps[k]).Failure?
  }

  /** `out` is the keyword set the real constructor receives after injection
      from `deps` into the caller's `kwargs`. */
  predicate Augmented(p: Providers, deps: Dependencies, kwargs: Kwargs, out: Kwargs)
  {
    && out.Keys == kwargs.Keys + deps.Keys
    && (forall k :: k in kwargs ==> out[k] == kwargs[k])
    && (forall k :: k in deps && k !in kwargs ==>
          Resolve(p, deps[k]).Success? && Yields(Resolve(p, deps[k]).value, out[k]))
  }

  /** With the default bucket in place, a plain requirement always resolves,
      so injection fails exactly when a missing parameter asks for a name
      whose bucket does not exist. */
  lemma FailsOnlyOnUnknownQualifier(p: Providers, deps: Dependencies, kwargs: Kwargs)
    requires HasDefaultBucket(p)
    ensures InjectionFails(p, deps, kwargs) <==>
            exists k :: k in deps && k !in kwargs && deps[k].Named? && Some(deps[k].name) !in p
  {
  }

  /** A caller who passes every declared parameter by keyword bypasses
      injection: it cannot fail and the constructor receives exactly the
      caller's keywords. */
  lemma SuppliedKwargsPassThrough(p: Providers, deps: Dependencies, kwargs: Kwargs, out: Kwargs)
    requires deps.Keys <= kwargs.Keys
    ensures !InjectionFails(p, deps, kwargs)
    ensures Augmented(p, deps, kwargs, out) <==> out == kwargs
  {
  }

  /** A keyword the class does not declare reaches the constructor only from
      the caller, unchanged. */
  lemma UndeclaredKwargsPassThrough(p: Providers, deps: Dependencies, kwargs: Kwargs, out: Kwargs)
    requires Augmented(p, deps, kwargs, out)
    ensures forall k :: k in out && k !in deps ==> k in kwargs && out[k] == kwargs[k]
  {
  }
}
